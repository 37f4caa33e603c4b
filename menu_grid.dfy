/** The menu grid of the point-of-sale screen: which items a category selector
    shows, and which presses select an item. */
module MenuGrid {

  import opened Wrappers
  import opened Types
  import opened Seqs

  /** The predicate of `filteredItems`, for one selector and one item. */
  predicate Matches(selector: string, item: MenuItem)
  {
    if selector == "all" then true
    else if selector == "non-alcoholic" then item.category == NonAlcoholic
    else if selector == "alcoholic" then item.category == Alcoholic
    else if selector == "food" then item.category == Food
    else if selector == "shots" then item.subcategory == Some(Shots)
    else if selector == "glass" then item.subcategory == Some(Glass)
    else if selector == "pitcher" then item.subcategory == Some(Pitcher)
    else if selector == "bottled" then item.subcategory == Some(Bottled)
    else false
  }

  /** The items the grid shows for a selector. */
  function FilteredItems(items: seq<MenuItem>, selector: string): seq<MenuItem>
  {
    Filter(items, (item: MenuItem) => Matches(selector, item))
  }

  /** The selectors the filter recognises. */
  predicate IsKnownSelector(selector: string)
  {
    selector in ["all", "non-alcoholic", "alcoholic", "food", "shots", "glass", "pitcher", "bottled"]
  }

  /** The category a category selector stands for. */
  function SelectorCategory(selector: string): Option<Category>
  {
    if selector == "non-alcoholic" then Some(NonAlcoholic)
    else if selector == "alcoholic" then Some(Alcoholic)
    else if selector == "food" then Some(Food)
    else None
  }

  /** The subcategory a subcategory selector stands for. */
  function SelectorSubcategory(selector: string): Option<Subcategory>
  {
    if selector == "shots" then Some(Shots)
    else if selector == "glass" then Some(Glass)
    else if selector == "pitcher" then Some(Pitcher)
    else if selector == "bottled" then Some(Bottled)
    else None
  }

  /** An item matches exactly when the selector is `all`, names the item's category,
      or names the item's subcategory; an unknown selector matches nothing. */
  lemma MatchesByKind(selector: string, item: MenuItem)
    ensures Matches(selector, item) <==>
      selector == "all"
      || (SelectorCategory(selector).Some? && SelectorCategory(selector).value == item.category)
      || (SelectorSubcategory(selector).Some? && item.subcategory == SelectorSubcategory(selector))
    ensures !IsKnownSelector(selector) ==> !Matches(selector, item)
  {
  }

  /** `all` shows everything, a category or subcategory selector shows exactly the
      items of that kind, and an unknown selector shows nothing. */
  lemma FilteredItemsBySelector(items: seq<MenuItem>, selector: string, item: MenuItem)
    ensures selector == "all" ==> FilteredItems(items, selector) == items
    ensures !IsKnownSelector(selector) ==> FilteredItems(items, selector) == []
    ensures SelectorCategory(selector).Some? ==>
      (item in FilteredItems(items, selector) <==> item in items && item.category == SelectorCategory(selector).value)
    ensures SelectorSubcategory(selector).Some? ==>
      (item in FilteredItems(items, selector) <==> item in items && item.subcategory == SelectorSubcategory(selector))
  {
    var p := (i: MenuItem) => Matches(selector, i);
    if selector == "all" {
      FilterAll(items, p);
    }
    if !IsKnownSelector(selector) {
      FilterNone(items, p);
    }
    FilterMembership(items, p, item);
  }

  /** The grid keeps the menu's order, and filtering the shown items again with the
      same selector shows the same items. */
  lemma FilteredItemsOrder(items: seq<MenuItem>, selector: string)
    ensures IsSubsequence(FilteredItems(items, selector), items)
    ensures FilteredItems(FilteredItems(items, selector), selector) == FilteredItems(items, selector)
  {
    FilterIsSubsequence(items, (i: MenuItem) => Matches(selector, i));
    FilterIdempotent(items, (i: MenuItem) => Matches(selector, i));
  }

  /** What pressing a card passes to `onItemSelect`; nothing for an unavailable item,
      whose card is also disabled. */
  function Press(item: MenuItem): Option<MenuItem>
  {
    if item.isAvailable then Some(item) else None
  }

  /** A press selects the pressed item exactly when it is available. */
  lemma PressSelectsAvailable(item: MenuItem)
    ensures Press(item).Some? <==> item.isAvailable
    ensures Press(item).Some? ==> Press(item).value == item
  {
  }
}
