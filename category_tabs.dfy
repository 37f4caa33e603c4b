/** The category tabs above the menu grid. */
module CategoryTabs {

  import MenuGrid

  datatype Tab = Tab(id: string, name: string)

  /** The fixed tab list, in display order. */
  const Categories: seq<Tab> := [
    Tab("all", "All Items"),
    Tab("non-alcoholic", "Non-Alcoholic"),
    Tab("alcoholic", "Alcoholic"),
    Tab("shots", "Shots"),
    Tab("glass", "Glass"),
    Tab("pitcher", "Pitcher"),
    Tab("bottled", "Bottled"),
    Tab("food", "Food")
  ]

  function TabIds(tabs: seq<Tab>): (ids: seq<string>)
    ensures |ids| == |tabs| && forall k :: 0 <= k < |tabs| ==> ids[k] == tabs[k].id
  {
    seq(|tabs|, k requires 0 <= k < |tabs| => tabs[k].id)
  }

  /** A tab is highlighted when its id is the selected category. */
  predicate IsActive(tab: Tab, selectedCategory: string)
  {
    tab.id == selectedCategory
  }

  /** Pressing a tab reports its id. */
  function Press(tab: Tab): string
  {
    tab.id
  }

  /** The ids are exactly the eight selectors, pairwise distinct, and each is one the
      menu grid recognises and reports back when pressed. */
  lemma TabIdsKnown()
    ensures TabIds(Categories) == ["all", "non-alcoholic", "alcoholic", "shots", "glass", "pitcher", "bottled", "food"]
    ensures forall i, j :: 0 <= i < j < |Categories| ==> Categories[i].id != Categories[j].id
    ensures forall k :: 0 <= k < |Categories| ==> MenuGrid.IsKnownSelector(Press(Categories[k]))
  {
  }

  /** Whatever is selected, at most one tab is highlighted, and a tab is highlighted
      after it is pressed. */
  lemma AtMostOneActive(selectedCategory: string)
    ensures forall i, j ::
      (0 <= i < |Categories| && 0 <= j < |Categories|
       && IsActive(Categories[i], selectedCategory) && IsActive(Categories[j], selectedCategory)) ==> i == j
    ensures forall k :: 0 <= k < |Categories| ==> IsActive(Categories[k], Press(Categories[k]))
  {
    TabIdsKnown();
  }
}
