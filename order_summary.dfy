/** The order summary panel of the point-of-sale screen: its totals, its header
    label, whether it shows the empty state, and the requests its buttons send. */
module OrderSummary {

  import opened Wrappers
  import opened Types
  import Currency

  /** The amount shown beside one line. */
  function LineTotal(item: OrderItem): real
  {
    item.price * item.quantity as real
  }

  /** `items.reduce((sum, item) => sum + item.price * item.quantity, 0)`. */
  function Subtotal(items: seq<OrderItem>): real
    decreases |items|
  {
    if items == [] then 0.0 else Subtotal(items[..|items| - 1]) + LineTotal(items[|items| - 1])
  }

  /** The four amounts of the panel: 12% VAT and a 10% service charge on the subtotal. */
  function Pricing(items: seq<OrderItem>): Currency.Totals
  {
    var total := Subtotal(items);
    var vat := total * 0.12;
    var serviceCharge := total * 0.10;
    Currency.Totals(total, vat, serviceCharge, total + vat + serviceCharge)
  }

  /** The subtotal of a concatenation is the sum of the subtotals. */
  lemma {:induction false} SubtotalAppend(a: seq<OrderItem>, b: seq<OrderItem>)
    ensures Subtotal(a + b) == Subtotal(a) + Subtotal(b)
    decreases |b|
  {
    if b == [] {
      assert a + b == a;
    } else {
      SubtotalAppend(a, b[..|b| - 1]);
      assert (a + b)[..|a + b| - 1] == a + b[..|b| - 1];
    }
  }

  /** The subtotal is the sum of the line totals, taken from the front. */
  lemma SubtotalCons(item: OrderItem, rest: seq<OrderItem>)
    ensures Subtotal([item] + rest) == LineTotal(item) + Subtotal(rest)
  {
    SubtotalAppend([item], rest);
    assert [item][..0] == [];
  }

  /** Changing one line's quantity moves the subtotal by price times the change. */
  lemma SubtotalUpdateQuantity(items: seq<OrderItem>, i: nat, q: int)
    requires i < |items|
    ensures Subtotal(items[i := items[i].(quantity := q)])
         == Subtotal(items) + items[i].price * (q - items[i].quantity) as real
  {
    var changed := items[i := items[i].(quantity := q)];
    assert items == items[..i] + [items[i]] + items[i + 1..];
    assert changed == items[..i] + [changed[i]] + items[i + 1..];
    SubtotalAppend(items[..i] + [items[i]], items[i + 1..]);
    SubtotalAppend(items[..i], [items[i]]);
    SubtotalAppend(items[..i] + [changed[i]], items[i + 1..]);
    SubtotalAppend(items[..i], [changed[i]]);
    SubtotalCons(items[i], []);
    SubtotalCons(changed[i], []);
  }

  /** Removing line `i` takes its line total off the subtotal. */
  lemma SubtotalRemove(items: seq<OrderItem>, i: nat)
    requires i < |items|
    ensures Subtotal(items[..i] + items[i + 1..]) == Subtotal(items) - LineTotal(items[i])
  {
    assert items == items[..i] + ([items[i]] + items[i + 1..]);
    SubtotalAppend(items[..i], [items[i]] + items[i + 1..]);
    SubtotalCons(items[i], items[i + 1..]);
    SubtotalAppend(items[..i], items[i + 1..]);
  }

  /** The panel computes exactly `calculateTotal` with its default rates, and its final
      total is 1.22 times the subtotal. */
  lemma PricingIsDefaultTotal(items: seq<OrderItem>)
    ensures Pricing(items) == Currency.CalculateTotal(Subtotal(items), Currency.DefaultVatRate, Currency.DefaultServiceRate)
    ensures Pricing(items).total == 1.22 * Pricing(items).subtotal
  {
  }

  /** With non-negative prices and quantities every amount is non-negative and the
      final total is at least the subtotal. */
  lemma {:induction false} PricingNonNegative(items: seq<OrderItem>)
    requires forall k :: 0 <= k < |items| ==> items[k].price >= 0.0 && items[k].quantity >= 0
    ensures var p := Pricing(items);
      p.subtotal >= 0.0 && p.vat >= 0.0 && p.serviceCharge >= 0.0 && p.total >= p.subtotal
    decreases |items|
  {
    if items != [] {
      PricingNonNegative(items[..|items| - 1]);
      var last := items[|items| - 1];
      assert last.price * last.quantity as real >= 0.0;
    }
  }

  /** An empty order has all four amounts zero. */
  lemma PricingEmpty()
    ensures Pricing([]) == Currency.Totals(0.0, 0.0, 0.0, 0.0)
  {
  }

  /** A San Miguel Beer and two Grilled Burgers: 705 + 84.6 + 70.5 = 860.1. */
  lemma PricingExample()
    ensures Pricing([OrderItem("al-b-1", "San Miguel Beer", 65.0, 1), OrderItem("f-4", "Grilled Burger", 320.0, 2)])
         == Currency.Totals(705.0, 84.6, 70.5, 860.1)
  {
    var items := [OrderItem("al-b-1", "San Miguel Beer", 65.0, 1), OrderItem("f-4", "Grilled Burger", 320.0, 2)];
    SubtotalCons(items[0], items[1..]);
    SubtotalCons(items[1], []);
    assert items[1..] == [items[1]] + [];
    assert Subtotal(items) == 705.0;
  }

  /** The label under the header: the table when one is given, else a walk-in. */
  function CustomerLabel(tableNumber: Option<string>): string
  {
    if Truthy(tableNumber) then "Table " + tableNumber.value else "Walk-in Customer"
  }

  /** Different tables get different labels, and no table label is the walk-in label. */
  lemma CustomerLabelDistinguishes(a: Option<string>, b: Option<string>)
    ensures Truthy(a) && Truthy(b) ==> (CustomerLabel(a) == CustomerLabel(b) <==> a.value == b.value)
    ensures Truthy(a) ==> CustomerLabel(a) != CustomerLabel(None)
  {
    if Truthy(a) && Truthy(b) && CustomerLabel(a) == CustomerLabel(b) {
      assert a.value == CustomerLabel(a)[6..];
      assert b.value == CustomerLabel(b)[6..];
    }
    if Truthy(a) {
      assert CustomerLabel(a)[0] == 'T';
      assert CustomerLabel(None)[0] == 'W';
    }
  }

  /** What the panel shows: the empty state, or the lines, the totals and the checkout
      button. */
  datatype View =
    | EmptyState(heading: string)
    | Summary(heading: string, lineTotals: seq<real>, totals: Currency.Totals, checkoutButton: bool)

  function Render(items: seq<OrderItem>, tableNumber: Option<string>): (v: View)
    ensures v.heading == CustomerLabel(tableNumber)
    ensures v.EmptyState? <==> items == []
    ensures v.Summary? ==>
      (v.checkoutButton && v.totals == Pricing(items) && |v.lineTotals| == |items|
       && forall k :: 0 <= k < |items| ==> v.lineTotals[k] == LineTotal(items[k]))
  {
    if |items| == 0 then EmptyState(CustomerLabel(tableNumber))
    else Summary(CustomerLabel(tableNumber), seq(|items|, k requires 0 <= k < |items| => LineTotal(items[k])), Pricing(items), true)
  }

  /** The buttons on one line. */
  datatype Control = RemoveButton | DecrementButton | IncrementButton

  /** The callbacks a press calls. */
  datatype Request = UpdateQuantity(itemId: string, quantity: int) | RemoveItem(itemId: string)

  /** The request a press on a line's control sends; `None` when the control is
      disabled. */
  function Press(item: OrderItem, control: Control): (r: Option<Request>)
  {
    match control
    case RemoveButton => Some(RemoveItem(item.menuItemId))
    case DecrementButton =>
      if item.quantity <= 1 then None else Some(UpdateQuantity(item.menuItemId, item.quantity - 1))
    case IncrementButton => Some(UpdateQuantity(item.menuItemId, item.quantity + 1))
  }

  /** Every request names the pressed line; only the decrement of a line at quantity 1
      or less sends nothing; the quantity moves by exactly one; and from a line of
      quantity at least 1 no request ever asks for a quantity below 1. */
  lemma PressRequests(item: OrderItem, control: Control)
    ensures Press(item, control).None? <==> control == DecrementButton && item.quantity <= 1
    ensures Press(item, control).Some? ==> Press(item, control).value.itemId == item.menuItemId
    ensures Press(item, control) == Some(RemoveItem(item.menuItemId)) <==> control == RemoveButton
    ensures match Press(item, control)
      case Some(UpdateQuantity(_, q)) => q - item.quantity == (if control == IncrementButton then 1 else -1)
      case _ => true
    ensures item.quantity >= 1 ==> match Press(item, control)
      case Some(UpdateQuantity(_, q)) => q >= 1
      case _ => true
  {
  }
}
