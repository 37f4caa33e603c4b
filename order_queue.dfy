/** The kitchen display's order queue: status badges, the next kitchen status, the
    action button of each order card and the elapsed-time label. */
module OrderQueue {

  import opened Wrappers
  import opened Types
  import Seqs
  import RelativeTime

  /** The colour of a status badge. */
  function StatusColor(status: OrderStatus): string
  {
    match status
    case New => "#3b82f6"
    case Cooking => "#fbbf24"
    case Prepared => "#059669"
    case _ => "#6b7280"
  }

  /** The text of a status badge: the three kitchen states are spelled out and any
      other status is shown as stored. */
  function StatusText(status: OrderStatus): string
  {
    match status
    case New => "New Order"
    case Cooking => "Cooking"
    case Prepared => "Prepared"
    case _ => status.Name()
  }

  /** The status the action button moves an order to. */
  function NextStatus(status: OrderStatus): OrderStatus
  {
    match status
    case New => Cooking
    case Cooking => Prepared
    case _ => status
  }

  function ActionText(status: OrderStatus): string
  {
    match status
    case New => "Start Cooking"
    case Cooking => "Mark as Prepared"
    case _ => "Complete"
  }

  /** The kitchen statuses step forward: new to cooking to prepared, and every other
      status stays where it is. */
  lemma NextStatusSteps(status: OrderStatus)
    ensures NextStatus(New) == Cooking && NextStatus(Cooking) == Prepared
    ensures status != New && status != Cooking <==> NextStatus(status) == status
  {
  }

  /** Where `k` presses of the action button take an order. */
  function Advance(status: OrderStatus, k: nat): OrderStatus
    decreases k
  {
    if k == 0 then status else Advance(NextStatus(status), k - 1)
  }

  /** How far along the kitchen workflow a status is. */
  function Rank(status: OrderStatus): nat
  {
    match status
    case New => 0
    case Cooking => 1
    case _ => 2
  }

  /** Pressing never moves an order backward, and from any status at most two presses
      reach a status that no further press changes; from `new` that status is
      `prepared`. */
  lemma {:induction false} AdvanceSettles(status: OrderStatus, k: nat)
    ensures Rank(Advance(status, k)) >= Rank(status)
    ensures k >= 2 ==> Advance(status, k) == Advance(status, 2)
    ensures NextStatus(Advance(status, 2)) == Advance(status, 2)
    ensures k >= 2 ==> Advance(New, k) == Prepared
    decreases k
  {
    if k > 0 {
      AdvanceSettles(NextStatus(status), k - 1);
      AdvanceSettles(New, k - 1);
      if k >= 3 {
        AdvanceFixed(Advance(status, 2), k - 2);
        AdvanceSplit(status, 2, k - 2);
        AdvanceFixed(Prepared, k - 2);
        AdvanceSplit(New, 2, k - 2);
      }
    }
  }

  lemma {:induction false} AdvanceSplit(status: OrderStatus, i: nat, j: nat)
    ensures Advance(status, i + j) == Advance(Advance(status, i), j)
    decreases i
  {
    if i > 0 {
      AdvanceSplit(NextStatus(status), i - 1, j);
    }
  }

  lemma {:induction false} AdvanceFixed(status: OrderStatus, k: nat)
    requires NextStatus(status) == status
    ensures Advance(status, k) == status
    decreases k
  {
    if k > 0 {
      AdvanceFixed(status, k - 1);
    }
  }

  /** Different statuses get different badge texts. */
  lemma StatusTextInjective(a: OrderStatus, b: OrderStatus)
    ensures StatusText(a) == StatusText(b) ==> a == b
  {
  }

  /** The three kitchen states have badge colours of their own; every other status
      shares the grey fallback. */
  lemma StatusColorRule(a: OrderStatus, b: OrderStatus)
    ensures a in {New, Cooking, Prepared} && StatusColor(a) == StatusColor(b) ==> a == b
    ensures StatusColor(a) == "#6b7280" <==> !(a in {New, Cooking, Prepared})
  {
  }

  /** The request the action button of an order card sends. */
  datatype StatusUpdate = StatusUpdate(orderId: string, status: OrderStatus)

  /** The action button of a card: absent for a prepared order, otherwise labelled
      with the action text and sending the next status. */
  datatype Button = Button(text: string, onPress: StatusUpdate)

  function ActionButton(order: Order): Option<Button>
  {
    if order.status != Prepared
    then Some(Button(ActionText(order.status), StatusUpdate(order.id, NextStatus(order.status))))
    else None
  }

  /** The button appears exactly when the order is not prepared; on a new or cooking
      order it advances the status, and on any other shown status it reads "Complete"
      but sends the status the order already has. */
  lemma ActionButtonRule(order: Order)
    ensures ActionButton(order).Some? <==> order.status != Prepared
    ensures ActionButton(order).Some? ==> ActionButton(order).value.onPress.orderId == order.id
    ensures ActionButton(order).Some? && (order.status == New || order.status == Cooking) ==>
      Rank(ActionButton(order).value.onPress.status) == Rank(order.status) + 1
    ensures ActionButton(order).Some? && order.status != New && order.status != Cooking ==>
      ActionButton(order).value.text == "Complete" && ActionButton(order).value.onPress.status == order.status
  {
  }

  /** `order.id.slice(-4)`: the last four characters of the id, or all of a shorter one. */
  function OrderNumber(id: string): (r: string)
    ensures |r| == if |id| < 4 then 7 + |id| else 11
    ensures r == "Order #" + id[|id| - (|r| - 7)..]
  {
    "Order #" + Seqs.LastN(id, 4)
  }

  function TableLabel(tableNumber: Option<string>): string
  {
    if Truthy(tableNumber) then "Table " + tableNumber.value else "Walk-in"
  }

  /** Only a table order with a non-empty table number is labelled with a table. */
  lemma TableLabelRule(tableNumber: Option<string>)
    ensures TableLabel(tableNumber) == "Walk-in" <==> !Truthy(tableNumber)
    ensures Truthy(tableNumber) ==> TableLabel(tableNumber)[6..] == tableNumber.value
  {
    if Truthy(tableNumber) {
      assert TableLabel(tableNumber)[0] == 'T';
    }
  }

  /** The time shown on an order card. */
  function FormatTime(now: int, createdAt: int): string
  {
    RelativeTime.ClockLabel(RelativeTime.ElapsedMinutes(now, createdAt))
  }

  /** Orders created in the last minute, or stamped in the future, read "Just now";
      otherwise two cards show the same time only when their whole elapsed minutes
      agree. */
  lemma FormatTimeRule(now: int, a: int, b: int)
    ensures FormatTime(now, a) == "Just now" <==> now - a < RelativeTime.MsPerMinute
    ensures now - a >= RelativeTime.MsPerMinute && now - b >= RelativeTime.MsPerMinute ==>
      (FormatTime(now, a) == FormatTime(now, b) <==> (now - a) / RelativeTime.MsPerMinute == (now - b) / RelativeTime.MsPerMinute)
  {
    if now - a >= RelativeTime.MsPerMinute {
      RelativeTime.ClockLabelInjective(RelativeTime.ElapsedMinutes(now, a), RelativeTime.ElapsedMinutes(now, a));
      if now - b >= RelativeTime.MsPerMinute {
        RelativeTime.ClockLabelInjective(RelativeTime.ElapsedMinutes(now, a), RelativeTime.ElapsedMinutes(now, b));
      }
    }
  }
}
