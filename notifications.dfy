/** The notification helpers of `utils/notifications.ts`: construction with
    defaults, the templates, filtering by role, the unread count, marking as read and
    the in-place sort by priority and age. The id and creation time, which the source
    takes from the clock and a random number, are parameters. */
module Notifications {

  import opened Wrappers
  import opened Types
  import opened Seqs
  import Text

  /** `createNotification`: an absent priority means medium, an absent
      `actionRequired` means false, and every new notification is unread. */
  function CreateNotification(id: string, now: int, kind: NotificationType, title: string,
                              message: string, targetRoles: seq<string>, priority: Option<Priority>,
                              actionRequired: Option<bool>, orderId: Option<string>,
                              tableId: Option<string>): (n: Notification)
    ensures !n.isRead && n.createdAt == now && n.id == id
    ensures n.priority == if priority.Some? then priority.value else Medium
    ensures n.actionRequired <==> actionRequired == Some(true)
    ensures n.kind == kind && n.title == title && n.message == message
    ensures n.targetRoles == targetRoles && n.orderId == orderId && n.tableId == tableId
  {
    Notification(id, kind, title, message,
                 if priority.Some? then priority.value else Medium,
                 targetRoles, false, now,
                 if actionRequired.Some? then actionRequired.value else false,
                 orderId, tableId)
  }

  /** The notification is addressed to `role`, directly or through `all`. */
  predicate TargetsRole(n: Notification, role: string)
  {
    role in n.targetRoles || "all" in n.targetRoles
  }

  /** `filterNotificationsByRole`. */
  function FilterByRole(ns: seq<Notification>, role: string): seq<Notification>
  {
    Filter(ns, (n: Notification) => TargetsRole(n, role))
  }

  /** The filter keeps exactly the notifications addressed to the role, every copy
      of each, in their original order, and a second filter changes nothing. */
  lemma FilterByRoleKeeps(ns: seq<Notification>, role: string, n: Notification)
    ensures n in FilterByRole(ns, role) <==> n in ns && TargetsRole(n, role)
    ensures multiset(FilterByRole(ns, role))[n] == if TargetsRole(n, role) then multiset(ns)[n] else 0
    ensures IsSubsequence(FilterByRole(ns, role), ns)
    ensures FilterByRole(FilterByRole(ns, role), role) == FilterByRole(ns, role)
  {
    FilterMembership(ns, (n: Notification) => TargetsRole(n, role), n);
    FilterMultiset(ns, (n: Notification) => TargetsRole(n, role), n);
    FilterIsSubsequence(ns, (n: Notification) => TargetsRole(n, role));
    FilterIdempotent(ns, (n: Notification) => TargetsRole(n, role));
  }

  /** `getUnreadCount`: the unread notifications among those addressed to the role. */
  function UnreadCount(ns: seq<Notification>, role: string): (c: nat)
    ensures c <= |FilterByRole(ns, role)| <= |ns|
  {
    |Filter(FilterByRole(ns, role), (n: Notification) => !n.isRead)|
  }

  /** The unread count is the number of notifications that are both addressed to the
      role and unread. */
  lemma {:induction false} UnreadCountCounts(ns: seq<Notification>, role: string)
    ensures UnreadCount(ns, role) == |Filter(ns, (n: Notification) => TargetsRole(n, role) && !n.isRead)|
    decreases |ns|
  {
    if ns != [] {
      UnreadCountCounts(ns[1..], role);
      var visible := (n: Notification) => TargetsRole(n, role);
      var unread := (n: Notification) => !n.isRead;
      var head := if visible(ns[0]) then [ns[0]] else [];
      FilterAppend(head, Filter(ns[1..], visible), unread);
      assert [ns[0]][1..] == [];
    }
  }

  /** `markAsRead`: every notification with the id becomes read, nothing else changes. */
  function MarkAsRead(ns: seq<Notification>, id: string): (r: seq<Notification>)
    ensures |r| == |ns|
    ensures forall i :: 0 <= i < |ns| ==> r[i] == if ns[i].id == id then ns[i].(isRead := true) else ns[i]
    decreases |ns|
  {
    if ns == [] then []
    else [if ns[0].id == id then ns[0].(isRead := true) else ns[0]] + MarkAsRead(ns[1..], id)
  }

  /** Marking twice is marking once. */
  lemma MarkAsReadIdempotent(ns: seq<Notification>, id: string)
    ensures MarkAsRead(MarkAsRead(ns, id), id) == MarkAsRead(ns, id)
  {
  }

  /** Marking as read never raises a role's unread count, and lowers it exactly when
      an unread notification with the id is addressed to the role. */
  lemma {:induction false} MarkAsReadUnread(ns: seq<Notification>, id: string, role: string)
    ensures UnreadCount(MarkAsRead(ns, id), role) <= UnreadCount(ns, role)
    ensures (exists i :: 0 <= i < |ns| && ns[i].id == id && !ns[i].isRead && TargetsRole(ns[i], role))
            <==> UnreadCount(MarkAsRead(ns, id), role) < UnreadCount(ns, role)
    decreases |ns|
  {
    if ns != [] {
      var m := MarkAsRead(ns, id);
      MarkAsReadUnread(ns[1..], id, role);
      assert m[1..] == MarkAsRead(ns[1..], id);
      UnreadCountCounts(ns, role);
      UnreadCountCounts(m, role);
      UnreadCountCounts(ns[1..], role);
      UnreadCountCounts(m[1..], role);
      if exists i :: 0 <= i < |ns| && ns[i].id == id && !ns[i].isRead && TargetsRole(ns[i], role) {
        var i :| 0 <= i < |ns| && ns[i].id == id && !ns[i].isRead && TargetsRole(ns[i], role);
        if i > 0 {
          assert ns[1..][i - 1] == ns[i];
        }
      } else {
        forall j | 0 <= j < |ns[1..]|
          ensures !(ns[1..][j].id == id && !ns[1..][j].isRead && TargetsRole(ns[1..][j], role))
        {
          assert ns[1..][j] == ns[j + 1];
        }
        assert !(ns[0].id == id && !ns[0].isRead && TargetsRole(ns[0], role));
      }
    }
  }

  /** After marking every notification read, no role has an unread notification. */
  lemma {:induction false} AllReadNoUnread(ns: seq<Notification>, role: string)
    requires forall i :: 0 <= i < |ns| ==> ns[i].isRead
    ensures UnreadCount(ns, role) == 0
  {
    UnreadCountCounts(ns, role);
    FilterNone(ns, (n: Notification) => TargetsRole(n, role) && !n.isRead);
  }

  /** The weight of a priority in the sort: urgent 4, high 3, medium 2, low 1. */
  function PriorityOrder(p: Priority): int
  {
    match p
    case Urgent => 4
    case High => 3
    case Medium => 2
    case Low => 1
  }

  /** `a` may stand before `b` in the sorted list: the comparator of the sort does
      not ask to swap them. Higher priority first, and within a priority the newer
      notification first. */
  predicate Before(a: Notification, b: Notification)
  {
    PriorityOrder(a.priority) > PriorityOrder(b.priority)
    || (PriorityOrder(a.priority) == PriorityOrder(b.priority) && a.createdAt >= b.createdAt)
  }

  /** The comparator `(a, b) => rank(b) - rank(a) || b.createdAt - a.createdAt`. */
  function Compare(a: Notification, b: Notification): int
  {
    var priorityDiff := PriorityOrder(b.priority) - PriorityOrder(a.priority);
    if priorityDiff != 0 then priorityDiff else b.createdAt - a.createdAt
  }

  /** `a` may stand before `b` exactly when the comparator does not put `b` first, and
      the order is total and transitive. */
  lemma BeforeIsComparator(a: Notification, b: Notification, c: Notification)
    ensures Before(a, b) <==> Compare(a, b) <= 0
    ensures Before(a, b) || Before(b, a)
    ensures Before(a, b) && Before(b, c) ==> Before(a, c)
  {
  }

  predicate Sorted(s: seq<Notification>)
  {
    forall i, j :: 0 <= i < j < |s| ==> Before(s[i], s[j])
  }

  /** `sortNotificationsByPriority`: sorts the caller's array in place and returns
      that same array; the result is a permutation of the input in which urgent comes
      before high before medium before low, and newer before older within a priority. */
  method SortByPriority(a: array<Notification>) returns (r: array<Notification>)
    modifies a
    ensures r == a
    ensures Sorted(a[..])
    ensures multiset(a[..]) == multiset(old(a[..]))
  {
    var i := 0;
    while i < a.Length
      invariant 0 <= i <= a.Length
      invariant Sorted(a[..i])
      invariant multiset(a[..]) == multiset(old(a[..]))
    {
      InsertLast(a, i);
      i := i + 1;
    }
    r := a;
  }

  /** One step of the insertion sort: `a[i]` moves down past the entries that should
      follow it, so the first `i + 1` entries are sorted. */
  method InsertLast(a: array<Notification>, i: nat)
    requires i < a.Length && Sorted(a[..i])
    modifies a
    ensures Sorted(a[..i + 1])
    ensures multiset(a[..]) == multiset(old(a[..]))
  {
    var j := i;
    while j > 0 && !Before(a[j - 1], a[j])
      invariant 0 <= j <= i
      invariant forall k, l :: 0 <= k < l <= i && l != j ==> Before(a[k], a[l])
      invariant multiset(a[..]) == multiset(old(a[..]))
    {
      a[j - 1], a[j] := a[j], a[j - 1];
      j := j - 1;
    }
  }

  /** Sorting a list with a single entry per priority and age yields its unique
      ordering: a sorted list starts with one of the most important, newest entries. */
  lemma SortedHead(s: seq<Notification>)
    requires Sorted(s) && s != []
    ensures forall k :: 0 <= k < |s| ==> PriorityOrder(s[0].priority) >= PriorityOrder(s[k].priority)
    ensures forall k :: 0 <= k < |s| && s[k].priority == s[0].priority ==> s[0].createdAt >= s[k].createdAt
  {
    forall k | 0 <= k < |s| ensures PriorityOrder(s[0].priority) >= PriorityOrder(s[k].priority) {
      if k > 0 { assert Before(s[0], s[k]); }
    }
  }

  /** The templates of common notifications. */
  function OrderReady(id: string, now: int, orderId: string, tableNumber: Option<string>): Notification
  {
    CreateNotification(id, now, OrderAlert, "Order Ready for Pickup",
      "Order #" + LastN(orderId, 4) + " " + (if Truthy(tableNumber) then "(Table " + tableNumber.value + ")" else "")
        + " is ready for pickup",
      ["waiter"], Some(High), Some(true), Some(orderId), tableNumber)
  }

  function LowStock(id: string, now: int, itemName: string, currentStock: int, unit: string): Notification
  {
    CreateNotification(id, now, InventoryAlert, "Low Stock Alert",
      itemName + " stock is running low (" + Text.IntToString(currentStock) + " " + unit + " remaining)",
      ["manager", "owner", "bartender"], Some(Medium), None, None, None)
  }

  function LoginRequest(id: string, now: int, staffName: string, role: string): Notification
  {
    CreateNotification(id, now, StaffAlert, "Login Request",
      staffName + " (" + role + ") requesting login approval",
      ["manager", "owner"], Some(Medium), Some(true), None, None)
  }

  function SystemError(id: string, now: int, errorMessage: string): Notification
  {
    CreateNotification(id, now, SystemAlert, "System Error", errorMessage,
      ["developer", "owner"], Some(Urgent), Some(true), None, None)
  }

  function ReservationReminder(id: string, now: int, customerName: string, time: string, guests: int): Notification
  {
    CreateNotification(id, now, ReservationAlert, "Upcoming Reservation",
      customerName + " - " + Text.IntToString(guests) + " guests at " + time + " (15 minutes)",
      ["waiter", "manager"], Some(Medium), None, None, None)
  }

  function VoucherRedeemed(id: string, now: int, voucherCode: string, customerInfo: string): Notification
  {
    CreateNotification(id, now, VoucherAlert, "Voucher Redeemed",
      "Voucher " + voucherCode + " redeemed by " + customerInfo,
      ["manager", "owner"], Some(Low), None, None, None)
  }

  /** Who sees each template, at what priority, and whether it asks for action: a
      ready order reaches only waiters, as a high-priority action; a system error
      reaches only developers and owners, as an urgent action. */
  lemma TemplateAudiences(id: string, now: int, role: string, s1: string, s2: string,
                          k: int, tableNumber: Option<string>)
    ensures var n := OrderReady(id, now, s1, tableNumber);
      (TargetsRole(n, role) <==> role == "waiter") && n.priority == High && n.actionRequired
      && n.orderId == Some(s1) && n.tableId == tableNumber
    ensures var n := LowStock(id, now, s1, k, s2);
      (TargetsRole(n, role) <==> role in {"manager", "owner", "bartender"}) && n.priority == Medium && !n.actionRequired
    ensures var n := LoginRequest(id, now, s1, s2);
      (TargetsRole(n, role) <==> role in {"manager", "owner"}) && n.priority == Medium && n.actionRequired
    ensures var n := SystemError(id, now, s1);
      (TargetsRole(n, role) <==> role in {"developer", "owner"}) && n.priority == Urgent && n.actionRequired
      && n.message == s1
    ensures var n := ReservationReminder(id, now, s1, s2, k);
      (TargetsRole(n, role) <==> role in {"waiter", "manager"}) && n.priority == Medium && !n.actionRequired
    ensures var n := VoucherRedeemed(id, now, s1, s2);
      (TargetsRole(n, role) <==> role in {"manager", "owner"}) && n.priority == Low && !n.actionRequired
  {
  }

  /** Without a table the ready-order message names only the last four characters of
      the order id (with the doubled space the template leaves). */
  lemma OrderReadyMessage(id: string, now: int, orderId: string, tableNumber: Option<string>)
    requires !Truthy(tableNumber)
    ensures OrderReady(id, now, orderId, tableNumber).message
         == "Order #" + LastN(orderId, 4) + "  is ready for pickup"
  {
    assert "Order #" + LastN(orderId, 4) + " " + "" + " is ready for pickup"
        == "Order #" + LastN(orderId, 4) + "  is ready for pickup";
  }
}
