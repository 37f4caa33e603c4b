/** The notification panel: one row per notification with an icon by type, a colour
    by priority, an elapsed-time label, the action badge and the unread marks, and a
    press handler that reports the press and marks an unread notification read. */
module NotificationPanel {

  import opened Wrappers
  import opened Types
  import RelativeTime
  import DateTime
  import Notifications

  datatype Icon = BellIcon | PackageIcon | UsersIcon | AlertTriangleIcon | CalendarIcon

  function NotificationIcon(kind: NotificationType): Icon
  {
    match kind
    case OrderAlert => BellIcon
    case InventoryAlert => PackageIcon
    case StaffAlert => UsersIcon
    case SystemAlert => AlertTriangleIcon
    case ReservationAlert => CalendarIcon
    case VoucherAlert => BellIcon
  }

  function PriorityColor(priority: Priority): string
  {
    match priority
    case Urgent => "#dc2626"
    case High => "#ea580c"
    case Medium => "#3b82f6"
    case Low => "#059669"
  }

  /** Each priority has its own colour, none of them the grey fallback; only order and
      voucher notifications share the bell icon. */
  lemma StyleRules(a: Priority, b: Priority, k: NotificationType, l: NotificationType)
    ensures PriorityColor(a) == PriorityColor(b) <==> a == b
    ensures PriorityColor(a) != "#6b7280"
    ensures NotificationIcon(k) == BellIcon <==> k == OrderAlert || k == VoucherAlert
    ensures NotificationIcon(k) == NotificationIcon(l) && k != l ==> NotificationIcon(k) == BellIcon
  {
  }

  /** The time of a row: "Just now", minutes, hours, and from a day on the locale date
      of the notification, which is given. */
  function FormatTime(now: int, createdAt: int, localeDate: string): string
  {
    var diffMins := RelativeTime.ElapsedMinutes(now, createdAt);
    if diffMins < 1 then "Just now"
    else if diffMins < 60 then RelativeTime.AgoLabel(diffMins, 'm')
    else
      var diffHours := diffMins / 60;
      if diffHours < 24 then RelativeTime.AgoLabel(diffHours, 'h') else localeDate
  }

  /** Within a day the panel shows what `formatRelativeTime` shows; from a day on it
      shows the date, where `formatRelativeTime` would still count days for a week. */
  lemma FormatTimeAgreesWithRelative(now: int, createdAt: int, localeDate: string, absoluteDate: string)
    ensures now - createdAt < RelativeTime.MsPerDay ==>
      FormatTime(now, createdAt, localeDate) == DateTime.FormatRelativeTime(now, createdAt, absoluteDate)
    ensures now - createdAt >= RelativeTime.MsPerDay ==> FormatTime(now, createdAt, localeDate) == localeDate
  {
    RelativeTime.HoursFromMinutes(now - createdAt);
    RelativeTime.DaysFromHours(now - createdAt);
    DateTime.RelativeAgeBuckets(now - createdAt);
  }

  /** One row of the list. */
  datatype Row = Row(
    id: string,
    icon: Icon,
    color: string,
    title: string,
    time: string,
    message: string,
    actionBadge: bool,
    unreadStyle: bool,
    unreadDot: bool)

  datatype PanelView = NoNotifications | Rows(rows: seq<Row>)

  function RenderRow(n: Notification, now: int, localeDate: string): Row
  {
    Row(n.id, NotificationIcon(n.kind), PriorityColor(n.priority), n.title,
        FormatTime(now, n.createdAt, localeDate), n.message, n.actionRequired, !n.isRead, !n.isRead)
  }

  /** The body of the panel; `localeDate` stands for `toLocaleDateString`. */
  function Render(ns: seq<Notification>, now: int, localeDate: int -> string): (v: PanelView)
    ensures v.NoNotifications? <==> ns == []
    ensures v.Rows? ==> |v.rows| == |ns| && forall k :: 0 <= k < |ns| ==> v.rows[k] == RenderRow(ns[k], now, localeDate(ns[k].createdAt))
  {
    if |ns| == 0 then NoNotifications
    else Rows(seq(|ns|, k requires 0 <= k < |ns| => RenderRow(ns[k], now, localeDate(ns[k].createdAt))))
  }

  /** A row carries its notification's texts; it is highlighted and dotted exactly when
      the notification is unread, and badged exactly when it asks for action. */
  lemma RowRules(n: Notification, now: int, localeDate: string)
    ensures var r := RenderRow(n, now, localeDate);
      r.id == n.id && r.title == n.title && r.message == n.message
      && (r.unreadStyle <==> !n.isRead) && (r.unreadDot <==> !n.isRead)
      && (r.actionBadge <==> n.actionRequired)
      && r.color == PriorityColor(n.priority) && r.icon == NotificationIcon(n.kind)
  {
  }

  /** What pressing a row does: the press is always reported, and the notification is
      marked read only when it is unread. */
  datatype PressEffect = PressEffect(pressed: Notification, markAsRead: Option<string>)

  function Press(n: Notification): (e: PressEffect)
    ensures e.pressed == n
    ensures e.markAsRead.Some? <==> !n.isRead
    ensures e.markAsRead.Some? ==> e.markAsRead.value == n.id
  {
    PressEffect(n, if !n.isRead then Some(n.id) else None)
  }

  /** The list after the press effect is applied, taking the panel's `onMarkAsRead`
      callback to be the `markAsRead` helper of the notification utilities. */
  function Apply(ns: seq<Notification>, e: PressEffect): seq<Notification>
  {
    if e.markAsRead.Some? then Notifications.MarkAsRead(ns, e.markAsRead.value) else ns
  }

  /** After pressing the row at `k` that notification is read, notifications with other
      ids are untouched, and the unread count of a role never rises; it falls when the
      pressed notification was unread and addressed to the role. */
  lemma PressMarksRead(ns: seq<Notification>, k: nat, role: string)
    requires k < |ns|
    ensures var after := Apply(ns, Press(ns[k]));
      |after| == |ns| && after[k].isRead
      && (forall j :: 0 <= j < |ns| && ns[j].id != ns[k].id ==> after[j] == ns[j])
      && Notifications.UnreadCount(after, role) <= Notifications.UnreadCount(ns, role)
    ensures !ns[k].isRead && Notifications.TargetsRole(ns[k], role) ==>
      Notifications.UnreadCount(Apply(ns, Press(ns[k])), role) < Notifications.UnreadCount(ns, role)
    ensures ns[k].isRead ==> Apply(ns, Press(ns[k])) == ns
  {
    if !ns[k].isRead {
      Notifications.MarkAsReadUnread(ns, ns[k].id, role);
    }
  }
}
