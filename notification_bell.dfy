/** The notification bell and its badge. */
module NotificationBell {

  import opened Wrappers
  import opened Text
  import Seqs
  import Types
  import Notifications

  /** The badge text: no badge for a count of zero or less, the count itself up to
      99, and "99+" above. */
  function BadgeText(count: int): Option<string>
  {
    if count > 0 then Some(if count > 99 then "99+" else IntToString(count)) else None
  }

  /** A badge appears exactly for a positive count; it never takes more than three
      characters; up to 99 it reads back as the count, and above 99 it says "99+". */
  lemma BadgeRules(count: int)
    ensures BadgeText(count).Some? <==> count > 0
    ensures BadgeText(count).Some? ==> 1 <= |BadgeText(count).value| <= 3
    ensures 0 < count <= 99 ==> ParseInt(BadgeText(count).value) == Some(count)
    ensures count > 99 <==> BadgeText(count) == Some("99+")
  {
    if 0 < count <= 99 {
      ParseIntRoundTrip(count);
    }
  }

  /** Given a role's unread count, the bell shows a badge exactly when an unread
      notification is addressed to that role. */
  lemma BadgeForUnread(ns: seq<Types.Notification>, role: string)
    ensures BadgeText(Notifications.UnreadCount(ns, role)).Some?
        <==> exists i :: 0 <= i < |ns| && Notifications.TargetsRole(ns[i], role) && !ns[i].isRead
  {
    var p := (n: Types.Notification) => Notifications.TargetsRole(n, role) && !n.isRead;
    Notifications.UnreadCountCounts(ns, role);
    if exists i :: 0 <= i < |ns| && Notifications.TargetsRole(ns[i], role) && !ns[i].isRead {
      var i :| 0 <= i < |ns| && Notifications.TargetsRole(ns[i], role) && !ns[i].isRead;
      Seqs.FilterMembership(ns, p, ns[i]);
    } else {
      Seqs.FilterNone(ns, p);
    }
  }
}
