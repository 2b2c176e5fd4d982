/** The cashier's notification bell: the unread count, its badge, the icon per
    notification kind, the click that asks for a notification to be marked read and
    the Clear all button. */
module NotificationBell {
  import opened Base
  import opened Text
  import opened DataContext

  function IsUnread(n: Notification): bool
  {
    !n.read
  }

  function IsRead(n: Notification): bool
  {
    n.read
  }

  /** `unreadCount` */
  function UnreadCount(ns: seq<Notification>): (c: nat)
    ensures c <= |ns|
    ensures c == 0 <==> forall n :: n in ns ==> n.read
    ensures c + Count(ns, IsRead) == |ns|
  {
    FilterMembers(ns, IsUnread);
    CountPartition(ns, IsUnread, IsRead);
    var unread := Filter(ns, IsUnread);
    if unread == [] then |unread| else assert unread[0] in unread; |unread|
  }

  /** The badge: hidden at 0, the count up to 9, then '9+'. */
  function Badge(count: nat): (r: Option<string>)
    ensures r.None? <==> count == 0
    ensures r == Some("9+") <==> count > 9
    ensures 0 < count <= 9 ==> r.Some? && ParseInt(r.value) == Some(count)
  {
    if count == 0 then None
    else if count > 9 then Some("9+")
    else
      ParseIntOfNatToString(count);
      assert |NatToString(count)| == 1 by {
        assert count < 10;
      }
      Some(NatToString(count))
  }

  datatype BellIcon = SuccessIcon | WarningIcon | InfoIcon

  /** `getNotificationIcon` */
  function IconFor(kind: string): (r: BellIcon)
    ensures r == SuccessIcon <==> kind == "success"
    ensures r == WarningIcon <==> kind == "warning"
  {
    if kind == "success" then SuccessIcon
    else if kind == "warning" then WarningIcon
    else InfoIcon
  }

  /** `handleNotificationClick`: the id to mark read, only for an unread notification. */
  function ClickRequest(n: Notification): (r: Option<int>)
    ensures r.Some? <==> !n.read
    ensures r.Some? ==> r.value == n.id
  {
    if !n.read then Some(n.id) else None
  }

  /** Clear all is offered exactly when there is a notification. */
  predicate ShowsClearAll(ns: seq<Notification>)
  {
    |ns| > 0
  }

  /** A newly added notification is unread, so it raises the count by one. */
  lemma AddRaisesCount(ns: seq<Notification>, kind: string, message: string, now: int)
    ensures UnreadCount(ns + [Notification(now, kind, message, false)]) == UnreadCount(ns) + 1
  {
    var n := Notification(now, kind, message, false);
    FilterAppend(ns, [n], IsUnread);
    assert Filter([n], IsUnread) == [n] by {
      assert [n][..0] == [];
    }
  }
}
