/** The notification bell: the list of notifications and the unread counter kept beside
    it (src/components/NotificationCenter.jsx). */
module Notifications {
  import opened JsValue
  import opened Lists

  datatype Notification = Notification(
    id: int,
    read: bool,
    kind: string,
    productId: string,
    title: string,
    message: string)

  predicate IsUnread(n: Notification) {
    !n.read
  }

  /** `notifications.filter(n => !n.read).length`. */
  function CountUnread(ns: seq<Notification>): (c: nat)
    ensures c <= |ns|
  {
    |Filter(ns, IsUnread)|
  }

  /** No two notifications share an id. */
  predicate UniqueIds(ns: seq<Notification>) {
    forall i, j :: 0 <= i < j < |ns| ==> ns[i].id != ns[j].id
  }

  /** `notifications.map(n => n.id === id ? {...n, read: true} : n)`. */
  function MarkRead(ns: seq<Notification>, id: int): (r: seq<Notification>)
    ensures |r| == |ns|
    ensures forall i :: 0 <= i < |ns| && ns[i].id == id ==> r[i] == ns[i].(read := true)
    ensures forall i :: 0 <= i < |ns| && ns[i].id != id ==> r[i] == ns[i]
  {
    if ns == [] then [] else [if ns[0].id == id then ns[0].(read := true) else ns[0]] + MarkRead(ns[1..], id)
  }

  /** `notifications.map(n => ({...n, read: true}))`. */
  function MarkAllRead(ns: seq<Notification>): (r: seq<Notification>)
    ensures |r| == |ns|
    ensures forall i :: 0 <= i < |ns| ==> r[i] == ns[i].(read := true)
  {
    if ns == [] then [] else [ns[0].(read := true)] + MarkAllRead(ns[1..])
  }

  lemma CountPrepend(n: Notification, ns: seq<Notification>)
    ensures CountUnread([n] + ns) == CountUnread(ns) + (if n.read then 0 else 1)
  {
    FilterAppend([n], ns, IsUnread);
    assert Filter([n], IsUnread) == if n.read then [] else [n] by {
      assert [n][1..] == [];
    }
  }

  /** Some notification is unread exactly when the unread count is positive. */
  lemma UnreadCountPositive(ns: seq<Notification>)
    ensures CountUnread(ns) > 0 <==> exists i :: 0 <= i < |ns| && !ns[i].read
  {
    var unread := Filter(ns, IsUnread);
    if CountUnread(ns) > 0 {
      assert unread[0] in ns && IsUnread(unread[0]);
      var i :| 0 <= i < |ns| && ns[i] == unread[0];
      assert !ns[i].read;
    }
    if i :| 0 <= i < |ns| && !ns[i].read {
      assert IsUnread(ns[i]);
      assert ns[i] in unread;
    }
  }

  /** After marking every notification read, none is unread. */
  lemma {:induction false} MarkAllReadCount(ns: seq<Notification>)
    ensures CountUnread(MarkAllRead(ns)) == 0
  {
    if ns != [] {
      MarkAllReadCount(ns[1..]);
      CountPrepend(ns[0].(read := true), MarkAllRead(ns[1..]));
    }
  }

  /** Marking an id nobody carries changes nothing. */
  lemma MarkReadAbsent(ns: seq<Notification>, id: int)
    requires forall i :: 0 <= i < |ns| ==> ns[i].id != id
    ensures MarkRead(ns, id) == ns
  {
  }

  lemma UniqueTail(ns: seq<Notification>)
    requires UniqueIds(ns) && ns != []
    ensures UniqueIds(ns[1..])
    ensures forall i :: 0 <= i < |ns[1..]| ==> ns[1..][i].id != ns[0].id
  {
    forall i | 0 <= i < |ns[1..]| ensures ns[1..][i].id != ns[0].id {
      assert ns[1..][i] == ns[i + 1];
    }
  }

  lemma MarkReadCons(ns: seq<Notification>, id: int)
    requires ns != []
    ensures CountUnread(MarkRead(ns, id))
         == CountUnread(MarkRead(ns[1..], id)) + (if ns[0].id == id || ns[0].read then 0 else 1)
  {
    var head := if ns[0].id == id then ns[0].(read := true) else ns[0];
    assert MarkRead(ns, id) == [head] + MarkRead(ns[1..], id);
    CountPrepend(head, MarkRead(ns[1..], id));
  }

  /** With unique ids, marking an unread notification of the list drops the number of
      unread notifications by exactly one. */
  lemma {:induction false} MarkReadCount(ns: seq<Notification>, n: Notification)
    requires UniqueIds(ns) && n in ns && !n.read
    ensures CountUnread(MarkRead(ns, n.id)) == CountUnread(ns) - 1
  {
    var rest := ns[1..];
    assert ns == [ns[0]] + rest;
    CountPrepend(ns[0], rest);
    MarkReadCons(ns, n.id);
    UniqueTail(ns);
    if ns[0] == n {
      MarkReadAbsent(rest, n.id);
    } else {
      var k :| 0 < k < |ns| && ns[k] == n;
      assert rest[k - 1] == n;
      MarkReadCount(rest, n);
    }
  }

  /** Two unread notifications sharing an id: marking one of them read clears both, so a
      counter lowered by one no longer matches the list. */
  lemma DuplicateIdsBreakCount()
    ensures var a := Notification(1, false, "STOCK", "p", "t", "m");
            var ns := [a, a];
            CountUnread(MarkRead(ns, a.id)) != CountUnread(ns) - 1
  {
    var a := Notification(1, false, "STOCK", "p", "t", "m");
    var ns := [a, a];
    CountPrepend(a, [a]);
    CountPrepend(a, []);
    var b := a.(read := true);
    assert MarkRead(ns, 1) == [b, b];
    CountPrepend(b, [b]);
    CountPrepend(b, []);
  }

  /** The bell's state. */
  class NotificationCenter {
    var notifications: seq<Notification>
    var unreadCount: int

    /** The counter equals the number of unread notifications. */
    predicate Consistent()
      reads this
    {
      unreadCount == CountUnread(notifications)
    }

    constructor ()
      ensures notifications == [] && unreadCount == 0
      ensures Consistent()
    {
      notifications := [];
      unreadCount := 0;
    }

    /** `loadNotifications`: only for a logged-in user, and only when the request succeeds. */
    method Load(isLogin: bool, reply: Reply<seq<Notification>>)
      modifies this
      ensures isLogin && reply.Ok? ==> notifications == reply.body && Consistent()
      ensures !(isLogin && reply.Ok?) ==> notifications == old(notifications) && unreadCount == old(unreadCount)
    {
      if isLogin && reply.Ok? {
        notifications := reply.body;
        unreadCount := CountUnread(reply.body);
      }
    }

    /** A pushed notification goes to the front and the counter goes up by one, read or not.
        The counter stays right exactly when the pushed notification is unread. */
    method Receive(n: Notification)
      modifies this
      ensures notifications == [n] + old(notifications)
      ensures unreadCount == old(unreadCount) + 1
      ensures old(Consistent()) ==> (Consistent() <==> !n.read)
    {
      CountPrepend(n, notifications);
      notifications := [n] + notifications;
      unreadCount := unreadCount + 1;
    }

    /** `handleNotificationClick`, given whether marking it read succeeds on the server.
        Returns the route navigated to, if any. */
    method Click(n: Notification, serverOk: bool) returns (route: Option<string>)
      modifies this
      ensures !n.read && serverOk ==>
                unreadCount == old(unreadCount) - 1 && notifications == MarkRead(old(notifications), n.id)
      ensures n.read || !serverOk ==>
                unreadCount == old(unreadCount) && notifications == old(notifications)
      ensures old(Consistent()) && UniqueIds(old(notifications)) && n in old(notifications) ==> Consistent()
      ensures route.Some? <==> n.kind == "STOCK"
      ensures route.Some? ==> route.value == "/products/" + n.productId
    {
      if !n.read && serverOk {
        if UniqueIds(notifications) && n in notifications {
          MarkReadCount(notifications, n);
        }
        unreadCount := unreadCount - 1;
        notifications := MarkRead(notifications, n.id);
      }
      route := if n.kind == "STOCK" then Some("/products/" + n.productId) else None;
    }

    /** `handleMarkAllAsRead`, given whether the server call succeeds. */
    method MarkAllAsRead(serverOk: bool)
      modifies this
      ensures serverOk ==> unreadCount == 0 && notifications == MarkAllRead(old(notifications)) && Consistent()
      ensures serverOk ==> !ShowBadge()
      ensures !serverOk ==> unreadCount == old(unreadCount) && notifications == old(notifications)
    {
      if serverOk {
        MarkAllReadCount(notifications);
        unreadCount := 0;
        notifications := MarkAllRead(notifications);
      }
    }

    /** The red badge and the "Mark all as read" button show while the counter is positive. */
    predicate ShowBadge()
      reads this
    {
      unreadCount > 0
    }
  }

  /** On a consistent bell the badge shows exactly when some notification is unread. */
  lemma BadgeIffUnread(bell: NotificationCenter)
    requires bell.Consistent()
    ensures bell.ShowBadge() <==> exists i :: 0 <= i < |bell.notifications| && !bell.notifications[i].read
  {
    UnreadCountPositive(bell.notifications);
  }
}
