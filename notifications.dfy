/**
 * The notification bell's state: the latest notifications of the user with an
 * unread counter, updated locally before the matching write to the
 * notifications table, and never rolled back.
 */
module Notifications {
  import opened Common

  datatype Kind = Info | Warning | Success | Alert

  datatype Notification = Notification(id: string, title: string, message: string, kind: Kind, isRead: bool, link: Option<string>, createdAt: string)

  /** A stored row: the owner's id and the notification. */
  datatype Row = Row(userId: string, note: Notification)

  /** The number of unread notifications of a list. */
  function CountUnread(ns: seq<Notification>): (n: nat)
    ensures n <= |ns|
  {
    if ns == [] then 0 else (if ns[0].isRead then 0 else 1) + CountUnread(ns[1..])
  }

  lemma {:induction false} CountUnreadAppend(a: seq<Notification>, b: seq<Notification>)
    ensures CountUnread(a + b) == CountUnread(a) + CountUnread(b)
  {
    if a == [] {
      assert a + b == b;
    } else {
      assert (a + b)[1..] == a[1..] + b;
      CountUnreadAppend(a[1..], b);
    }
  }

  /** The local update of `markAsRead`: the notifications with that id become read. */
  function MarkRead(ns: seq<Notification>, id: string): (r: seq<Notification>)
    ensures |r| == |ns|
    ensures forall k :: 0 <= k < |ns| ==> r[k] == if ns[k].id == id then ns[k].(isRead := true) else ns[k]
  {
    seq(|ns|, k requires 0 <= k < |ns| => if ns[k].id == id then ns[k].(isRead := true) else ns[k])
  }

  /** The local update of `markAllAsRead`. */
  function MarkAll(ns: seq<Notification>): (r: seq<Notification>)
    ensures |r| == |ns|
    ensures forall k :: 0 <= k < |ns| ==> r[k] == ns[k].(isRead := true)
  {
    seq(|ns|, k requires 0 <= k < |ns| => ns[k].(isRead := true))
  }

  function IsUnread(): Notification -> bool {
    (n: Notification) => !n.isRead
  }

  /** The local update of `clearRead`: the unread notifications, in their order. */
  function ClearRead(ns: seq<Notification>): seq<Notification> {
    Filter(ns, IsUnread())
  }

  lemma {:induction false} CountUnreadAllRead(ns: seq<Notification>)
    requires forall k :: 0 <= k < |ns| ==> ns[k].isRead
    ensures CountUnread(ns) == 0
  {
    if ns != [] {
      CountUnreadAllRead(ns[1..]);
    }
  }

  lemma {:induction false} CountUnreadNoneRead(ns: seq<Notification>)
    requires forall k :: 0 <= k < |ns| ==> !ns[k].isRead
    ensures CountUnread(ns) == |ns|
  {
    if ns != [] {
      CountUnreadNoneRead(ns[1..]);
    }
  }

  /** After marking everything read nothing is unread. */
  lemma MarkAllLeavesNoUnread(ns: seq<Notification>)
    ensures CountUnread(MarkAll(ns)) == 0
  {
    CountUnreadAllRead(MarkAll(ns));
  }

  /** Clearing keeps exactly the unread notifications, in order, so the unread number is unchanged. */
  lemma ClearReadKeepsUnread(ns: seq<Notification>)
    ensures forall n :: n in ClearRead(ns) <==> n in ns && !n.isRead
    ensures CountUnread(ClearRead(ns)) == CountUnread(ns) == |ClearRead(ns)|
  {
    forall n
      ensures n in ClearRead(ns) <==> n in ns && !n.isRead
    {
      FilterIff(ns, IsUnread(), n);
    }
    ClearCount(ns);
  }

  lemma {:induction false} ClearCount(ns: seq<Notification>)
    ensures CountUnread(ClearRead(ns)) == CountUnread(ns) == |ClearRead(ns)|
  {
    if ns != [] {
      ClearCount(ns[1..]);
      assert ClearRead(ns) == (if !ns[0].isRead then [ns[0]] else []) + ClearRead(ns[1..]);
      CountUnreadAppend(if !ns[0].isRead then [ns[0]] else [], ClearRead(ns[1..]));
    }
  }

  /** The id occurs exactly once in the list. */
  ghost predicate OnlyAt(ns: seq<Notification>, id: string, i: int) {
    0 <= i < |ns| && ns[i].id == id && forall k :: 0 <= k < |ns| && k != i ==> ns[k].id != id
  }

  /** Marking a notification that occurs once and is unread lowers the unread number by exactly one. */
  lemma {:induction false} MarkUnreadOnce(ns: seq<Notification>, id: string, i: int)
    requires OnlyAt(ns, id, i) && !ns[i].isRead
    ensures CountUnread(MarkRead(ns, id)) == CountUnread(ns) - 1
  {
    var m := MarkRead(ns, id);
    assert ns == ns[..i] + [ns[i]] + ns[i + 1..];
    assert m == m[..i] + [m[i]] + m[i + 1..];
    assert m[..i] == ns[..i];
    assert m[i + 1..] == ns[i + 1..];
    CountUnreadAppend(ns[..i] + [ns[i]], ns[i + 1..]);
    CountUnreadAppend(ns[..i], [ns[i]]);
    CountUnreadAppend(m[..i] + [m[i]], m[i + 1..]);
    CountUnreadAppend(m[..i], [m[i]]);
  }

  /** Marking a notification that is already read changes no notification. */
  lemma MarkReadOfReadUnchanged(ns: seq<Notification>, id: string)
    requires forall k :: 0 <= k < |ns| && ns[k].id == id ==> ns[k].isRead
    ensures MarkRead(ns, id) == ns
  {
  }

  /**
   * The counter drops even for a notification that is already read, so it then
   * falls below the number of unread notifications left.
   */
  lemma MarkReadAgainDrifts(ns: seq<Notification>, id: string)
    requires forall k :: 0 <= k < |ns| && ns[k].id == id ==> ns[k].isRead
    requires CountUnread(ns) > 0
    ensures CountUnread(MarkRead(ns, id)) == CountUnread(ns) > CountUnread(ns) - 1
  {
    MarkReadOfReadUnchanged(ns, id);
  }

  /** The local notification list of the hook. */
  class NotificationList {
    var notifications: seq<Notification>
    var unreadCount: int
    var loading: bool

    /** The counter agrees with the list. */
    predicate Consistent()
      reads this
    {
      unreadCount == CountUnread(notifications)
    }

    constructor ()
      ensures notifications == [] && unreadCount == 0 && loading
      ensures Consistent()
    {
      notifications := [];
      unreadCount := 0;
      loading := true;
    }

    /**
     * `fetchNotifications`, given the query's answer (`None` for an error): the
     * rows and their unread number replace the state, an error changes neither.
     */
    method Fetch(user: Option<string>, result: Option<seq<Notification>>)
      modifies this
      ensures user.None? ==> notifications == old(notifications) && unreadCount == old(unreadCount) && loading == old(loading)
      ensures user.Some? && result.Some? ==> notifications == result.value && Consistent() && !loading
      ensures user.Some? && result.None? ==> notifications == old(notifications) && unreadCount == old(unreadCount) && !loading
    {
      if user.None? {
        return;
      }
      if result.Some? {
        notifications := result.value;
        unreadCount := CountUnread(result.value);
      }
      loading := false;
    }

    /** `markAsRead`, locally: that id becomes read, and the counter drops by one, never below 0. */
    method MarkAsRead(id: string)
      modifies this`notifications, this`unreadCount
      ensures notifications == MarkRead(old(notifications), id)
      ensures unreadCount == if old(unreadCount) - 1 < 0 then 0 else old(unreadCount) - 1
    {
      notifications := MarkRead(notifications, id);
      unreadCount := if unreadCount - 1 < 0 then 0 else unreadCount - 1;
    }

    /** `markAllAsRead`, locally; nothing happens while the counter is 0. Returns whether the write is issued. */
    method MarkAllAsRead() returns (write: bool)
      modifies this`notifications, this`unreadCount
      ensures write <==> old(unreadCount) != 0
      ensures !write ==> notifications == old(notifications) && unreadCount == 0
      ensures write ==> notifications == MarkAll(old(notifications)) && unreadCount == 0 && Consistent()
    {
      if unreadCount == 0 {
        return false;
      }
      notifications := MarkAll(notifications);
      unreadCount := 0;
      MarkAllLeavesNoUnread(old(notifications));
      write := true;
    }

    /** `clearRead`, locally: the read ones go, the counter stays. */
    method ClearReadItems()
      modifies this`notifications
      ensures notifications == ClearRead(old(notifications))
      ensures old(Consistent()) ==> Consistent()
    {
      ClearReadKeepsUnread(notifications);
      notifications := ClearRead(notifications);
    }

    /** The realtime insert handler: the new notification goes first and the counter grows by one. */
    method Inserted(n: Notification)
      modifies this`notifications, this`unreadCount
      ensures notifications == [n] + old(notifications)
      ensures unreadCount == old(unreadCount) + 1
      ensures old(Consistent()) && !n.isRead ==> Consistent()
    {
      CountUnreadAppend([n], notifications);
      notifications := [n] + notifications;
      unreadCount := unreadCount + 1;
    }
  }

  /** The notifications table the hook writes to; the result of its writes is never read back. */
  class NotificationTable {
    var rows: seq<Row>

    constructor (rows: seq<Row>)
      ensures this.rows == rows
    {
      this.rows := rows;
    }

    /** `update({ is_read: true }).eq("id", id)`. */
    method MarkRead(id: string, fail: bool)
      modifies this
      ensures |rows| == |old(rows)|
      ensures forall k :: 0 <= k < |rows| ==>
        rows[k] == if !fail && old(rows)[k].note.id == id then old(rows)[k].(note := old(rows)[k].note.(isRead := true)) else old(rows)[k]
    {
      if !fail {
        var before := rows;
        rows := seq(|before|, k requires 0 <= k < |before| =>
          if before[k].note.id == id then before[k].(note := before[k].note.(isRead := true)) else before[k]);
      }
    }

    /** `update({ is_read: true }).eq("user_id", user).eq("is_read", false)`. */
    method MarkAllRead(user: Option<string>, fail: bool)
      modifies this
      ensures |rows| == |old(rows)|
      ensures forall k :: 0 <= k < |rows| ==>
        rows[k] == if !fail && user == Some(old(rows)[k].userId) then old(rows)[k].(note := old(rows)[k].note.(isRead := true)) else old(rows)[k]
    {
      if !fail {
        var before := rows;
        rows := seq(|before|, k requires 0 <= k < |before| =>
          if user == Some(before[k].userId) then before[k].(note := before[k].note.(isRead := true)) else before[k]);
      }
    }

    /** `delete().eq("user_id", user).eq("is_read", true)`. */
    method DeleteRead(user: Option<string>, fail: bool)
      modifies this
      ensures rows == if fail then old(rows) else Filter(old(rows), (r: Row) => !(user == Some(r.userId) && r.note.isRead))
    {
      if !fail {
        rows := Filter(rows, (r: Row) => !(user == Some(r.userId) && r.note.isRead));
      }
    }
  }
}
