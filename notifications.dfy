/** The notification list of NotificationsPage.tsx: marking one notification or
    all of them read, and the unread count that decides which controls show. */
module Notifications {
  import opened Types
  import opened Seqs

  predicate Unread(n: Notification) {
    !n.read
  }

  /** `markAsRead(id)`: every notification with the id is read afterwards. */
  function MarkAsRead(ns: seq<Notification>, id: int): (r: seq<Notification>)
    ensures |r| == |ns|
    ensures forall i :: 0 <= i < |ns| ==> r[i] == if ns[i].id == id then ns[i].(read := true) else ns[i]
  {
    if ns == [] then []
    else [if ns[0].id == id then ns[0].(read := true) else ns[0]] + MarkAsRead(ns[1..], id)
  }

  /** `markAllAsRead`. */
  function MarkAllAsRead(ns: seq<Notification>): (r: seq<Notification>)
    ensures |r| == |ns|
    ensures forall i :: 0 <= i < |ns| ==> r[i] == ns[i].(read := true)
  {
    if ns == [] then [] else [ns[0].(read := true)] + MarkAllAsRead(ns[1..])
  }

  /** `unreadCount`. */
  function UnreadCount(ns: seq<Notification>): nat {
    |Filter(ns, Unread)|
  }

  /** Marking a notification read twice is marking it once. */
  lemma MarkAsReadIdempotent(ns: seq<Notification>, id: int)
    ensures MarkAsRead(MarkAsRead(ns, id), id) == MarkAsRead(ns, id)
  {
  }

  /** After "mark all" nothing is unread, so the count is zero. */
  lemma MarkAllLeavesNoneUnread(ns: seq<Notification>)
    ensures UnreadCount(MarkAllAsRead(ns)) == 0
  {
    var r := MarkAllAsRead(ns);
    assert forall x :: x in r ==> x.read;
    assert forall x :: x !in Filter(r, Unread);
  }

  /** Marking one notification read never raises the count, and lowers it when a
      notification with that id was unread. */
  lemma {:induction false} MarkAsReadLowersCount(ns: seq<Notification>, id: int)
    ensures UnreadCount(MarkAsRead(ns, id)) <= UnreadCount(ns)
    ensures (exists i :: 0 <= i < |ns| && ns[i].id == id && !ns[i].read) ==> UnreadCount(MarkAsRead(ns, id)) < UnreadCount(ns)
  {
    if ns != [] {
      MarkAsReadLowersCount(ns[1..], id);
      var r := MarkAsRead(ns, id);
      assert r[1..] == MarkAsRead(ns[1..], id);
      if exists i :: 0 <= i < |ns| && ns[i].id == id && !ns[i].read {
        var i :| 0 <= i < |ns| && ns[i].id == id && !ns[i].read;
        if i > 0 {
          assert ns[1..][i - 1].id == id && !ns[1..][i - 1].read;
        }
      }
    }
  }

  /** "Mark all" shows exactly when some notification is unread. */
  predicate ShowsMarkAll(ns: seq<Notification>) {
    UnreadCount(ns) > 0
  }

  lemma ShowsMarkAllIff(ns: seq<Notification>)
    ensures ShowsMarkAll(ns) <==> exists i :: 0 <= i < |ns| && !ns[i].read
  {
    var r := Filter(ns, Unread);
    if r != [] {
      assert r[0] in r;
    }
    if exists i :: 0 <= i < |ns| && !ns[i].read {
      var i :| 0 <= i < |ns| && !ns[i].read;
      assert ns[i] in r;
    }
  }
}
