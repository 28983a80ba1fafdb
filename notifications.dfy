/**
 * The notification list of NotificationContext.js: realtime inserts and
 * updates, the unread count, the ids `markAllAsRead` sends, and what a session
 * change does to the list.
 *
 * The database query and the realtime channel are parameters: what the fetch
 * returned, and the rows the channel delivers.
 */
module Notifications {
  import opened Wrappers
  import opened Seqs

  datatype Notification = Notification(id: string, read: bool, message: string)

  /** `handleNewNotification`: the new row goes first. */
  function OnInsert(prev: seq<Notification>, n: Notification): (r: seq<Notification>)
    ensures |r| == |prev| + 1 && r[0] == n && r[1..] == prev
  {
    [n] + prev
  }

  /** `handleUpdateNotification`: every entry with the row's id becomes the row. */
  function OnUpdate(prev: seq<Notification>, n: Notification): (r: seq<Notification>)
    ensures |r| == |prev|
    ensures forall i :: 0 <= i < |prev| ==> r[i] == if prev[i].id == n.id then n else prev[i]
  {
    MapSeq(prev, (m: Notification) => if m.id == n.id then n else m)
  }

  /** An update for an id that is not in the list changes nothing. */
  lemma UpdateOfAbsentId(prev: seq<Notification>, n: Notification)
    requires forall i :: 0 <= i < |prev| ==> prev[i].id != n.id
    ensures OnUpdate(prev, n) == prev
  {
  }

  predicate Unread(n: Notification) { !n.read }

  /** `notifications.filter(n => !n.read)`. */
  function UnreadOnes(ns: seq<Notification>): (r: seq<Notification>)
    ensures forall n :: n in r <==> n in ns && !n.read
  {
    Keep(ns, Unread)
  }

  /** `unreadCount`. */
  function UnreadCount(ns: seq<Notification>): (r: nat)
    ensures r <= |ns|
  {
    |UnreadOnes(ns)|
  }

  /** The count is zero exactly when every notification is read. */
  lemma UnreadCountZero(ns: seq<Notification>)
    ensures UnreadCount(ns) == 0 <==> forall i :: 0 <= i < |ns| ==> ns[i].read
  {
    if UnreadCount(ns) == 0 {
      forall i | 0 <= i < |ns|
        ensures ns[i].read
      {
        assert ns[i] in ns;
      }
    } else {
      var r := UnreadOnes(ns);
      assert r[0] in r;
    }
  }

  /** A new row adds one to the count when it is unread. */
  lemma InsertCount(prev: seq<Notification>, n: Notification)
    ensures UnreadCount(OnInsert(prev, n)) == UnreadCount(prev) + (if n.read then 0 else 1)
  {
    KeepAppend([n], prev, Unread);
    assert Keep([n], Unread) == (if n.read then [] else [n]) by {
      assert [n][1..] == [];
    }
  }

  /** `markAllAsRead`: the ids given to the update, or None when it sends none. */
  function MarkAllAsRead(ns: seq<Notification>): (r: Option<seq<string>>)
    ensures r.None? <==> UnreadCount(ns) == 0
    ensures r.Some? ==> |r.value| == UnreadCount(ns)
  {
    var unreadIds := MapSeq(UnreadOnes(ns), (n: Notification) => n.id);
    if |unreadIds| > 0 then Some(unreadIds) else None
  }

  /** The ids sent are exactly the ids of the unread notifications. */
  lemma MarkAllAsReadTargets(ns: seq<Notification>, id: string)
    requires MarkAllAsRead(ns).Some?
    ensures id in MarkAllAsRead(ns).value <==> exists i :: 0 <= i < |ns| && ns[i].id == id && !ns[i].read
  {
    var r := UnreadOnes(ns);
    var ids := MarkAllAsRead(ns).value;
    if id in ids {
      var j :| 0 <= j < |ids| && ids[j] == id;
      assert r[j] in r;
      var i :| 0 <= i < |ns| && ns[i] == r[j];
    }
    if exists i :: 0 <= i < |ns| && ns[i].id == id && !ns[i].read {
      var i :| 0 <= i < |ns| && ns[i].id == id && !ns[i].read;
      assert ns[i] in r;
      var j :| 0 <= j < |r| && r[j] == ns[i];
      assert ids[j] == id;
    }
  }

  datatype NotificationState = NotificationState(notifications: seq<Notification>, loading: bool)

  /** What the fetch for a signed-in user returns: the rows (None for a null
      `data`), or an error. */
  datatype Fetched = Rows(data: Option<seq<Notification>>) | FetchError(message: string)

  /** `session?.user?.id` is truthy: there is an id and it is not empty. */
  predicate SignedIn(userId: Option<string>)
  {
    userId.Some? && userId.value != ""
  }

  /** The session effect: with no user id, or an empty one, the list is cleared
      and loading ends; with one, the fetched rows replace the list (none when
      `data` is null), while a failed fetch keeps the list as it was. */
  function OnSession(s: NotificationState, userId: Option<string>, fetched: Fetched): (r: NotificationState)
    ensures !r.loading
    ensures !SignedIn(userId) ==> r.notifications == []
    ensures SignedIn(userId) && fetched.FetchError? ==> r.notifications == s.notifications
    ensures SignedIn(userId) && fetched.Rows? ==>
              r.notifications == (if fetched.data.Some? then fetched.data.value else [])
  {
    if !SignedIn(userId) then NotificationState([], false)
    else
      match fetched
      case FetchError(_) => NotificationState(s.notifications, false)
      case Rows(data) => NotificationState(if data.Some? then data.value else [], false)
  }
}
