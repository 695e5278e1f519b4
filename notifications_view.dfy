/**
 * A user's notification list: newest first, with mark-as-read, mark-all-as-read,
 * delete, and the unread badge.
 */
module NotificationsView {
  import opened Wrappers
  import opened Tables
  import opened Database
  import opened UseNotifications

  function NoticeCreated(n: Notification): int { n.createdAt }

  /** A user's notifications, newest first: exactly those whose `user_id` is theirs. */
  function MyNotifications(all: seq<Notification>, userId: Id): (r: seq<Notification>)
    ensures SortedDesc(r, NoticeCreated)
    ensures forall i :: 0 <= i < |r| ==> r[i] in all && r[i].userId == userId
    ensures forall i :: 0 <= i < |all| && all[i].userId == userId ==> all[i] in r
    ensures multiset(r) == multiset(Filter(all, (n: Notification) => n.userId == userId))
  {
    var mine := Filter(all, (n: Notification) => n.userId == userId);
    var r := SortDesc(mine, NoticeCreated);
    PermutationMembers(r, mine);
    assert forall i :: 0 <= i < |r| ==> r[i] in mine;
    r
  }

  predicate IsUnread(n: Notification) { !n.isRead }

  /** The listed notifications not yet read. */
  function Unread(listed: seq<Notification>): (r: seq<Notification>)
    ensures forall i :: 0 <= i < |r| ==> r[i] in listed && !r[i].isRead
    ensures forall i :: 0 <= i < |listed| && !listed[i].isRead ==> listed[i] in r
  {
    Filter(listed, IsUnread)
  }

  /** The header's "N new notifications". */
  function UnreadBadge(listed: seq<Notification>): nat
  {
    |Unread(listed)|
  }

  /** The list's badge and the bell's counter agree for every signed-in user. */
  lemma BadgeMatchesCounter(all: seq<Notification>, userId: Id)
    requires userId != ""
    ensures UnreadBadge(MyNotifications(all, userId)) == UnreadCount(all, userId)
  {
    var mine := Filter(all, (n: Notification) => n.userId == userId);
    var listed := MyNotifications(all, userId);
    FilterPermutation(listed, mine, IsUnread);
    assert |Filter(listed, IsUnread)| == |Filter(mine, IsUnread)| by {
      assert |multiset(Filter(listed, IsUnread))| == |multiset(Filter(mine, IsUnread))|;
    }
    FilterConj(all, (n: Notification) => n.userId == userId, IsUnread,
               (n: Notification) => n.userId == userId && !n.isRead);
  }

  /** Marking one notification read: the store's `markNotificationAsRead`. */
  method MarkAsRead(db: LocalDatabase, id: Id) returns (r: Option<Notification>)
    modifies db`notifications
    ensures r.None? <==> id !in Keys(old(db.notifications), NotificationKey)
    ensures r.None? ==> db.notifications == old(db.notifications)
    ensures r.Some? ==> var i := FindIndex(old(db.notifications), NotificationKey, id).value;
      db.notifications == old(db.notifications)[i := old(db.notifications)[i].(isRead := true)]
    ensures old(db.Valid()) ==> db.Valid()
  {
    r := db.MarkNotificationAsRead(id);
  }

  /**
   * Marking all read: each listed unread notification is marked in turn. Every
   * notification of the user ends up read and nothing else about it changes;
   * other users' notifications are untouched.
   */
  method MarkAllAsRead(db: LocalDatabase, userId: Id)
    requires db.Valid()
    modifies db`notifications
    ensures |db.notifications| == |old(db.notifications)|
    ensures forall i :: 0 <= i < |db.notifications| && old(db.notifications)[i].userId == userId ==>
      db.notifications[i] == old(db.notifications)[i].(isRead := true)
    ensures forall i :: 0 <= i < |db.notifications| && old(db.notifications)[i].userId != userId ==>
      db.notifications[i] == old(db.notifications)[i]
    ensures db.Valid()
  {
    var unread := Unread(MyNotifications(db.notifications, userId));
    MarkEach(db, db.notifications, userId, unread);
    AllOfUserMarked(old(db.notifications), db.notifications, userId, unread);
  }

  /** The loop of marking all read: marks each of `unread` in turn. */
  method MarkEach(db: LocalDatabase, ghost before: seq<Notification>, userId: Id, unread: seq<Notification>)
    requires db.Valid() && db.notifications == before
    requires forall j :: 0 <= j < |unread| ==> unread[j] in before && unread[j].userId == userId
    modifies db`notifications
    ensures db.Valid() && |db.notifications| == |before|
    ensures forall i :: 0 <= i < |before| ==>
      db.notifications[i] == before[i] || db.notifications[i] == before[i].(isRead := true)
    ensures forall i :: 0 <= i < |before| && before[i].userId != userId ==> db.notifications[i] == before[i]
    ensures forall j, i :: 0 <= j < |unread| && 0 <= i < |before| && before[i] == unread[j] ==>
      db.notifications[i].isRead
  {
    for k := 0 to |unread|
      invariant db.Valid()
      invariant |db.notifications| == |before|
      invariant forall i :: 0 <= i < |before| ==>
        db.notifications[i] == before[i] || db.notifications[i] == before[i].(isRead := true)
      invariant forall i :: 0 <= i < |before| && before[i].userId != userId ==> db.notifications[i] == before[i]
      invariant forall j, i :: 0 <= j < k && 0 <= i < |before| && before[i] == unread[j] ==>
        db.notifications[i].isRead
    {
      MarkOne(db, before, userId, unread[k]);
    }
  }

  /** After marking each listed unread notification, every notification of the user is read. */
  lemma AllOfUserMarked(before: seq<Notification>, after: seq<Notification>, userId: Id, unread: seq<Notification>)
    requires unread == Unread(MyNotifications(before, userId))
    requires |after| == |before|
    requires forall i :: 0 <= i < |before| ==> after[i] == before[i] || after[i] == before[i].(isRead := true)
    requires forall j, i :: 0 <= j < |unread| && 0 <= i < |before| && before[i] == unread[j] ==> after[i].isRead
    ensures forall i :: 0 <= i < |before| && before[i].userId == userId ==> after[i] == before[i].(isRead := true)
  {
    forall i | 0 <= i < |before| && before[i].userId == userId
      ensures after[i] == before[i].(isRead := true)
    {
      if !before[i].isRead {
        var listed := MyNotifications(before, userId);
        var m :| 0 <= m < |listed| && listed[m] == before[i];
        var j :| 0 <= j < |unread| && unread[j] == before[i];
      }
    }
  }

  /** One step of marking all read: marks `n`, a notification of the user still stored at its place. */
  method MarkOne(db: LocalDatabase, ghost before: seq<Notification>, userId: Id, n: Notification)
    requires db.Valid() && |db.notifications| == |before|
    requires forall i :: 0 <= i < |before| ==>
      db.notifications[i] == before[i] || db.notifications[i] == before[i].(isRead := true)
    requires n in before && n.userId == userId
    modifies db`notifications
    ensures db.Valid() && |db.notifications| == |before|
    ensures forall i :: 0 <= i < |before| ==>
      db.notifications[i] == old(db.notifications)[i] || db.notifications[i] == old(db.notifications)[i].(isRead := true)
    ensures forall i :: 0 <= i < |before| && before[i].id != n.id ==> db.notifications[i] == old(db.notifications)[i]
    ensures forall i :: 0 <= i < |before| && before[i] == n ==> db.notifications[i].isRead
  {
    ghost var p :| 0 <= p < |before| && before[p] == n;
    assert db.notifications[p].id == n.id;
    var r := db.MarkNotificationAsRead(n.id);
    ghost var m := FindIndex(old(db.notifications), NotificationKey, n.id).value;
    assert m == p;
  }

  /**
   * Deleting a notification, after the user confirms: the whole table is written
   * back without it, every other notification (other users' included) kept in order.
   */
  method DeleteNotification(db: LocalDatabase, id: Id, confirmed: bool)
    modifies db`notifications
    ensures !confirmed ==> db.notifications == old(db.notifications)
    ensures confirmed ==> db.notifications == WithoutKey(old(db.notifications), NotificationKey, id)
    ensures confirmed && old(db.Valid()) && id in Keys(old(db.notifications), NotificationKey) ==>
      var i := FindIndex(old(db.notifications), NotificationKey, id).value;
      db.notifications == old(db.notifications)[..i] + old(db.notifications)[i + 1..]
    ensures old(db.Valid()) ==> db.Valid()
  {
    if confirmed {
      var filtered := WithoutKey(db.notifications, NotificationKey, id);
      if db.Valid() {
        WithoutKeyDistinct(db.notifications, NotificationKey, NotificationKey, id);
        if id in Keys(db.notifications, NotificationKey) {
          WithoutUniqueKey(db.notifications, NotificationKey, FindIndex(db.notifications, NotificationKey, id).value);
        }
      }
      db.SaveNotifications(filtered);
    }
  }
}
