/**
 * The unread-notification counter behind the bell badge.
 */
module UseNotifications {
  import opened Tables
  import opened Database

  /**
   * The number of unread notifications addressed to `userId`; with no user
   * nothing is loaded, and the model gives 0.
   */
  function UnreadCount(all: seq<Notification>, userId: Id): (r: nat)
    ensures userId == "" ==> r == 0
    ensures r <= |all|
  {
    if userId == "" then 0
    else |Filter(all, (n: Notification) => n.userId == userId && !n.isRead)|
  }

  /** Each unread notification of the user adds one to the count, and nothing else does. */
  lemma {:induction false} UnreadCountAppend(all: seq<Notification>, n: Notification, userId: Id)
    requires userId != ""
    ensures UnreadCount(all + [n], userId) ==
      UnreadCount(all, userId) + (if n.userId == userId && !n.isRead then 1 else 0)
  {
    var p := (n: Notification) => n.userId == userId && !n.isRead;
    FilterAppend(all, [n], p);
  }

  /** Notifications addressed to other users never change the count. */
  lemma OthersDoNotCount(all: seq<Notification>, others: seq<Notification>, userId: Id)
    requires forall i :: 0 <= i < |others| ==> others[i].userId != userId
    ensures UnreadCount(all + others, userId) == UnreadCount(all, userId)
  {
    if userId != "" {
      var p := (n: Notification) => n.userId == userId && !n.isRead;
      FilterAppend(all, others, p);
      FilterNone(others, p);
    }
  }
}
