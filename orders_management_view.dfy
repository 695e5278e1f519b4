/**
 * The managers' order board: every submitted order with its representative,
 * the pending/printed/trash lists, marking an order printed, and the board's
 * own "move to trash", which deletes the order outright.
 */
module OrdersManagementView {
  import opened Wrappers
  import opened Tables
  import opened Database

  /** A board row: the order and the user whose id is its `sales_rep_id`, when there is one. */
  datatype BoardEntry = BoardEntry(order: Order, rep: Option<User>)

  /** The first user with this id. */
  function RepOf(users: seq<User>, id: Id): (r: Option<User>)
    ensures r.None? <==> id !in Keys(users, UserKey)
    ensures r.Some? ==> r.value.id == id && r.value == users[FindIndex(users, UserKey, id).value]
  {
    match FindIndex(users, UserKey, id)
    case Some(i) => Some(users[i])
    case None => None
  }

  /** Orders the managers see: everything but drafts. */
  predicate IsSubmitted(o: Order) { o.status != Draft }

  /** The board: the submitted orders in table order, each joined with its representative. */
  function Board(orders: seq<Order>, users: seq<User>): (r: seq<BoardEntry>)
    ensures |r| == |Filter(orders, IsSubmitted)|
    ensures forall i :: 0 <= i < |r| ==>
      r[i].order == Filter(orders, IsSubmitted)[i] && r[i].rep == RepOf(users, r[i].order.salesRepId)
  {
    if |orders| == 0 then []
    else if IsSubmitted(orders[0]) then
      [BoardEntry(orders[0], RepOf(users, orders[0].salesRepId))] + Board(orders[1..], users)
    else Board(orders[1..], users)
  }

  /** Every order on the board is a stored, non-draft order, and every stored non-draft order is on it. */
  lemma BoardShowsSubmitted(orders: seq<Order>, users: seq<User>)
    ensures forall i :: 0 <= i < |Board(orders, users)| ==>
      Board(orders, users)[i].order in orders && Board(orders, users)[i].order.status != Draft
    ensures forall i :: 0 <= i < |orders| && orders[i].status != Draft ==>
      exists j :: 0 <= j < |Board(orders, users)| && Board(orders, users)[j].order == orders[i]
  {
    var b, f := Board(orders, users), Filter(orders, IsSubmitted);
    forall i | 0 <= i < |b| ensures b[i].order in orders && b[i].order.status != Draft {
      assert b[i].order == f[i];
    }
    forall i | 0 <= i < |orders| && orders[i].status != Draft
      ensures exists j :: 0 <= j < |b| && b[j].order == orders[i]
    {
      var j :| 0 <= j < |f| && f[j] == orders[i];
      assert b[j].order == orders[i];
    }
  }

  /** An order that is no longer stored is not on the board. */
  lemma GoneFromBoard(orders: seq<Order>, users: seq<User>, id: Id)
    requires id !in Keys(orders, OrderKey)
    ensures forall i :: 0 <= i < |Board(orders, users)| ==> Board(orders, users)[i].order.id != id
  {
    BoardShowsSubmitted(orders, users);
  }

  /** The board rows whose order has status `s` (the pending, printed and trash lists). */
  function OfStatus(board: seq<BoardEntry>, s: OrderStatus): (r: seq<BoardEntry>)
    ensures forall i :: 0 <= i < |r| ==> r[i] in board && r[i].order.status == s
    ensures forall i :: 0 <= i < |board| && board[i].order.status == s ==> board[i] in r
  {
    Filter(board, (e: BoardEntry) => e.order.status == s)
  }

  /** The badge: how many board rows are pending. */
  function PendingCount(board: seq<BoardEntry>): nat
  {
    |OfStatus(board, Pending)|
  }

  predicate IsPending(o: Order) { o.status == Pending }

  /** The pending badge counts exactly the stored orders that are pending. */
  lemma {:induction false} PendingCountMatchesStore(orders: seq<Order>, users: seq<User>)
    ensures PendingCount(Board(orders, users)) == |Filter(orders, IsPending)|
  {
    if |orders| > 0 {
      PendingCountMatchesStore(orders[1..], users);
      var rest := Board(orders[1..], users);
      if IsSubmitted(orders[0]) {
        var e := BoardEntry(orders[0], RepOf(users, orders[0].salesRepId));
        assert Board(orders, users) == [e] + rest;
        assert ([e] + rest)[1..] == rest;
      }
    }
  }

  /**
   * On a board of submitted orders the three status lists and the completed rows
   * split the rows: the pending, printed and trash lists are disjoint, and the
   * only rows in none of them are the completed ones, which no list shows.
   */
  lemma {:induction false} StatusListsPartition(board: seq<BoardEntry>)
    requires forall i :: 0 <= i < |board| ==> board[i].order.status != Draft
    ensures |OfStatus(board, Pending)| + |OfStatus(board, Printed)| + |OfStatus(board, Deleted)| +
      |OfStatus(board, Completed)| == |board|
  {
    if |board| > 0 {
      StatusListsPartition(board[1..]);
    }
  }

  /** The lists never share a row. */
  lemma StatusListsDisjoint(board: seq<BoardEntry>, s: OrderStatus, t: OrderStatus)
    requires s != t
    ensures forall i, j :: 0 <= i < |OfStatus(board, s)| && 0 <= j < |OfStatus(board, t)| ==>
      OfStatus(board, s)[i] != OfStatus(board, t)[j]
  {
  }

  /** The printed list shows at most its first five rows. */
  function RecentPrinted(board: seq<BoardEntry>): (r: seq<BoardEntry>)
    ensures |r| <= 5
    ensures |r| == if |OfStatus(board, Printed)| < 5 then |OfStatus(board, Printed)| else 5
    ensures r == OfStatus(board, Printed)[..|r|]
  {
    var printed := OfStatus(board, Printed);
    if |printed| < 5 then printed else printed[..5]
  }

  datatype AdminAction = MarkPrinted | MoveToTrash | Restore | DeletePermanently

  /**
   * The buttons under an order's details: a pending order may be marked
   * printed, a printed one moved to the trash, and a trashed one restored or
   * deleted for good; completed orders offer nothing.
   */
  function AdminActions(status: OrderStatus): (r: set<AdminAction>)
    ensures MarkPrinted in r <==> status == Pending
    ensures MoveToTrash in r <==> status == Printed
    ensures Restore in r <==> status == Deleted
    ensures DeletePermanently in r <==> status == Deleted
  {
    match status
    case Pending => {MarkPrinted}
    case Printed => {MoveToTrash}
    case Deleted => {Restore, DeletePermanently}
    case _ => {}
  }

  /** "Your order for customer <name> is printed and ready for pick-up ✅". */
  function PrintedMessage(customerName: string): string
  {
    "طلبيتك للعميل " + customerName + " تمت طباعتها وجاهزة للاستلام ✅"
  }

  /**
   * Marking an order printed, with the handler's undefined status update taken as
   * a status-only `UpdateOrder`: the stored order (if it is still there) becomes
   * `printed`, and its representative gets one unread notice with no order
   * link. The notice is sent whether or not the order was still stored, with
   * the name and representative of the row the manager clicked.
   */
  method MarkAsPrinted(db: LocalDatabase, order: Order, now: int) returns (notice: Notification)
    modifies db`orders, db`notifications
    ensures order.id !in Keys(old(db.orders), OrderKey) ==> db.orders == old(db.orders)
    ensures order.id in Keys(old(db.orders), OrderKey) ==>
      var i := FindIndex(old(db.orders), OrderKey, order.id).value;
      db.orders == old(db.orders)[i := old(db.orders)[i].(status := Printed)]
    ensures notice == Notification(notice.id, order.salesRepId, PrintedMessage(order.customerName),
                                   OrderPrinted, false, None, now)
    ensures notice.id !in Keys(old(db.notifications), NotificationKey)
    ensures db.notifications == old(db.notifications) + [notice]
    ensures old(db.Valid()) ==> db.Valid()
  {
    var updated := db.UpdateOrder(order.id, StatusPatch(Printed));
    if updated.Some? {
      MergeStatusOnly(old(db.orders)[FindIndex(old(db.orders), OrderKey, order.id).value], Printed);
    }
    notice := db.AddNotification(
      Notification("", order.salesRepId, PrintedMessage(order.customerName), OrderPrinted, false, None, 0), now);
  }

  /**
   * The board's "move to trash", after the manager confirms: a hard delete of the
   * order and its items, so the order never reaches the trash list.
   */
  method AdminMoveToTrash(db: LocalDatabase, orderId: Id, confirmed: bool) returns (deleted: bool)
    modifies db`orders, db`items
    ensures deleted <==> confirmed && orderId in Keys(old(db.orders), OrderKey)
    ensures !confirmed ==> db.orders == old(db.orders) && db.items == old(db.items)
    ensures confirmed ==> db.orders == WithoutKey(old(db.orders), OrderKey, orderId)
    ensures confirmed ==> orderId !in Keys(db.orders, OrderKey)
    ensures db.items == if deleted then WithoutKey(old(db.items), ItemOrderRef, orderId) else old(db.items)
    ensures old(db.Valid()) ==> db.Valid()
  {
    deleted := false;
    if confirmed {
      deleted := db.DeleteOrder(orderId);
    }
  }
}
