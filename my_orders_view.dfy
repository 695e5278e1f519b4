/**
 * The sales representative's own orders: newest first, split into an active
 * tab and a trash tab, with the actions each status offers.
 */
module MyOrdersView {
  import opened Wrappers
  import opened Tables
  import opened Database
  import opened CreateOrderView

  function OrderCreated(o: Order): int { o.createdAt }

  predicate IsTrashed(o: Order) { o.status == Deleted }
  predicate IsActive(o: Order) { o.status != Deleted }

  /** A representative's orders, newest first: exactly the orders whose `sales_rep_id` is theirs. */
  function MyOrders(all: seq<Order>, repId: Id): (r: seq<Order>)
    ensures SortedDesc(r, OrderCreated)
    ensures forall i :: 0 <= i < |r| ==> r[i] in all && r[i].salesRepId == repId
    ensures forall i :: 0 <= i < |all| && all[i].salesRepId == repId ==> all[i] in r
    ensures multiset(r) == multiset(Filter(all, (o: Order) => o.salesRepId == repId))
  {
    var mine := Filter(all, (o: Order) => o.salesRepId == repId);
    var r := SortDesc(mine, OrderCreated);
    PermutationMembers(r, mine);
    assert forall i :: 0 <= i < |r| ==> r[i] in mine;
    r
  }

  /** The active tab: every order not in the trash, in list order. */
  function ActiveOrders(orders: seq<Order>): (r: seq<Order>)
    ensures forall i :: 0 <= i < |r| ==> r[i] in orders && r[i].status != Deleted
    ensures forall i :: 0 <= i < |orders| && orders[i].status != Deleted ==> orders[i] in r
  {
    Filter(orders, IsActive)
  }

  /** The trash tab: every order whose status is `deleted`, in list order. */
  function TrashedOrders(orders: seq<Order>): (r: seq<Order>)
    ensures forall i :: 0 <= i < |r| ==> r[i] in orders && r[i].status == Deleted
    ensures forall i :: 0 <= i < |orders| && orders[i].status == Deleted ==> orders[i] in r
  {
    Filter(orders, IsTrashed)
  }

  /** Each order shows in exactly one of the two tabs. */
  lemma TabsPartition(orders: seq<Order>)
    ensures multiset(ActiveOrders(orders)) + multiset(TrashedOrders(orders)) == multiset(orders)
    ensures |ActiveOrders(orders)| + |TrashedOrders(orders)| == |orders|
  {
    FilterPartition(orders, IsActive, IsTrashed);
    assert |multiset(ActiveOrders(orders)) + multiset(TrashedOrders(orders))| == |multiset(orders)|;
  }

  /** The items shown in an order's details: those whose `order_id` is the order's. */
  function OrderDetails(items: seq<OrderItem>, orderId: Id): (r: seq<OrderItem>)
    ensures forall i :: 0 <= i < |r| ==> r[i] in items && r[i].orderId == orderId
    ensures forall i :: 0 <= i < |items| && items[i].orderId == orderId ==> items[i] in r
  {
    Filter(items, (i: OrderItem) => i.orderId == orderId)
  }

  datatype RepAction = SendToManager | MoveToTrash | Restore | DeletePermanently

  /**
   * The buttons under an order's details: a draft may be sent, a printed order
   * moved to the trash, and a trashed one restored or deleted for good; pending
   * and completed orders offer nothing.
   */
  function RepActions(status: OrderStatus): (r: set<RepAction>)
    ensures SendToManager in r <==> status == Draft
    ensures MoveToTrash in r <==> status == Printed
    ensures Restore in r <==> status == Deleted
    ensures DeletePermanently in r <==> status == Deleted
  {
    match status
    case Draft => {SendToManager}
    case Printed => {MoveToTrash}
    case Deleted => {Restore, DeletePermanently}
    case _ => {}
  }

  /** "New order from <sender> for customer <name>", the customer part always present. */
  function DraftSentMessage(sender: User, customerName: string): string
  {
    "طلبية جديدة من " + (if sender.fullName != "" then sender.fullName else sender.username) +
    " للعميل " + customerName
  }

  /**
   * Sending a saved draft: the order becomes `pending` (its other fields stay)
   * and every manager gets an unread notice about it. An unknown id changes
   * nothing. The status it had before is not checked.
   */
  method SendDraftOrder(db: LocalDatabase, sender: User, orderId: Id, now: int) returns (sent: bool)
    modifies db`orders, db`notifications
    ensures sent <==> orderId in Keys(old(db.orders), OrderKey)
    ensures !sent ==> db.orders == old(db.orders) && db.notifications == old(db.notifications)
    ensures sent ==> var i := FindIndex(old(db.orders), OrderKey, orderId).value;
      var o := old(db.orders)[i];
      db.orders == old(db.orders)[i := o.(status := Pending)] &&
      NoticesAdded(old(db.notifications), db.notifications, Admins(db.users),
                   DraftSentMessage(sender, o.customerName), o.id, now)
    ensures old(db.Valid()) ==> db.Valid()
  {
    var updated := db.UpdateOrder(orderId, StatusPatch(Pending));
    if updated.None? {
      return false;
    }
    ghost var i := FindIndex(old(db.orders), OrderKey, orderId).value;
    MergeStatusOnly(old(db.orders)[i], Pending);
    NotifyAdmins(db, DraftSentMessage(sender, updated.value.customerName), updated.value.id, now);
    sent := true;
  }

  /** Moving to the trash, after the user confirms: the order's status becomes `deleted`. */
  method MoveToTrashConfirmed(db: LocalDatabase, orderId: Id, confirmed: bool) returns (moved: bool)
    modifies db`orders
    ensures moved <==> confirmed && orderId in Keys(old(db.orders), OrderKey)
    ensures !moved ==> db.orders == old(db.orders)
    ensures moved ==> var i := FindIndex(old(db.orders), OrderKey, orderId).value;
      db.orders == old(db.orders)[i := old(db.orders)[i].(status := Deleted)]
    ensures old(db.Valid()) ==> db.Valid()
  {
    moved := false;
    if confirmed {
      moved := db.MoveOrderToTrash(orderId);
    }
  }

  /** Deleting for good, after the user confirms: the order and its items leave the store. */
  method PermanentDeleteConfirmed(db: LocalDatabase, orderId: Id, confirmed: bool) returns (deleted: bool)
    modifies db`orders, db`items
    ensures deleted <==> confirmed && orderId in Keys(old(db.orders), OrderKey)
    ensures !confirmed ==> db.orders == old(db.orders) && db.items == old(db.items)
    ensures confirmed ==> db.orders == WithoutKey(old(db.orders), OrderKey, orderId)
    ensures db.items == if deleted then WithoutKey(old(db.items), ItemOrderRef, orderId) else old(db.items)
    ensures old(db.Valid()) ==> db.Valid()
  {
    deleted := false;
    if confirmed {
      deleted := db.PermanentDeleteOrder(orderId);
    }
  }

  /** Restoring from the trash, without confirmation: the order's status becomes `pending`. */
  method RestoreFromTrash(db: LocalDatabase, orderId: Id) returns (restored: bool)
    modifies db`orders
    ensures restored <==> orderId in Keys(old(db.orders), OrderKey)
    ensures !restored ==> db.orders == old(db.orders)
    ensures restored ==> var i := FindIndex(old(db.orders), OrderKey, orderId).value;
      db.orders == old(db.orders)[i := old(db.orders)[i].(status := Pending)]
    ensures old(db.Valid()) ==> db.Valid()
  {
    restored := db.RestoreOrder(orderId);
  }

  /** A trashed order that is restored leaves the trash tab and shows as pending. */
  lemma RestoreLeavesTrash(orders: seq<Order>, i: nat)
    requires i < |orders| && orders[i].status == Deleted
    ensures var after := orders[i := orders[i].(status := Pending)];
      orders[i].(status := Pending) in ActiveOrders(after) &&
      |TrashedOrders(after)| + 1 == |TrashedOrders(orders)|
  {
    var after := orders[i := orders[i].(status := Pending)];
    var a, b := orders[..i], orders[i + 1..];
    assert orders == a + ([orders[i]] + b);
    assert after == a + ([after[i]] + b);
    FilterAppend(a, [orders[i]] + b, IsTrashed);
    FilterAppend([orders[i]], b, IsTrashed);
    FilterAppend(a, [after[i]] + b, IsTrashed);
    FilterAppend([after[i]], b, IsTrashed);
    assert Filter([orders[i]], IsTrashed) == [orders[i]];
    assert Filter([after[i]], IsTrashed) == [];
  }
}
