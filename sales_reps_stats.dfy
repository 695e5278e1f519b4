/**
 * The managers' statistics page: per-representative order counts and sales,
 * ranked by number of orders, with overall totals.
 */
module SalesRepsStats {
  import opened Tables
  import opened Database

  /** One representative's line of the statistics; "completed" counts printed orders. */
  datatype RepStat = RepStat(
    id: Id, name: string, username: string,
    totalOrders: nat, pendingOrders: nat, completedOrders: nat, totalSales: int)

  datatype Stats = Stats(repStats: seq<RepStat>, totalOrders: int, totalSales: int, activeReps: nat, totalReps: nat)

  predicate IsRep(u: User) { u.role == SalesRep }

  /** The representatives: exactly the users with the sales-rep role, in table order. */
  function Reps(users: seq<User>): (r: seq<User>)
    ensures forall i :: 0 <= i < |r| ==> r[i] in users && r[i].role == SalesRep
    ensures forall i :: 0 <= i < |users| && users[i].role == SalesRep ==> users[i] in r
  {
    Filter(users, IsRep)
  }

  /** A representative's counted orders: theirs and not in the trash, so drafts count too. */
  function CountedOrders(orders: seq<Order>, repId: Id): (r: seq<Order>)
    ensures forall i :: 0 <= i < |r| ==> r[i] in orders && r[i].salesRepId == repId && r[i].status != Deleted
    ensures forall i :: 0 <= i < |orders| && orders[i].salesRepId == repId && orders[i].status != Deleted ==>
      orders[i] in r
  {
    Filter(orders, CountedForRep(repId))
  }

  /** The test of `CountedOrders`: the order is the representative's and not in the trash. */
  function CountedForRep(repId: Id): Order -> bool
  {
    (o: Order) => o.salesRepId == repId && o.status != Deleted
  }

  function OrderTotal(o: Order): int { o.total }
  predicate IsPending(o: Order) { o.status == Pending }
  predicate IsPrinted(o: Order) { o.status == Printed }

  /**
   * A representative's line: counts of counted, pending and printed orders and
   * the sum of their totals. Pending and printed together never exceed the count.
   */
  function StatOf(orders: seq<Order>, rep: User): (r: RepStat)
    ensures r.id == rep.id && r.name == rep.fullName && r.username == rep.username
    ensures r.totalOrders == |CountedOrders(orders, rep.id)|
    ensures r.totalSales == Sum(CountedOrders(orders, rep.id), OrderTotal)
    ensures r.pendingOrders + r.completedOrders <= r.totalOrders
  {
    var mine := CountedOrders(orders, rep.id);
    FilterDisjointCount(mine, IsPending, IsPrinted);
    RepStat(rep.id, rep.fullName, rep.username, |mine|,
            |Filter(mine, IsPending)|, |Filter(mine, IsPrinted)|, Sum(mine, OrderTotal))
  }

  /** The lines of the given representatives, in their order. */
  function PerRep(orders: seq<Order>, reps: seq<User>): (r: seq<RepStat>)
    ensures |r| == |reps|
    ensures forall i :: 0 <= i < |reps| ==> r[i] == StatOf(orders, reps[i])
  {
    if |reps| == 0 then [] else [StatOf(orders, reps[0])] + PerRep(orders, reps[1..])
  }

  function RepOrders(s: RepStat): int { s.totalOrders }
  function RepSales(s: RepStat): int { s.totalSales }
  predicate IsActiveUser(u: User) { u.isActive }

  /**
   * The page's figures: the lines ranked by non-increasing number of orders
   * (a reordering of the per-representative lines), overall orders and sales
   * that add up the lines, and the active representatives among all of them.
   */
  function ComputeStats(users: seq<User>, orders: seq<Order>): (r: Stats)
    ensures SortedDesc(r.repStats, RepOrders)
    ensures multiset(r.repStats) == multiset(PerRep(orders, Reps(users)))
    ensures r.totalOrders == Sum(PerRep(orders, Reps(users)), RepOrders)
    ensures r.totalSales == Sum(PerRep(orders, Reps(users)), RepSales)
    ensures r.totalReps == |Reps(users)|
    ensures r.activeReps == |Filter(Reps(users), IsActiveUser)|
    ensures r.activeReps <= r.totalReps
  {
    var reps := Reps(users);
    var lines := PerRep(orders, reps);
    var ranked := SortDesc(lines, RepOrders);
    SumPermutation(ranked, lines, RepOrders);
    SumPermutation(ranked, lines, RepSales);
    Stats(ranked, Sum(ranked, RepOrders), Sum(ranked, RepSales), |Filter(reps, IsActiveUser)|, |reps|)
  }

  /** The orders counted for any of the representatives with ids in `ids`. */
  function CountedFor(ids: set<Id>): Order -> bool
  {
    (o: Order) => o.salesRepId in ids && o.status != Deleted
  }

  /** The ids of distinct-keyed representatives split into the first one's and the others'. */
  lemma SplitFirstKey(reps: seq<User>)
    requires DistinctKeys(reps, UserKey) && |reps| > 0
    ensures Keys(reps, UserKey) == {reps[0].id} + Keys(reps[1..], UserKey)
    ensures reps[0].id !in Keys(reps[1..], UserKey)
    ensures DistinctKeys(reps[1..], UserKey)
  {
    forall k | k in Keys(reps, UserKey) ensures k in {reps[0].id} + Keys(reps[1..], UserKey) {
      var x :| x in reps && x.id == k;
      var i :| 0 <= i < |reps| && reps[i] == x;
      if i > 0 {
        assert reps[1..][i - 1] == x;
      }
    }
    forall k | k in Keys(reps[1..], UserKey) ensures k in Keys(reps, UserKey) {
      var x :| x in reps[1..] && x.id == k;
    }
    assert reps[0] in reps && UserKey(reps[0]) == reps[0].id;
    forall x | x in reps[1..] ensures x.id != reps[0].id {
      var k :| 0 <= k < |reps[1..]| && reps[1..][k] == x;
      assert reps[k + 1] == x;
    }
  }

  /** Over representatives with distinct ids, the lines' order counts add up to every order counted for one of them. */
  lemma {:induction false} PerRepOrderCount(orders: seq<Order>, reps: seq<User>)
    requires DistinctKeys(reps, UserKey)
    ensures Sum(PerRep(orders, reps), RepOrders) == |Filter(orders, CountedFor(Keys(reps, UserKey)))|
  {
    if |reps| == 0 {
      FilterNone(orders, CountedFor(Keys(reps, UserKey)));
    } else {
      SplitFirstKey(reps);
      PerRepOrderCount(orders, reps[1..]);
      assert PerRep(orders, reps)[1..] == PerRep(orders, reps[1..]);
      FilterUnionCount(orders, CountedForRep(reps[0].id), CountedFor(Keys(reps[1..], UserKey)),
                       CountedFor(Keys(reps, UserKey)));
    }
  }

  /** Over representatives with distinct ids, the lines' sales add up to the total of every order counted for one of them. */
  lemma {:induction false} PerRepSales(orders: seq<Order>, reps: seq<User>)
    requires DistinctKeys(reps, UserKey)
    ensures Sum(PerRep(orders, reps), RepSales) == Sum(Filter(orders, CountedFor(Keys(reps, UserKey))), OrderTotal)
  {
    if |reps| == 0 {
      FilterNone(orders, CountedFor(Keys(reps, UserKey)));
    } else {
      SplitFirstKey(reps);
      PerRepSales(orders, reps[1..]);
      assert PerRep(orders, reps)[1..] == PerRep(orders, reps[1..]);
      FilterUnionSum(orders, CountedForRep(reps[0].id), CountedFor(Keys(reps[1..], UserKey)),
                     CountedFor(Keys(reps, UserKey)), OrderTotal);
    }
  }

  /**
   * With distinct user ids, the page's overall figures are the number and the
   * total of the non-trashed orders of all representatives: no order is counted
   * twice, and none of a representative's is missed.
   */
  lemma OverallTotals(users: seq<User>, orders: seq<Order>)
    requires DistinctKeys(users, UserKey)
    ensures ComputeStats(users, orders).totalOrders == |Filter(orders, CountedFor(Keys(Reps(users), UserKey)))|
    ensures ComputeStats(users, orders).totalSales ==
      Sum(Filter(orders, CountedFor(Keys(Reps(users), UserKey))), OrderTotal)
  {
    FilterDistinct(users, UserKey, IsRep);
    PerRepOrderCount(orders, Reps(users));
    PerRepSales(orders, Reps(users));
  }
}
