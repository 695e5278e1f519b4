/** An optional value: the model's stand-in for a JavaScript `null` or `undefined` result. */
module Wrappers {
  datatype Option<+T> = None | Some(value: T)
}

/**
 * Sequence helpers shared by every table of the store and every view: the
 * `find`/`findIndex`/`filter`/`reduce`/`sort` calls of the program, each
 * defined once and proved once.
 */
module Tables {
  import opened Wrappers

  /** Record identifiers are strings, as the store generates them. */
  type Id = string

  /** Index of the first element satisfying `p` (`Array.prototype.findIndex`). */
  function FindFirst<T(==)>(s: seq<T>, p: T -> bool): (r: Option<nat>)
    ensures r.Some? ==> r.value < |s| && p(s[r.value])
    ensures r.Some? ==> forall j :: 0 <= j < r.value ==> !p(s[j])
    ensures r.None? <==> forall j :: 0 <= j < |s| ==> !p(s[j])
  {
    if |s| == 0 then None
    else if p(s[0]) then Some(0)
    else
      match FindFirst(s[1..], p)
      case None => None
      case Some(i) => Some(i + 1)
  }

  /** The set of keys present in a table. */
  function Keys<T(==)>(s: seq<T>, key: T -> Id): set<Id>
  {
    set x | x in s :: key(x)
  }

  /** Index of the first record whose key is `k`. */
  function FindIndex<T(==)>(s: seq<T>, key: T -> Id, k: Id): (r: Option<nat>)
    ensures r.Some? ==> r.value < |s| && key(s[r.value]) == k
    ensures r.Some? ==> forall j :: 0 <= j < r.value ==> key(s[j]) != k
    ensures r.None? <==> k !in Keys(s, key)
  {
    var r := FindFirst(s, x => key(x) == k);
    assert r.None? ==> k !in Keys(s, key) by {
      if r.None? {
        forall x | x in s ensures key(x) != k {
          var i :| 0 <= i < |s| && s[i] == x;
        }
      }
    }
    r
  }

  /** No two records of a table share a key. */
  predicate DistinctKeys<T(==)>(s: seq<T>, key: T -> Id)
  {
    forall i, j :: 0 <= i < j < |s| ==> key(s[i]) != key(s[j])
  }

  /** The elements satisfying `p`, in their original order (`Array.prototype.filter`). */
  function Filter<T(==)>(s: seq<T>, p: T -> bool): (r: seq<T>)
    ensures |r| <= |s|
    ensures forall i :: 0 <= i < |r| ==> r[i] in s && p(r[i])
    ensures forall i :: 0 <= i < |s| && p(s[i]) ==> s[i] in r
  {
    if |s| == 0 then []
    else if p(s[0]) then [s[0]] + Filter(s[1..], p)
    else Filter(s[1..], p)
  }

  lemma {:induction false} FilterAppend<T>(a: seq<T>, b: seq<T>, p: T -> bool)
    ensures Filter(a + b, p) == Filter(a, p) + Filter(b, p)
  {
    if |a| == 0 {
      assert a + b == b;
    } else {
      assert (a + b)[1..] == a[1..] + b;
      FilterAppend(a[1..], b, p);
    }
  }

  /** Filtering keeps everything exactly when every element passes. */
  lemma {:induction false} FilterAll<T>(s: seq<T>, p: T -> bool)
    ensures |Filter(s, p)| == |s| <==> forall x :: x in s ==> p(x)
    ensures (forall x :: x in s ==> p(x)) ==> Filter(s, p) == s
  {
    if |s| > 0 {
      FilterAll(s[1..], p);
      assert forall x :: x in s[1..] ==> x in s;
      assert s == [s[0]] + s[1..];
    }
  }

  /** A test and its negation split a sequence into two parts that together hold every element. */
  lemma {:induction false} FilterPartition<T>(s: seq<T>, p: T -> bool, q: T -> bool)
    requires forall x :: q(x) == !p(x)
    ensures multiset(Filter(s, p)) + multiset(Filter(s, q)) == multiset(s)
  {
    if |s| > 0 {
      FilterPartition(s[1..], p, q);
      assert s == [s[0]] + s[1..];
    }
  }

  /** Where the first element of `s` sits in a rearrangement `t` of it, and what is left on either side. */
  lemma SplitAt<T>(s: seq<T>, t: seq<T>) returns (i: nat)
    requires |s| > 0 && multiset(s) == multiset(t)
    ensures i < |t| && t[i] == s[0]
    ensures multiset(s[1..]) == multiset(t[..i] + t[i + 1..])
  {
    var x := s[0];
    assert x in multiset(t);
    i :| 0 <= i < |t| && t[i] == x;
    var rest := t[..i] + t[i + 1..];
    assert t == t[..i] + [x] + t[i + 1..];
    assert multiset(t) == multiset(rest) + multiset{x};
    assert s == [x] + s[1..];
    assert multiset(s) == multiset(s[1..]) + multiset{x};
    assert multiset(s[1..]) == multiset(s) - multiset{x};
    assert multiset(rest) == multiset(t) - multiset{x};
  }

  /** Two filters that no element passes together select at most the whole sequence between them. */
  lemma {:induction false} FilterDisjointCount<T>(s: seq<T>, p: T -> bool, q: T -> bool)
    requires forall x :: !(p(x) && q(x))
    ensures |Filter(s, p)| + |Filter(s, q)| <= |s|
  {
    if |s| > 0 {
      FilterDisjointCount(s[1..], p, q);
    }
  }

  /** Two filters that no element passes together count, between them, what passes either one. */
  lemma {:induction false} FilterUnionCount<T>(s: seq<T>, p: T -> bool, q: T -> bool, pq: T -> bool)
    requires forall x :: pq(x) == (p(x) || q(x))
    requires forall x :: !(p(x) && q(x))
    ensures |Filter(s, pq)| == |Filter(s, p)| + |Filter(s, q)|
  {
    if |s| > 0 {
      FilterUnionCount(s[1..], p, q, pq);
    }
  }

  /** The same split for sums: what passes either of two disjoint filters sums to the two sums. */
  lemma {:induction false} FilterUnionSum<T>(s: seq<T>, p: T -> bool, q: T -> bool, pq: T -> bool, f: T -> int)
    requires forall x :: pq(x) == (p(x) || q(x))
    requires forall x :: !(p(x) && q(x))
    ensures Sum(Filter(s, pq), f) == Sum(Filter(s, p), f) + Sum(Filter(s, q), f)
  {
    if |s| > 0 {
      FilterUnionSum(s[1..], p, q, pq, f);
      var x := s[0];
      if p(x) {
        assert Filter(s, p) == [x] + Filter(s[1..], p);
        assert ([x] + Filter(s[1..], p))[1..] == Filter(s[1..], p);
      }
      if q(x) {
        assert Filter(s, q) == [x] + Filter(s[1..], q);
        assert ([x] + Filter(s[1..], q))[1..] == Filter(s[1..], q);
      }
      if pq(x) {
        assert Filter(s, pq) == [x] + Filter(s[1..], pq);
        assert ([x] + Filter(s[1..], pq))[1..] == Filter(s[1..], pq);
      }
    }
  }

  /** Nothing passes a filter that every element fails. */
  lemma {:induction false} FilterNone<T>(s: seq<T>, p: T -> bool)
    requires forall i :: 0 <= i < |s| ==> !p(s[i])
    ensures Filter(s, p) == []
  {
    if |s| > 0 {
      FilterNone(s[1..], p);
    }
  }

  /** Filtering twice is filtering once by both conditions. */
  lemma {:induction false} FilterConj<T>(s: seq<T>, p: T -> bool, q: T -> bool, pq: T -> bool)
    requires forall x :: pq(x) == (p(x) && q(x))
    ensures Filter(Filter(s, p), q) == Filter(s, pq)
  {
    if |s| > 0 {
      FilterConj(s[1..], p, q, pq);
      if p(s[0]) {
        var rest := Filter(s[1..], p);
        assert Filter(s, p) == [s[0]] + rest;
        assert ([s[0]] + rest)[1..] == rest;
      }
    }
  }

  /** A permutation has the same members. */
  lemma PermutationMembers<T>(s: seq<T>, t: seq<T>)
    requires multiset(s) == multiset(t)
    ensures forall x :: x in s <==> x in t
  {
    forall x ensures x in s <==> x in t {
      assert x in s <==> x in multiset(s);
      assert x in t <==> x in multiset(t);
    }
  }

  /** Filtering commutes with any rearrangement of the input. */
  lemma {:induction false} FilterPermutation<T>(s: seq<T>, t: seq<T>, p: T -> bool)
    requires multiset(s) == multiset(t)
    ensures multiset(Filter(s, p)) == multiset(Filter(t, p))
  {
    if |s| == 0 {
      assert t == [];
    } else {
      var i := SplitAt(s, t);
      var x, rest := s[0], t[..i] + t[i + 1..];
      assert t == t[..i] + [x] + t[i + 1..];
      FilterPermutation(s[1..], rest, p);
      FilterAppend(t[..i] + [x], t[i + 1..], p);
      FilterAppend(t[..i], [x], p);
      FilterAppend(t[..i], t[i + 1..], p);
    }
  }

  /** The records whose key is not `k`: the body of every `filter((r) => r.id !== id)` delete. */
  function WithoutKey<T(==)>(s: seq<T>, key: T -> Id, k: Id): (r: seq<T>)
    ensures forall i :: 0 <= i < |r| ==> r[i] in s && key(r[i]) != k
    ensures forall i :: 0 <= i < |s| && key(s[i]) != k ==> s[i] in r
  {
    Filter(s, x => key(x) != k)
  }

  /**
   * A delete by filter removes something exactly when the key is present;
   * when it is absent the table comes back unchanged.
   */
  lemma WithoutKeyLength<T>(s: seq<T>, key: T -> Id, k: Id)
    ensures |WithoutKey(s, key, k)| == |s| <==> k !in Keys(s, key)
    ensures k !in Keys(s, key) ==> WithoutKey(s, key, k) == s
    ensures k !in Keys(WithoutKey(s, key, k), key)
  {
    FilterAll(s, x => key(x) != k);
  }

  /** A delete by filter takes exactly its key out of the table's key set. */
  lemma KeysWithout<T>(s: seq<T>, key: T -> Id, k: Id)
    ensures Keys(WithoutKey(s, key, k), key) == Keys(s, key) - {k}
  {
    var r := WithoutKey(s, key, k);
    forall x | x in Keys(r, key) ensures x in Keys(s, key) - {k} {
      var y :| y in r && key(y) == x;
      var j :| 0 <= j < |r| && r[j] == y;
    }
    forall x | x in Keys(s, key) - {k} ensures x in Keys(r, key) {
      var y :| y in s && key(y) == x;
      var j :| 0 <= j < |s| && s[j] == y;
      var m :| 0 <= m < |r| && r[m] == y;
      assert r[m] in r;
    }
  }

  /** Filtering out one failing element between two passing runs leaves the runs. */
  lemma FilterDropOne<T>(a: seq<T>, x: T, b: seq<T>, p: T -> bool)
    requires forall i :: 0 <= i < |a| ==> p(a[i])
    requires forall i :: 0 <= i < |b| ==> p(b[i])
    requires !p(x)
    ensures Filter(a + ([x] + b), p) == a + b
  {
    FilterAppend(a, [x] + b, p);
    FilterAppend([x], b, p);
    assert Filter([x], p) == [];
    FilterAll(a, p);
    FilterAll(b, p);
  }

  /** On a table with distinct keys, deleting the key of the record at `i` removes exactly that record. */
  lemma WithoutUniqueKey<T>(s: seq<T>, key: T -> Id, i: nat)
    requires DistinctKeys(s, key) && i < |s|
    ensures WithoutKey(s, key, key(s[i])) == s[..i] + s[i + 1..]
  {
    var k := key(s[i]);
    assert s == s[..i] + ([s[i]] + s[i + 1..]);
    FilterDropOne(s[..i], s[i], s[i + 1..], x => key(x) != k);
  }

  /** Deleting by any reference keeps the keys of what is left distinct. */
  lemma WithoutKeyDistinct<T>(s: seq<T>, key: T -> Id, ref: T -> Id, k: Id)
    requires DistinctKeys(s, key)
    ensures DistinctKeys(WithoutKey(s, ref, k), key)
  {
    FilterDistinct(s, key, x => ref(x) != k);
  }

  /** Filtering keeps keys distinct. */
  lemma {:induction false} FilterDistinct<T>(s: seq<T>, key: T -> Id, p: T -> bool)
    requires DistinctKeys(s, key)
    ensures DistinctKeys(Filter(s, p), key)
  {
    if |s| > 0 {
      FilterDistinct(s[1..], key, p);
      var rest := Filter(s[1..], p);
      if p(s[0]) {
        forall j | 0 <= j < |rest| ensures key(s[0]) != key(rest[j]) {
          assert rest[j] in s[1..];
        }
      }
    }
  }

  /** The sum of `f` over a sequence (`reduce((sum, x) => sum + f(x), 0)`). */
  function Sum<T(==)>(s: seq<T>, f: T -> int): int
  {
    if |s| == 0 then 0 else f(s[0]) + Sum(s[1..], f)
  }

  lemma {:induction false} SumAppend<T>(a: seq<T>, b: seq<T>, f: T -> int)
    ensures Sum(a + b, f) == Sum(a, f) + Sum(b, f)
  {
    if |a| == 0 {
      assert a + b == b;
    } else {
      assert (a + b)[1..] == a[1..] + b;
      SumAppend(a[1..], b, f);
    }
  }

  /** A sum does not depend on the order of its terms. */
  lemma {:induction false} SumPermutation<T>(s: seq<T>, t: seq<T>, f: T -> int)
    requires multiset(s) == multiset(t)
    ensures Sum(s, f) == Sum(t, f)
  {
    if |s| == 0 {
      assert t == [];
    } else {
      var i := SplitAt(s, t);
      var x, rest := s[0], t[..i] + t[i + 1..];
      assert t == t[..i] + [x] + t[i + 1..];
      SumPermutation(s[1..], rest, f);
      SumAppend(t[..i] + [x], t[i + 1..], f);
      SumAppend(t[..i], [x], f);
      SumAppend(t[..i], t[i + 1..], f);
    }
  }

  /** Replacing one term changes a sum by the difference of the two terms. */
  lemma {:induction false} SumUpdate<T>(s: seq<T>, i: nat, x: T, f: T -> int)
    requires i < |s|
    ensures Sum(s[i := x], f) == Sum(s, f) - f(s[i]) + f(x)
  {
    if i > 0 {
      assert s[i := x][1..] == s[1..][i - 1 := x];
      SumUpdate(s[1..], i - 1, x, f);
    }
  }

  /** Non-increasing by `rank`. */
  predicate SortedDesc<T(==)>(s: seq<T>, rank: T -> int)
  {
    forall i, j :: 0 <= i < j < |s| ==> rank(s[i]) >= rank(s[j])
  }

  /** Putting an element no smaller than all of a sorted sequence in front keeps it sorted. */
  lemma ConsSorted<T>(h: T, tail: seq<T>, rank: T -> int)
    requires SortedDesc(tail, rank)
    requires forall i :: 0 <= i < |tail| ==> rank(h) >= rank(tail[i])
    ensures SortedDesc([h] + tail, rank)
  {
    var r := [h] + tail;
    forall i, j | 0 <= i < j < |r| ensures rank(r[i]) >= rank(r[j]) {
      assert r[j] == tail[j - 1];
      if i > 0 { assert r[i] == tail[i - 1]; }
    }
  }

  /** Places `x` before the first element whose rank does not exceed its own. */
  function InsertDesc<T(==)>(x: T, s: seq<T>, rank: T -> int): (r: seq<T>)
    requires SortedDesc(s, rank)
    ensures SortedDesc(r, rank)
    ensures multiset(r) == multiset(s) + multiset{x}
  {
    if |s| == 0 then [x]
    else if rank(s[0]) <= rank(x) then
      ConsSorted(x, s, rank);
      [x] + s
    else
      var tail := InsertDesc(x, s[1..], rank);
      assert s == [s[0]] + s[1..];
      assert forall i :: 0 <= i < |tail| ==> rank(s[0]) >= rank(tail[i]) by {
        forall i | 0 <= i < |tail| ensures rank(s[0]) >= rank(tail[i]) {
          assert tail[i] in multiset(tail);
          if tail[i] != x {
            assert tail[i] in multiset(s[1..]);
            var j :| 0 <= j < |s[1..]| && s[1..][j] == tail[i];
            assert s[j + 1] == tail[i];
          }
        }
      }
      ConsSorted(s[0], tail, rank);
      [s[0]] + tail
  }

  /**
   * Sorts by non-increasing `rank`, keeping equal-rank elements in their input
   * order: JavaScript's stable `sort((a, b) => rank(b) - rank(a))`.
   */
  function SortDesc<T(==)>(s: seq<T>, rank: T -> int): (r: seq<T>)
    ensures SortedDesc(r, rank)
    ensures multiset(r) == multiset(s)
  {
    if |s| == 0 then []
    else
      assert s == [s[0]] + s[1..];
      InsertDesc(s[0], SortDesc(s[1..], rank), rank)
  }

  /** A string of `n` characters, used to build a key longer than every key in a table. */
  function Padding(n: nat): (p: string)
    ensures |p| == n
  {
    seq(n, _ => '0')
  }

  /** The length of the longest key in a table. */
  function LongestKey<T(==)>(s: seq<T>, key: T -> Id): (m: nat)
    ensures forall x :: x in s ==> |key(x)| <= m
  {
    if |s| == 0 then 0
    else
      var rest := LongestKey(s[1..], key);
      assert forall x :: x in s ==> x == s[0] || x in s[1..];
      if |key(s[0])| > rest then |key(s[0])| else rest
  }

  /** A key no record of the table carries: the model of `generateId()`. */
  function FreshKey<T(==)>(s: seq<T>, key: T -> Id): (k: Id)
    ensures k !in Keys(s, key)
  {
    Padding(LongestKey(s, key) + 1)
  }

  /** Appending a record whose key is fresh keeps keys distinct. */
  lemma AppendFreshDistinct<T>(s: seq<T>, key: T -> Id, x: T)
    requires DistinctKeys(s, key)
    requires key(x) !in Keys(s, key)
    ensures DistinctKeys(s + [x], key)
  {
    forall i | 0 <= i < |s| ensures key(s[i]) != key(x) {
      assert s[i] in s;
    }
  }

  lemma KeysAppend<T>(s: seq<T>, key: T -> Id, x: T)
    ensures Keys(s + [x], key) == Keys(s, key) + {key(x)}
  {
    assert forall y :: y in s + [x] <==> y in s || y == x;
  }

  /** Replacing a record by one with the same key leaves the set of keys as it was. */
  lemma KeysReplaceSameKey<T>(s: seq<T>, key: T -> Id, i: nat, x: T)
    requires i < |s| && key(x) == key(s[i])
    ensures Keys(s[i := x], key) == Keys(s, key)
  {
    var r := s[i := x];
    forall k | k in Keys(r, key) ensures k in Keys(s, key) {
      var y :| y in r && key(y) == k;
      var j :| 0 <= j < |r| && r[j] == y;
      assert s[j] in s;
    }
    forall k | k in Keys(s, key) ensures k in Keys(r, key) {
      var y :| y in s && key(y) == k;
      var j :| 0 <= j < |s| && s[j] == y;
      assert r[j] in r;
    }
  }

  /** Replacing a record by one with the same key keeps keys distinct. */
  lemma ReplaceSameKeyDistinct<T>(s: seq<T>, key: T -> Id, i: nat, x: T)
    requires DistinctKeys(s, key)
    requires i < |s| && key(x) == key(s[i])
    ensures DistinctKeys(s[i := x], key)
  {
  }
}
