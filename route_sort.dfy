/**
  Ordering of routes for `list()`. The route comparator `compareRoute` is not
  part of this model: it is a parameter, a JavaScript-style comparator that
  answers a negative number, zero or a positive number. `Array.prototype.sort`
  is modelled by an insertion sort, specified only as "a sorted permutation".
 */
module RouteSort {
  import opened RouteEntries

  type Comparator = (RouteEntry, RouteEntry) -> int

  /** `a` may come before `b`. */
  predicate Before(cmp: Comparator, a: RouteEntry, b: RouteEntry)
  {
    cmp(a, b) <= 0
  }

  /** The comparator orders every pair of routes, transitively. */
  ghost predicate TotalPreorder(cmp: Comparator)
  {
    && (forall a, b :: Before(cmp, a, b) || Before(cmp, b, a))
    && (forall a, b, c :: Before(cmp, a, b) && Before(cmp, b, c) ==> Before(cmp, a, c))
  }

  /** Among the routes of `m`, only equal routes tie. */
  ghost predicate TiesOnlyEqual(m: multiset<RouteEntry>, cmp: Comparator)
  {
    forall a, b :: a in m && b in m && Before(cmp, a, b) && Before(cmp, b, a) ==> a == b
  }

  predicate Sorted(s: seq<RouteEntry>, cmp: Comparator)
  {
    forall i, j :: 0 <= i < j < |s| ==> Before(cmp, s[i], s[j])
  }

  /** Puts `x` in front of the first element it may come before. */
  function Insert(x: RouteEntry, s: seq<RouteEntry>, cmp: Comparator): (r: seq<RouteEntry>)
    ensures multiset(r) == multiset(s) + multiset{x}
  {
    if s == [] then [x]
    else if Before(cmp, x, s[0]) then [x] + s
    else
      assert s == [s[0]] + s[1..];
      [s[0]] + Insert(x, s[1..], cmp)
  }

  /** `routes.sort(compareRoute)`: a permutation of its input. */
  function Sort(s: seq<RouteEntry>, cmp: Comparator): (r: seq<RouteEntry>)
    ensures multiset(r) == multiset(s)
  {
    if s == [] then []
    else
      assert s == [s[0]] + s[1..];
      Insert(s[0], Sort(s[1..], cmp), cmp)
  }

  lemma {:induction false} InsertSorted(x: RouteEntry, s: seq<RouteEntry>, cmp: Comparator)
    requires TotalPreorder(cmp) && Sorted(s, cmp)
    ensures Sorted(Insert(x, s, cmp), cmp)
  {
    if s != [] && !Before(cmp, x, s[0]) {
      var tail := Insert(x, s[1..], cmp);
      InsertSorted(x, s[1..], cmp);
      assert Before(cmp, s[0], x);
      forall j | 0 <= j < |tail| ensures Before(cmp, s[0], tail[j]) {
        assert tail[j] in multiset(tail);
        if tail[j] != x {
          assert tail[j] in multiset(s[1..]);
          var k :| 0 <= k < |s[1..]| && s[1..][k] == tail[j];
          assert s[k + 1] == tail[j];
        }
      }
    }
  }

  /** Under a total preorder the sort's output is sorted. */
  lemma {:induction false} SortSorted(s: seq<RouteEntry>, cmp: Comparator)
    requires TotalPreorder(cmp)
    ensures Sorted(Sort(s, cmp), cmp)
  {
    if s != [] {
      SortSorted(s[1..], cmp);
      InsertSorted(s[0], Sort(s[1..], cmp), cmp);
    }
  }

  lemma SortedHeadsEqual(s: seq<RouteEntry>, t: seq<RouteEntry>, cmp: Comparator)
    requires TiesOnlyEqual(multiset(s), cmp)
    requires Sorted(s, cmp) && Sorted(t, cmp) && multiset(s) == multiset(t)
    requires s != []
    ensures t != [] && s[0] == t[0]
  {
    assert s[0] in multiset(t);
    var j :| 0 <= j < |t| && t[j] == s[0];
    assert t[0] in multiset(s);
    var i :| 0 <= i < |s| && s[i] == t[0];
    if i != 0 && j != 0 {
      assert Before(cmp, t[0], s[0]) && Before(cmp, s[0], t[0]);
    }
  }

  lemma TailsSameRoutes(s: seq<RouteEntry>, t: seq<RouteEntry>)
    requires s != [] && t != [] && s[0] == t[0] && multiset(s) == multiset(t)
    ensures multiset(s[1..]) == multiset(t[1..]) <= multiset(s)
  {
    assert s == [s[0]] + s[1..];
    assert t == [t[0]] + t[1..];
    assert multiset(s[1..]) == multiset(s) - multiset{s[0]};
    assert multiset(t[1..]) == multiset(t) - multiset{s[0]};
  }

  lemma SortedTail(s: seq<RouteEntry>, cmp: Comparator)
    requires s != [] && Sorted(s, cmp)
    ensures Sorted(s[1..], cmp)
  {
    forall i, j | 0 <= i < j < |s| - 1 ensures Before(cmp, s[1..][i], s[1..][j]) {
      assert s[1..][i] == s[i + 1] && s[1..][j] == s[j + 1];
    }
  }

  lemma TiesOnlyEqualFewer(m: multiset<RouteEntry>, n: multiset<RouteEntry>, cmp: Comparator)
    requires TiesOnlyEqual(m, cmp) && n <= m
    ensures TiesOnlyEqual(n, cmp)
  {
  }

  lemma SameHeadSameTail(s: seq<RouteEntry>, t: seq<RouteEntry>)
    requires s != [] && t != [] && s[0] == t[0] && s[1..] == t[1..]
    ensures s == t
  {
    assert s == [s[0]] + s[1..];
    assert t == [t[0]] + t[1..];
  }

  lemma NoRoutesEmpty(s: seq<RouteEntry>, t: seq<RouteEntry>)
    requires s == [] && multiset(s) == multiset(t)
    ensures t == []
  {
    assert |t| == |multiset(t)|;
  }

  /** Two sorted sequences with the same routes, among which only equal
      routes tie, are equal: the listing depends only on what is registered,
      not on the order the stores hand their routes over in. */
  lemma {:induction false} SortedUnique(s: seq<RouteEntry>, t: seq<RouteEntry>, cmp: Comparator)
    requires TiesOnlyEqual(multiset(s), cmp)
    requires Sorted(s, cmp) && Sorted(t, cmp) && multiset(s) == multiset(t)
    ensures s == t
  {
    if s != [] {
      SortedHeadsEqual(s, t, cmp);
      TailsSameRoutes(s, t);
      TiesOnlyEqualFewer(multiset(s), multiset(s[1..]), cmp);
      SortedTail(s, cmp);
      SortedTail(t, cmp);
      SortedUnique(s[1..], t[1..], cmp);
      SameHeadSameTail(s, t);
    } else {
      NoRoutesEmpty(s, t);
    }
  }
}
