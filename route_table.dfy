/**
  The values of the static route dictionary, `Object.values(...)` as a
  multiset: the order in which a JavaScript object hands its values over is
  not part of this model.
 */
module RouteTable {
  import opened RouteEntries

  /** The routes of the static dictionary, one per key. */
  ghost function StaticValues(m: map<string, RouteEntry>): (vs: multiset<RouteEntry>)
    ensures vs == multiset{} <==> m == map[]
    decreases |m|
  {
    if m == map[] then multiset{}
    else
      var k :| k in m;
      assert (m - {k}).Keys == m.Keys - {k};
      multiset{m[k]} + StaticValues(m - {k})
  }

  lemma RemoveBothOrders(m: map<string, RouteEntry>, a: string, b: string)
    ensures m - {a} - {b} == m - {b} - {a}
  {
  }

  lemma RemoveOne(m: map<string, RouteEntry>, k: string)
    requires k in m
    ensures |m - {k}| == |m| - 1
  {
    assert (m - {k}).Keys == m.Keys - {k};
  }

  /** Whichever key is taken out first, the same routes remain. */
  lemma {:induction false} StaticValuesRemove(m: map<string, RouteEntry>, k: string)
    requires k in m
    ensures StaticValues(m) == multiset{m[k]} + StaticValues(m - {k})
    decreases |m|
  {
    var k' :| k' in m && StaticValues(m) == multiset{m[k']} + StaticValues(m - {k'});
    if k' != k {
      var m1, m2 := m - {k'}, m - {k};
      RemoveOne(m, k);
      RemoveOne(m, k');
      assert k in m1 && m1[k] == m[k];
      assert k' in m2 && m2[k'] == m[k'];
      StaticValuesRemove(m1, k);
      StaticValuesRemove(m2, k');
      RemoveBothOrders(m, k', k);
    }
  }

  /** The dictionary hands over one route per key. */
  lemma {:induction false} StaticValuesSize(m: map<string, RouteEntry>)
    ensures |StaticValues(m)| == |m|
    decreases |m|
  {
    if m != map[] {
      var k :| k in m;
      RemoveOne(m, k);
      StaticValuesRemove(m, k);
      StaticValuesSize(m - {k});
    }
  }

  /** The routes handed over are exactly the dictionary's values. */
  lemma {:induction false} StaticValuesSupport(m: map<string, RouteEntry>)
    ensures forall k :: k in m ==> m[k] in StaticValues(m)
    ensures forall v :: v in StaticValues(m) ==> v in m.Values
    decreases |m|
  {
    forall k | k in m ensures m[k] in StaticValues(m) {
      StaticValuesRemove(m, k);
    }
    if m != map[] {
      var k :| k in m;
      RemoveOne(m, k);
      StaticValuesRemove(m, k);
      StaticValuesSupport(m - {k});
      forall v | v in StaticValues(m) ensures v in m.Values {
        if v != m[k] {
          assert v in StaticValues(m - {k});
          var k2 :| k2 in m - {k} && (m - {k})[k2] == v;
          assert m[k2] == v;
        }
      }
    }
  }

  lemma UpdateThenRemove(m: map<string, RouteEntry>, k: string, v: RouteEntry)
    ensures m[k := v] - {k} == m - {k}
  {
  }

  lemma RemoveAbsent(m: map<string, RouteEntry>, k: string)
    requires k !in m
    ensures m - {k} == m
  {
  }

  /** Storing `v` under `k` replaces the route stored there before, if any. */
  lemma StaticValuesUpdate(m: map<string, RouteEntry>, k: string, v: RouteEntry)
    ensures StaticValues(m[k := v]) ==
            (if k in m then StaticValues(m) - multiset{m[k]} else StaticValues(m)) + multiset{v}
  {
    StaticValuesRemove(m[k := v], k);
    UpdateThenRemove(m, k, v);
    if k in m {
      StaticValuesRemove(m, k);
      assert StaticValues(m) - multiset{m[k]} == StaticValues(m - {k});
    } else {
      RemoveAbsent(m, k);
    }
  }
}
