/** Sums over the values of a finite map, independent of iteration order. */
module Sums {

  ghost function Sum<K>(m: map<K, int>): (total: int)
    decreases |m|
  {
    if m == map[] then 0
    else
      var k :| k in m;
      Smaller(m, k);
      m[k] + Sum(m - {k})
  }

  ghost function Only<K, V>(m: map<K, V>, keys: set<K>): map<K, V> {
    map k | k in m && k in keys :: m[k]
  }

  lemma Smaller<K, V>(m: map<K, V>, k: K)
    requires k in m
    ensures |m - {k}| == |m| - 1
  {
    assert (m - {k}).Keys == m.Keys - {k};
  }

  lemma SumUnfold<K>(m: map<K, int>) returns (k: K)
    requires m != map[]
    ensures k in m && Sum(m) == m[k] + Sum(m - {k})
  {
    k :| k in m && Sum(m) == m[k] + Sum(m - {k});
  }

  /** Any entry may be split off, not only the one the definition happens to choose. */
  lemma {:induction false} SumRemove<K>(m: map<K, int>, k: K)
    requires k in m
    ensures Sum(m) == m[k] + Sum(m - {k})
    decreases |m|
  {
    var c := SumUnfold(m);
    if c != k {
      Smaller(m, c);
      Smaller(m, k);
      SumRemove(m - {c}, k);
      SumRemove(m - {k}, c);
      assert m - {c} - {k} == m - {k} - {c};
    }
  }

  lemma SumPut<K>(m: map<K, int>, k: K, v: int)
    ensures Sum(m[k := v]) == Sum(m) + v - (if k in m then m[k] else 0)
  {
    SumRemove(m[k := v], k);
    assert m[k := v] - {k} == m - {k};
    if k in m {
      SumRemove(m, k);
    } else {
      assert m - {k} == m;
    }
  }

  lemma {:induction false} SumNonNegative<K>(m: map<K, int>)
    requires forall k :: k in m ==> m[k] >= 0
    ensures Sum(m) >= 0
    ensures forall k :: k in m ==> m[k] <= Sum(m)
    decreases |m|
  {
    if m != map[] {
      var c := SumUnfold(m);
      Smaller(m, c);
      SumNonNegative(m - {c});
      forall k | k in m ensures m[k] <= Sum(m) {
        if k != c { assert k in m - {c}; }
      }
    }
  }

  lemma {:induction false} SumSingle<K>(m: map<K, int>, k: K)
    requires forall x :: x in m && x != k ==> m[x] == 0
    ensures Sum(m) == if k in m then m[k] else 0
    decreases |m|
  {
    if m != map[] {
      var c := SumUnfold(m);
      Smaller(m, c);
      SumSingle(m - {c}, k);
    }
  }

  /** Of two maps with the same keys, the smaller one has the smaller sum, and equal sums mean equal maps. */
  lemma {:induction false} SumCompare<K>(a: map<K, int>, b: map<K, int>)
    requires a.Keys == b.Keys && forall k :: k in a ==> a[k] <= b[k]
    ensures Sum(a) <= Sum(b)
    ensures Sum(a) == Sum(b) <==> a == b
    decreases |a|
  {
    if a == map[] {
      assert b == map[];
    } else {
      var k := SumUnfold(a);
      SumRemove(b, k);
      Smaller(a, k);
      SumCompare(a - {k}, b - {k});
      if a - {k} == b - {k} && a[k] == b[k] {
        assert forall x :: x in a ==> x == k || (x in a - {k} && (a - {k})[x] == (b - {k})[x]);
        assert a == b;
      }
    }
  }
}
