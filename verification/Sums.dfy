/** Finite sums over the values of a map, with one algebraic law per use: a change at one key,
    pointwise comparison, and pointwise addition. */
module Sums {

  ghost function MapSum<K>(m: map<K, nat>): nat
    decreases |m|
  {
    if m == map[] then 0
    else
      var k :| k in m;
      m[k] + MapSum(m - {k})
  }

  function At<K>(m: map<K, nat>, k: K): nat {
    if k in m then m[k] else 0
  }

  /** Any key may be taken out first. */
  lemma {:induction false} MapSumRemove<K>(m: map<K, nat>, k: K)
    requires k in m
    ensures MapSum(m) == m[k] + MapSum(m - {k})
    decreases |m|
  {
    var j :| j in m && MapSum(m) == m[j] + MapSum(m - {j});
    if j != k {
      MapSumRemove(m - {j}, k);
      MapSumRemove(m - {k}, j);
      assert m - {j} - {k} == m - {k} - {j};
    }
  }

  /** Writing one key changes the sum by the difference at that key. */
  lemma MapSumUpdate<K>(m: map<K, nat>, k: K, v: nat)
    ensures MapSum(m[k := v]) + At(m, k) == MapSum(m) + v
  {
    MapSumRemove(m[k := v], k);
    assert m[k := v] - {k} == m - {k};
    if k in m {
      MapSumRemove(m, k);
    } else {
      assert m - {k} == m;
    }
  }

  /** The same law for a map known by its entries. */
  lemma MapSumChange<K>(m: map<K, nat>, m': map<K, nat>, k: K)
    requires m'.Keys == m.Keys + {k}
    requires forall j :: j in m && j != k ==> m'[j] == m[j]
    ensures MapSum(m') + At(m, k) == MapSum(m) + m'[k]
  {
    assert m' == m[k := m'[k]];
    MapSumUpdate(m, k, m'[k]);
  }

  lemma MapSumSame<K>(m: map<K, nat>, m': map<K, nat>)
    requires m'.Keys == m.Keys
    requires forall j :: j in m ==> m'[j] == m[j]
    ensures MapSum(m') == MapSum(m)
  {
    assert m' == m;
  }

  lemma {:induction false} MapSumAdd<K>(a: map<K, nat>, b: map<K, nat>, c: map<K, nat>)
    requires a.Keys == b.Keys == c.Keys
    requires forall k :: k in a ==> a[k] == b[k] + c[k]
    ensures MapSum(a) == MapSum(b) + MapSum(c)
    decreases |a|
  {
    if a != map[] {
      var k :| k in a;
      MapSumRemove(a, k);
      MapSumRemove(b, k);
      MapSumRemove(c, k);
      MapSumAdd(a - {k}, b - {k}, c - {k});
    } else {
      assert b == map[] && c == map[];
    }
  }

  lemma {:induction false} MapSumLe<K>(a: map<K, nat>, b: map<K, nat>)
    requires a.Keys <= b.Keys
    requires forall k :: k in a ==> a[k] <= b[k]
    ensures MapSum(a) <= MapSum(b)
    decreases |a|
  {
    if a != map[] {
      var k :| k in a;
      MapSumRemove(a, k);
      MapSumRemove(b, k);
      MapSumLe(a - {k}, b - {k});
    }
  }

  /** A sum of naturals is zero exactly when every summand is. */
  lemma MapSumZero<K>(m: map<K, nat>)
    ensures MapSum(m) == 0 <==> forall k :: k in m ==> m[k] == 0
  {
    forall k | k in m ensures m[k] <= MapSum(m) {
      MapSumRemove(m, k);
    }
    if forall k :: k in m ==> m[k] == 0 {
      MapSumAllZero(m);
    }
  }

  lemma {:induction false} MapSumAllZero<K>(m: map<K, nat>)
    requires forall k :: k in m ==> m[k] == 0
    ensures MapSum(m) == 0
    decreases |m|
  {
    if m != map[] {
      var k :| k in m;
      MapSumRemove(m, k);
      MapSumAllZero(m - {k});
    }
  }

  lemma {:induction false} SubsetSize<T>(x: set<T>, y: set<T>)
    requires x <= y
    ensures |x| <= |y|
  {
    assert y == x + (y - x);
  }
}
