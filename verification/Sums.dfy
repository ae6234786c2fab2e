/** Finite sums of real amounts held in a map, and sizes of finite sets. */
module Sums {

  ghost function Sum<K>(m: map<K, real>): real
    decreases |m|
  {
    if m == map[] then 0.0
    else
      var k :| k in m;
      m[k] + Sum(m - {k})
  }

  /** The sum does not depend on which key is taken out first. */
  lemma {:induction false} SumRemove<K>(m: map<K, real>, k: K)
    requires k in m
    ensures Sum(m) == m[k] + Sum(m - {k})
    decreases |m|
  {
    var j :| j in m && Sum(m) == m[j] + Sum(m - {j});
    if j != k {
      SumRemove(m - {j}, k);
      SumRemove(m - {k}, j);
      assert m - {j} - {k} == m - {k} - {j};
    }
  }

  lemma SumInsert<K>(m: map<K, real>, k: K, v: real)
    requires k !in m
    ensures Sum(m[k := v]) == Sum(m) + v
  {
    SumRemove(m[k := v], k);
    assert m[k := v] - {k} == m;
  }

  lemma SumUpdate<K>(m: map<K, real>, k: K, v: real)
    ensures Sum(m[k := v]) == Sum(m) + v - (if k in m then m[k] else 0.0)
  {
    if k in m {
      SumRemove(m, k);
      SumRemove(m[k := v], k);
      assert m[k := v] - {k} == m - {k};
    } else {
      SumInsert(m, k, v);
    }
  }

  lemma {:induction false} SumNonNegative<K>(m: map<K, real>)
    requires forall k :: k in m ==> m[k] >= 0.0
    ensures Sum(m) >= 0.0
    decreases |m|
  {
    if m != map[] {
      var k :| k in m && Sum(m) == m[k] + Sum(m - {k});
      SumNonNegative(m - {k});
    }
  }

  lemma RemoveCardinality<K>(m: map<K, real>, k: K)
    requires k in m
    ensures |m - {k}| == |m| - 1
  {
    assert (m - {k}).Keys == m.Keys - {k};
  }

  /** `n * cap`, by repeated addition, so that the solver never multiplies. */
  ghost function Times(n: nat, cap: real): real {
    if n == 0 then 0.0 else cap + Times(n - 1, cap)
  }

  lemma {:induction false} TimesIsProduct(n: nat, cap: real)
    ensures Times(n, cap) == n as real * cap
  {
    if n > 0 {
      TimesIsProduct(n - 1, cap);
      assert n as real * cap == (n - 1) as real * cap + cap;
    }
  }

  lemma {:induction false} TimesMonotone(n: nat, k: nat, cap: real)
    requires n <= k && cap >= 0.0
    ensures Times(n, cap) <= Times(k, cap)
  {
    if n < k {
      TimesMonotone(n, k - 1, cap);
    }
  }

  /** The sum of entries of at most `cap` each. */
  lemma {:induction false} SumAtMost<K>(m: map<K, real>, cap: real)
    requires forall k :: k in m ==> m[k] <= cap
    ensures Sum(m) <= Times(|m|, cap)
    decreases |m|
  {
    if m != map[] {
      var k :| k in m && Sum(m) == m[k] + Sum(m - {k});
      RemoveCardinality(m, k);
      SumAtMost(m - {k}, cap);
    }
  }

  lemma SubsetSmaller<T>(a: set<T>, b: set<T>)
    requires a <= b
    ensures |a| <= |b|
  {
    assert b == a + (b - a);
  }
}
