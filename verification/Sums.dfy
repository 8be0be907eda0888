/** Finite sums of natural numbers, for termination measures. */
module Sums {

  ghost function Sum<T(!new)>(m: map<T, nat>): nat
    decreases |m|
  {
    if m == map[] then 0
    else
      var k :| k in m;
      m[k] + Sum(m - {k})
  }

  lemma {:induction false} SumWithout<T(!new)>(m: map<T, nat>, k: T)
    requires k in m
    ensures Sum(m) == m[k] + Sum(m - {k})
    decreases |m|
  {
    var j :| j in m && Sum(m) == m[j] + Sum(m - {j});
    if j != k {
      SumWithout(m - {j}, k);
      SumWithout(m - {k}, j);
      assert m - {j} - {k} == m - {k} - {j};
    }
  }

  /** Where no summand rises the sum does not, and it falls when one of them falls. */
  lemma {:induction false} SumDrops<T(!new)>(m: map<T, nat>, m': map<T, nat>)
    requires m'.Keys == m.Keys && forall k | k in m :: m'[k] <= m[k]
    ensures Sum(m') <= Sum(m)
    ensures (exists k :: k in m && m'[k] < m[k]) ==> Sum(m') < Sum(m)
    decreases |m|
  {
    if m == map[] {
      assert m' == map[];
    } else {
      var x :| x in m;
      if y :| y in m && m'[y] < m[y] { x := y; }
      SumWithout(m, x);
      SumWithout(m', x);
      SumDrops(m - {x}, m' - {x});
    }
  }

  lemma OneLess<T(!new)>(m: map<T, nat>, k: T)
    requires k in m
    ensures |m - {k}| == |m| - 1
  {
    assert (m - {k}).Keys == m.Keys - {k};
    assert |m - {k}| == |(m - {k}).Keys| && |m| == |m.Keys|;
  }

  lemma OneMoreTimes(bound: nat, n: nat)
    ensures bound * (n + 1) == bound * n + bound
  {
  }

  lemma {:induction false} SumIsBounded<T(!new)>(m: map<T, nat>, bound: nat)
    requires forall k | k in m :: m[k] <= bound
    ensures Sum(m) <= bound * |m|
    decreases |m|
  {
    if m != map[] {
      var k :| k in m;
      SumWithout(m, k);
      OneLess(m, k);
      SumIsBounded(m - {k}, bound);
      OneMoreTimes(bound, |m - {k}|);
    }
  }
}
