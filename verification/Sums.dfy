/** The sum of a finite map's values, independent of the order its keys are visited in. */
module Sums {

  ghost function Sum<K>(m: map<K, int>): int
    decreases |m|
  {
    if m == map[] then 0
    else
      var k :| k in m;
      assert |(m - {k}).Keys| < |m.Keys|;
      m[k] + Sum(m - {k})
  }

  lemma {:induction false} SumTakesAnyKey<K>(m: map<K, int>, k: K)
    requires k in m
    ensures Sum(m) == m[k] + Sum(m - {k})
    decreases |m|
  {
    var first :| first in m && Sum(m) == m[first] + Sum(m - {first});
    if first != k {
      assert |(m - {first}).Keys| < |m.Keys|;
      assert |(m - {k}).Keys| < |m.Keys|;
      SumTakesAnyKey(m - {first}, k);
      SumTakesAnyKey(m - {k}, first);
      assert m - {first} - {k} == m - {k} - {first};
    }
  }

  /** What a missing key contributes is zero. */
  ghost function At<K>(m: map<K, int>, k: K): int {
    if k in m then m[k] else 0
  }

  lemma SumAfterUpdate<K>(m: map<K, int>, k: K, v: int)
    ensures Sum(m[k := v]) == Sum(m) - At(m, k) + v
  {
    SumTakesAnyKey(m[k := v], k);
    if k in m {
      SumTakesAnyKey(m, k);
      assert m[k := v] - {k} == m - {k};
    } else {
      assert m[k := v] - {k} == m;
    }
  }

  lemma {:induction false} SumOfSums<K>(a: map<K, int>, b: map<K, int>, c: map<K, int>)
    requires a.Keys == b.Keys == c.Keys
    requires forall k :: k in a ==> c[k] == a[k] + b[k]
    ensures Sum(c) == Sum(a) + Sum(b)
    decreases |a|
  {
    if a != map[] {
      var k :| k in a;
      SumTakesAnyKey(a, k);
      SumTakesAnyKey(b, k);
      SumTakesAnyKey(c, k);
      assert |(a - {k}).Keys| < |a.Keys|;
      SumOfSums(a - {k}, b - {k}, c - {k});
    }
  }
}
