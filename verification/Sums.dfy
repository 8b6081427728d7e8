/** Sums over the values of a finite map. */
module Sums {

  ghost function Sum<K, V>(m: map<K, V>, w: V -> nat): nat
    decreases |m|
  {
    if m == map[] then 0
    else
      var k :| k in m;
      w(m[k]) + Sum(m - {k}, w)
  }

  /** The order in which keys are taken does not matter. */
  lemma {:induction false} SumRemove<K, V>(m: map<K, V>, k: K, w: V -> nat)
    requires k in m
    ensures Sum(m, w) == w(m[k]) + Sum(m - {k}, w)
    decreases |m|
  {
    var first :| first in m && Sum(m, w) == w(m[first]) + Sum(m - {first}, w);
    if first != k {
      SumRemove(m - {first}, k, w);
      SumRemove(m - {k}, first, w);
      assert m - {first} - {k} == m - {k} - {first};
    }
  }

  lemma SumUpdate<K, V>(m: map<K, V>, k: K, v: V, w: V -> nat)
    ensures Sum(m[k := v], w) + (if k in m then w(m[k]) else 0) == Sum(m, w) + w(v)
  {
    var m' := m[k := v];
    SumRemove(m', k, w);
    if k in m {
      SumRemove(m, k, w);
      assert m' - {k} == m - {k};
    } else {
      assert m' - {k} == m;
    }
  }
}
