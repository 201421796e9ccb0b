/** Totals over the values of a map. */
module Sums {
  ghost function Sum<T(!new)>(m: map<T, nat>): (total: nat)
    decreases |m|
  {
    if m == map[] then 0 else var k :| k in m; m[k] + Sum(m - {k})
  }

  /** The total does not depend on the order in which keys are taken. */
  lemma {:induction false} SumTake<T(!new)>(m: map<T, nat>, k: T)
    requires k in m
    ensures Sum(m) == m[k] + Sum(m - {k})
    decreases |m|
  {
    var c :| c in m && Sum(m) == m[c] + Sum(m - {c});
    if c != k {
      SumTake(m - {c}, k);
      SumTake(m - {k}, c);
      assert m - {c} - {k} == m - {k} - {c};
    }
  }

  lemma SumEmpty<T(!new)>(m: map<T, nat>)
    requires m == map[]
    ensures Sum(m) == 0
  {
  }

  /** Replacing or adding one value moves the total by the difference. */
  lemma SumPut<T(!new)>(m: map<T, nat>, k: T, v: nat)
    ensures Sum(m[k := v]) == Sum(m) - (if k in m then m[k] else 0) + v
  {
    SumTake(m[k := v], k);
    assert m[k := v] - {k} == m - {k};
    if k in m {
      SumTake(m, k);
    } else {
      assert m - {k} == m;
    }
  }
}
