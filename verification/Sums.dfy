/** Sums over finite maps. */
module Sums {
  /** The sum of all values. */
  ghost function Total<K>(m: map<K, nat>): nat
    decreases m.Keys
  {
    if m.Keys == {} then 0
    else
      var k :| k in m.Keys;
      m[k] + Total(m - {k})
  }

  /** The sum can be peeled off at any key, not only at the one the definition picks. */
  lemma {:induction false} TotalPeel<K>(m: map<K, nat>, k: K)
    requires k in m
    ensures Total(m) == m[k] + Total(m - {k})
    decreases m.Keys
  {
    var p :| p in m.Keys && Total(m) == m[p] + Total(m - {p});
    if p != k {
      TotalPeel(m - {p}, k);
      TotalPeel(m - {k}, p);
      assert m - {p} - {k} == m - {k} - {p};
    }
  }

  lemma {:induction false} TotalUpdate<K>(m: map<K, nat>, k: K, v: nat)
    ensures Total(m[k := v]) == Total(m) - (if k in m then m[k] else 0) + v
  {
    TotalPeel(m[k := v], k);
    assert m[k := v] - {k} == m - {k};
    if k in m {
      TotalPeel(m, k);
    } else {
      assert m - {k} == m;
    }
  }
}
