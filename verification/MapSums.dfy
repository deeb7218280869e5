// Sums over finite maps.
module MapSums {
  ghost function SumOf(m: map<nat, nat>): nat
    decreases |m|
  {
    if m == map[] then 0
    else
      var k :| k in m;
      m[k] + SumOf(m - {k})
  }

  lemma {:induction false} SumRemove(m: map<nat, nat>, k: nat)
    requires k in m
    ensures SumOf(m) == m[k] + SumOf(m - {k})
    decreases |m|
  {
    var x :| x in m && SumOf(m) == m[x] + SumOf(m - {x});
    if x != k {
      SumRemove(m - {x}, k);
      SumRemove(m - {k}, x);
      assert m - {x} - {k} == m - {k} - {x};
    }
  }

  lemma SumUpdate(m: map<nat, nat>, k: nat, v: nat)
    requires k in m
    ensures SumOf(m[k := v]) == SumOf(m) - m[k] + v
  {
    SumRemove(m, k);
    SumRemove(m[k := v], k);
    assert m[k := v] - {k} == m - {k};
  }

  lemma {:induction false} SumMonotone(m: map<nat, nat>, n: map<nat, nat>)
    requires m.Keys == n.Keys && forall k :: k in m ==> m[k] <= n[k]
    ensures SumOf(m) <= SumOf(n)
    decreases |m|
  {
    if m != map[] {
      var k :| k in m;
      SumRemove(m, k);
      SumRemove(n, k);
      SumMonotone(m - {k}, n - {k});
    }
  }

  lemma {:induction false} SumZero(m: map<nat, nat>)
    requires forall k :: k in m ==> m[k] == 0
    ensures SumOf(m) == 0
    decreases |m|
  {
    if m != map[] {
      var k :| k in m;
      SumRemove(m, k);
      SumZero(m - {k});
    }
  }
}
