/** Sizes of finite sets. */
module Sets {
  lemma SubsetSize<T>(a: set<T>, b: set<T>)
    requires a <= b
    ensures |a| <= |b|
    ensures |a| == |b| <==> a == b
  {
    assert b == a + (b - a);
  }

  /** Pigeonhole: `n` different values in a set make it at least that large. */
  lemma {:induction false} Pigeonhole<T>(f: nat -> T, n: nat, s: set<T>)
    requires forall i, j :: 0 <= i < j < n ==> f(i) != f(j)
    requires forall i :: 0 <= i < n ==> f(i) in s
    ensures |s| >= n
  {
    if n > 0 { Pigeonhole(f, n - 1, s - {f(n - 1)}); }
  }
}
