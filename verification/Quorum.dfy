/** Majorities of a cluster of n servers. */
module Quorum {

  function Servers(n: nat): (r: set<nat>)
    ensures forall s :: s in r <==> 0 <= s < n
    ensures |r| == n
  {
    if n == 0 then {} else Servers(n - 1) + {n - 1}
  }

  ghost predicate Majority(n: nat, q: set<nat>) {
    q <= Servers(n) && 2 * |q| > n
  }

  lemma {:induction false} SubsetCount<T>(a: set<T>, b: set<T>)
    requires a <= b
    ensures |a| <= |b|
  {
    assert b == a + (b - a);
  }

  /** Two majorities share a server. */
  lemma {:induction false} Overlap(n: nat, q: set<nat>, r: set<nat>) returns (s: nat)
    requires Majority(n, q) && Majority(n, r)
    ensures s in q && s in r
  {
    SubsetCount(q + r, Servers(n));
    assert |q + r| == |q| + |r| - |q * r|;
    s :| s in q * r;
  }
}
