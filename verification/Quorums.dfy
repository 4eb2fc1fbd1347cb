/** Any two majorities of the same n nodes share a node. */
module Quorums {

  predicate IsQuorum(q: set<nat>, n: nat)
  {
    (forall v | v in q :: v < n) && |q| >= n / 2 + 1
  }

  lemma {:induction false} Bounded(s: set<nat>, n: nat)
    requires forall v | v in s :: v < n
    ensures |s| <= n
  {
    if n == 0 {
      assert s == {};
    } else {
      Bounded(s - {n - 1}, n - 1);
    }
  }

  lemma Intersect(a: set<nat>, b: set<nat>, n: nat) returns (v: nat)
    requires IsQuorum(a, n) && IsQuorum(b, n)
    ensures v in a && v in b
  {
    assert a !! b ==> |a + b| == |a| + |b|;
    if a !! b {
      Bounded(a + b, n);
    }
    v :| v in a && v in b;
  }
}
