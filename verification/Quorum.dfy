/** Majorities: any two of them share a node, and a count over a boolean vector that reaches
    `n / 2 + 1` names one. */
module Quorum {

  function QuorumSize(n: nat): nat {
    n / 2 + 1
  }

  ghost predicate IsQuorum(n: nat, q: set<nat>) {
    (forall v :: v in q ==> v < n) && |q| >= QuorumSize(n)
  }

  ghost function Below(n: nat): (s: set<nat>)
    ensures |s| == n && forall v: nat :: v in s <==> v < n
  {
    if n == 0 then {} else Below(n - 1) + {n - 1}
  }

  lemma SubsetSize<T>(small: set<T>, big: set<T>)
    requires small <= big
    ensures |small| <= |big|
  {
    assert big == small + (big - small);
  }

  /** The heart of every Raft argument: two majorities of the same cluster meet. */
  lemma QuorumsMeet(n: nat, q: set<nat>, r: set<nat>) returns (v: nat)
    requires IsQuorum(n, q) && IsQuorum(n, r)
    ensures v in q && v in r
  {
    if q * r == {} {
      SubsetSize(q + r, Below(n));
      assert false;
    }
    v :| v in q * r;
  }

  /** How many positions of the vector are set. */
  function CountTrue(bits: seq<bool>): nat {
    if bits == [] then 0 else CountTrue(bits[..|bits| - 1]) + if bits[|bits| - 1] then 1 else 0
  }

  ghost function Trues(bits: seq<bool>): set<nat> {
    set v: nat | v < |bits| && bits[v]
  }

  lemma {:induction false} CountIsSize(bits: seq<bool>)
    ensures |Trues(bits)| == CountTrue(bits)
  {
    if bits == [] {
      assert Trues(bits) == {};
    } else {
      var front := bits[..|bits| - 1];
      CountIsSize(front);
      assert Trues(bits) == Trues(front) + if bits[|bits| - 1] then {|bits| - 1} else {};
    }
  }

  /** Counting to the quorum size over a vector of cluster length really does exhibit a majority. */
  lemma {:induction false} CountedQuorum(n: nat, bits: seq<bool>)
    requires |bits| == n
    ensures CountTrue(bits) >= QuorumSize(n) <==> IsQuorum(n, Trues(bits))
  {
    CountIsSize(bits);
  }
}
