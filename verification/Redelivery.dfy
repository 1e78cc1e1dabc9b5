/** What `take_committed` hands to the state machine over whole runs: which indices have been handed over
    since boot, exactly when one is handed over again, and when that cannot happen. */
module Redelivery {
  import opened Types
  import opened NodeSpec
  import opened Cluster
  import opened Safety

  // ---------------------------------------------------------------- one delivery

  /** The delivery includes the entry at index `x`. */
  ghost predicate Includes(nd: NodeState, x: Index)
    requires nd.commitIndex <= |nd.log|
  {
    exists i :: 0 <= i < |Delivery(nd)| && Delivery(nd)[i].0 == x
  }

  lemma IncludesExactly(nd: NodeState, x: Index)
    requires nd.commitIndex <= |nd.log|
    ensures Includes(nd, x) <==> nd.appliedIndex < x <= nd.commitIndex
  {
    DeliveryIsStretch(nd, nd.commitIndex);
    if nd.appliedIndex < x <= nd.commitIndex {
      assert Delivery(nd)[x - nd.appliedIndex - 1].0 == x;
    }
  }

  // ---------------------------------------------------------------- deliveries in a run

  /** The step after state `k` is a delivery by `u`. */
  ghost predicate Takes(run: seq<System>, k: nat, u: NodeId) {
    k + 1 < |run| && Enabled(run[k], Deliver(u)) && run[k + 1] == Next(run[k], Deliver(u))
  }

  /** In the step after state `k`, `u` hands over the entry at index `x`. */
  ghost predicate Hands(run: seq<System>, k: nat, u: NodeId, x: Index) {
    Takes(run, k, u) && Includes(NodeAt(run[k], u), x)
  }

  /** `u` is freshly booted in state `b` and stays up through state `k`. */
  ghost predicate UpSince(run: seq<System>, b: nat, k: nat, u: NodeId) {
    && b <= k < |run|
    && (b == 0 || !IsUp(run[b - 1], u))
    && forall i {:trigger IsUp(run[i], u)} :: b <= i <= k ==> IsUp(run[i], u)
  }

  /** `u` handed over index `x` somewhere between states `b` and `k`. */
  ghost predicate HandedSince(run: seq<System>, b: nat, k: nat, u: NodeId, x: Index) {
    exists i: nat :: b <= i < k && Hands(run, i, u, x)
  }

  ghost function HighAt(s: System, u: NodeId): Index
    requires IsUp(s, u)
  {
    s.servers[u].high
  }

  lemma FreshlyBooted(run: seq<System>, b: nat, u: NodeId)
    requires IsRun(run) && UpSince(run, b, b, u)
    ensures HighAt(run[b], u) == 0 && NodeAt(run[b], u).appliedIndex == 0 && NodeAt(run[b], u).commitIndex == 0
  {
    assert IsUp(run[b], u);
    if b > 0 {
      assert StepAt(run, b - 1);
      var act :| Enabled(run[b - 1], act) && run[b] == Next(run[b - 1], act);
      assert act.Restart? && act.i == u;
    }
  }

  lemma HandedOneMore(run: seq<System>, b: nat, k: nat, u: NodeId, x: Index)
    requires b <= k
    ensures HandedSince(run, b, k + 1, u, x) <==> HandedSince(run, b, k, u, x) || Hands(run, k, u, x)
  {
  }

  /** How one step moves the high-water mark: a delivery raises it to the commit index, nothing else does. */
  lemma HighMoves(run: seq<System>, k: nat, u: NodeId, x: Index)
    requires IsRun(run) && k + 1 < |run| && IsUp(run[k], u) && IsUp(run[k + 1], u) && x > 0
    ensures x <= HighAt(run[k + 1], u) <==> x <= HighAt(run[k], u) || Hands(run, k, u, x)
  {
    var s, up := run[k], run[k].servers[u];
    NothingOutOfRange(run, k, u);
    StoreIsReplay(run, k, u);
    IncludesExactly(up.node, x);
    assert up.node.appliedIndex <= up.high;
    assert StepAt(run, k);
    var act :| Enabled(s, act) && run[k + 1] == Next(s, act);
    if act.Deliver? && act.i == u {
      assert Takes(run, k, u);
    } else {
      HighStays(s, act, u);
      if Hands(run, k, u, x) {
        TakenMoves(s, run[k + 1], u);
        AppliedStays(s, act, u);
      }
    }
  }

  lemma HighStays(s: System, act: Action, u: NodeId)
    requires Enabled(s, act) && !(act.Deliver? && act.i == u) && IsUp(s, u) && IsUp(Next(s, act), u)
    ensures HighAt(Next(s, act), u) == HighAt(s, u)
  {
  }

  lemma AppliedStays(s: System, act: Action, u: NodeId)
    requires Enabled(s, act) && !(act.Deliver? && act.i == u) && IsUp(s, u) && IsUp(Next(s, act), u)
    ensures NodeAt(Next(s, act), u).appliedIndex == NodeAt(s, u).appliedIndex
  {
    if act.Run? && act.i == u {
      StepShape(NodeAt(s, u), act.input);
    }
  }

  lemma TakenMoves(s: System, s': System, u: NodeId)
    requires Enabled(s, Deliver(u)) && s' == Next(s, Deliver(u))
    ensures IsUp(s', u) && NodeAt(s', u).appliedIndex == NodeAt(s, u).commitIndex
  {
  }

  /** What has been handed over since boot is exactly what lies up to the high-water mark. */
  lemma {:induction false} HandedIsUpToHigh(run: seq<System>, b: nat, k: nat, u: NodeId, x: Index)
    requires IsRun(run) && UpSince(run, b, k, u) && x > 0
    ensures IsUp(run[k], u) && (HandedSince(run, b, k, u, x) <==> x <= HighAt(run[k], u))
    decreases k
  {
    if k == b {
      FreshlyBooted(run, b, u);
    } else {
      HandedIsUpToHigh(run, b, k - 1, u, x);
      HandedOneMore(run, b, k - 1, u, x);
      HighMoves(run, k - 1, u, x);
    }
  }

  // ---------------------------------------------------------------- exactly once

  /** The guard under which a delivery repeats itself: there is something new to the node, but it lies
      below the highest index handed over. */
  ghost predicate Rewound(up: Server)
    requires up.Up?
  {
    up.node.appliedIndex < up.high && up.node.appliedIndex < up.node.commitIndex
  }

  /** In the step after state `k`, `u` hands over an index it has handed over since boot. */
  ghost predicate Repeats(run: seq<System>, b: nat, k: nat, u: NodeId) {
    exists x: Index :: Hands(run, k, u, x) && HandedSince(run, b, k, u, x)
  }

  /** A delivery repeats an index if and only if the guard holds before it. */
  lemma RepeatsExactly(run: seq<System>, b: nat, k: nat, u: NodeId)
    requires IsRun(run) && UpSince(run, b, k, u) && Takes(run, k, u)
    ensures IsUp(run[k], u) && (Repeats(run, b, k, u) <==> Rewound(run[k].servers[u]))
  {
    assert IsUp(run[k], u);
    var nd := NodeAt(run[k], u);
    if Rewound(run[k].servers[u]) {
      var x := nd.appliedIndex + 1;
      IncludesExactly(nd, x);
      HandedIsUpToHigh(run, b, k, u, x);
      assert Hands(run, k, u, x);
    }
    if Repeats(run, b, k, u) {
      var x: Index :| Hands(run, k, u, x) && HandedSince(run, b, k, u, x);
      IncludesExactly(nd, x);
      HandedIsUpToHigh(run, b, k, u, x);
    }
  }

  /** No index is handed over twice between the boot at state `b` and state `k`. */
  ghost predicate OnceEach(run: seq<System>, b: nat, k: nat, u: NodeId) {
    forall i: nat, j: nat, x: Index {:trigger Hands(run, i, u, x), Hands(run, j, u, x)} ::
      b <= i < j < k && Hands(run, i, u, x) ==> !Hands(run, j, u, x)
  }

  ghost predicate NeverRewound(run: seq<System>, b: nat, k: nat, u: NodeId)
    requires UpSince(run, b, k, u)
  {
    forall j: nat {:trigger Takes(run, j, u)} :: b <= j < k && Takes(run, j, u) ==> !Rewound(run[j].servers[u])
  }

  /** Exactly-once delivery, for any node, any time it is up, and any run: every index is handed over at
      most once since boot if and only if the guard was false at every delivery. */
  lemma OnceExactly(run: seq<System>, b: nat, k: nat, u: NodeId)
    requires IsRun(run) && UpSince(run, b, k, u)
    ensures OnceEach(run, b, k, u) <==> NeverRewound(run, b, k, u)
  {
    if NeverRewound(run, b, k, u) {
      forall i: nat, j: nat, x: Index | b <= i < j < k && Hands(run, i, u, x) ensures !Hands(run, j, u, x) {
        if Hands(run, j, u, x) {
          assert HandedSince(run, b, j, u, x);
          RepeatsExactly(run, b, j, u);
        }
      }
    }
    if OnceEach(run, b, k, u) {
      forall j: nat | b <= j < k && Takes(run, j, u) ensures !Rewound(run[j].servers[u]) {
        RepeatsExactly(run, b, j, u);
      }
    }
  }

  // ---------------------------------------------------------------- when it is guaranteed

  /** Between states `b` and `k` the commit index of `u` never moves back. */
  ghost predicate NeverBack(run: seq<System>, b: nat, k: nat, u: NodeId)
    requires UpSince(run, b, k, u)
  {
    forall j: nat {:trigger NodeAt(run[j + 1], u)} :: b <= j < k ==>
      NodeAt(run[j], u).commitIndex <= NodeAt(run[j + 1], u).commitIndex
  }

  lemma {:induction false} AppliedIsHigh(run: seq<System>, b: nat, k: nat, u: NodeId)
    requires IsRun(run) && UpSince(run, b, k, u) && NeverBack(run, b, k, u)
    ensures IsUp(run[k], u) && NodeAt(run[k], u).appliedIndex == HighAt(run[k], u) <= NodeAt(run[k], u).commitIndex
    decreases k
  {
    if k == b {
      FreshlyBooted(run, b, u);
    } else {
      assert IsUp(run[k - 1], u) && IsUp(run[k], u);
      AppliedIsHigh(run, b, k - 1, u);
      assert NodeAt(run[k - 1 + 1], u) == NodeAt(run[k], u);
      AppliedIsHighNext(run, k - 1, u);
    }
  }

  lemma AppliedIsHighNext(run: seq<System>, k: nat, u: NodeId)
    requires IsRun(run) && k + 1 < |run| && IsUp(run[k], u) && IsUp(run[k + 1], u)
    requires NodeAt(run[k], u).appliedIndex == HighAt(run[k], u) <= NodeAt(run[k], u).commitIndex
    requires NodeAt(run[k], u).commitIndex <= NodeAt(run[k + 1], u).commitIndex
    ensures NodeAt(run[k + 1], u).appliedIndex == HighAt(run[k + 1], u) <= NodeAt(run[k + 1], u).commitIndex
  {
    assert StepAt(run, k);
    var act :| Enabled(run[k], act) && run[k + 1] == Next(run[k], act);
    if !(act.Deliver? && act.i == u) {
      HighStays(run[k], act, u);
      AppliedStays(run[k], act, u);
    }
  }

  /** As long as the commit index does not move back, each entry is delivered once. */
  lemma OnceUnlessBack(run: seq<System>, b: nat, k: nat, u: NodeId)
    requires IsRun(run) && UpSince(run, b, k, u) && NeverBack(run, b, k, u)
    ensures OnceEach(run, b, k, u)
  {
    forall j: nat | b <= j < k && Takes(run, j, u) ensures !Rewound(run[j].servers[u]) {
      assert IsUp(run[j], u);
      AppliedIsHigh(run, b, j, u);
    }
    OnceExactly(run, b, k, u);
  }
}
