/** How a follower learns what is committed: once its log is repaired, one more heartbeat brings its commit
    index to the leader's, unless it already knew of more. */
module CatchUp {
  import opened Types
  import opened NodeSpec
  import opened Cluster
  import opened Effects
  import opened Safety
  import opened Origins
  import opened Repair
  import Replication

  // ---------------------------------------------------------------- one more heartbeat

  lemma EmptyAppend(l: NodeState, f: NodeState, p: NodeId)
    requires Shape(l) && l.role == Leader && p < l.n && l.id < f.n && l.matchIndex[p] >= |l.log|
    requires Shape(f) && l.id != f.id && f.term <= l.term && f.log == l.log && l.commitIndex <= |l.log|
    ensures var f' := Step(f, Receive(l.id, AppendTo(l, p))).node;
            f'.log == f.log && f'.commitIndex == Max(l.commitIndex, f.commitIndex)
  {
    AppendCarries(l, p);
    AppendMerged(f, l.id, AppendTo(l, p));
  }

  /** The leader has its log and its commit index still, and the follower has that log. */
  ghost predicate CaughtUp(s: System, s': System, i: NodeId, p: NodeId, t: Term) {
    && IsUp(s, i) && IsUp(s, p) && Leads(s', i, t) && IsUp(s', p) && NodeAt(s', p).term <= t
    && NodeAt(s', i).log == NodeAt(s, i).log == NodeAt(s', p).log
    && NodeAt(s', i).commitIndex == NodeAt(s, i).commitIndex
    && NodeAt(s', p).commitIndex == Max(NodeAt(s, i).commitIndex, NodeAt(s, p).commitIndex)
  }

  /** The leader's heartbeat, and the follower's handling of it. */
  lemma HeartbeatHeard(run: seq<System>, i: NodeId, p: NodeId, t: Term) returns (run': seq<System>)
    requires IsRun(run) && Pair(Last(run), i, p, t)
    requires NodeAt(Last(run), i).matchIndex[p] >= |NodeAt(Last(run), i).log|
    ensures IsRun(run') && run <= run' && |run'| == |run| + 2
    ensures Calls(run', |run| - 1, i, Tick(true)) && Answers(run', |run|, p, i)
    ensures CaughtUp(Last(run), Last(run'), i, p, t)
  {
    PairSound(run, i, p, t);
    NothingOutOfRange(run, |run| - 1, i);
    EmptyAppend(NodeAt(Last(run), i), NodeAt(Last(run), p), p);
    var s1, s2 := HeartbeatSteps(run, i, p, t);
    run' := run + [s1] + [s2];
  }

  lemma HeartbeatSteps(run: seq<System>, i: NodeId, p: NodeId, t: Term) returns (s1: System, s2: System)
    requires IsRun(run) && Pair(Last(run), i, p, t)
    ensures IsRun(run + [s1] + [s2]) && Pair(s2, i, p, t) && NodeAt(s2, i) == NodeAt(Last(run), i)
    ensures var l, f := NodeAt(Last(run), i), NodeAt(Last(run), p);
            Shape(f) && NodeAt(s2, p) == Step(f, Receive(i, AppendTo(l, p))).node
    ensures Calls(run + [s1] + [s2], |run| - 1, i, Tick(true)) && Answers(run + [s1] + [s2], |run|, p, i)
  {
    s1 := KickOff(run, i, p, t);
    s2 := PeerCalled(run + [s1], i, p, t, AppendTo(NodeAt(Last(run), i), p));
    TwoCalls(run, s1, s2, i, p, t);
  }

  lemma TwoCalls(run: seq<System>, s1: System, s2: System, i: NodeId, p: NodeId, t: Term)
    requires |run| > 0 && Talking(run + [s1], |run| - 1, i, p, t) && Primed(run + [s1], i, p)
    requires Calls(run + [s1] + [s2], |run|, p, Receive(i, AppendTo(NodeAt(s1, i), p)))
    ensures Calls(run + [s1] + [s2], |run| - 1, i, Tick(true)) && Answers(run + [s1] + [s2], |run|, p, i)
  {
    CallsLonger(run + [s1], s2, |run| - 1, i, Tick(true));
    SentLonger(run + [s1], s2, |run|, i, AppendFor(NodeAt(s1, i), p));
  }

  // ---------------------------------------------------------------- who can know of more

  lemma LeaderCommitStep(nd: NodeState, input: Input)
    requires Shape(nd) && nd.role == Leader && Step(nd, input).node.role == Leader
    ensures nd.commitIndex <= Step(nd, input).node.commitIndex
  {
    Replication.CommitMovesBack(nd, input);
    if Replication.Regressive(nd, input) {
      AppendAccepted(nd, input.from, input.message);
    }
  }

  lemma CommitKeptByStep(s: System, s': System, u: NodeId, t: Term)
    requires IsStep(s, s') && Leads(s, u, t) && Leads(s', u, t)
    ensures NodeAt(s, u).commitIndex <= NodeAt(s', u).commitIndex
  {
    var act :| Enabled(s, act) && s' == Next(s, act);
    if act.Run? && act.i == u {
      LeaderCommitStep(NodeAt(s, u), act.input);
    }
  }

  /** Throughout a leadership the commit index never goes down. */
  lemma {:induction false} LeaderCommitGrows(run: seq<System>, j: nat, k: nat, u: NodeId, t: Term)
    requires IsRun(run) && j <= k < |run| && Leads(run[j], u, t) && Leads(run[k], u, t)
    ensures NodeAt(run[j], u).commitIndex <= NodeAt(run[k], u).commitIndex
    decreases k - j
  {
    if j < k {
      if !Leads(run[k - 1], u, t) {
        SingleTenure(run, j, k - 1, k, u, t);
      }
      LeaderCommitGrows(run, j, k - 1, u, t);
      assert StepAt(run, k - 1);
      CommitKeptByStep(run[k - 1], run[k], u, t);
    }
  }

  /** The node has committed an entry of its own term. */
  predicate OwnTermCommitted(nd: NodeState) {
    0 < nd.commitIndex <= |nd.log| && TermAt(nd.log, nd.commitIndex) == nd.term
  }

  /** The entries a node has committed are of terms up to its own. */
  lemma CommittedTerm(run: seq<System>, k: nat, u: NodeId, n: nat)
    requires IsRun(run) && k < |run| && IsUp(run[k], u) && n < |Committed(run[k], u)|
    ensures Committed(run[k], u)[n].term <= NodeAt(run[k], u).term
  {
    NothingOutOfRange(run, k, u);
    TermsInOrder(run, k, u, n, n);
  }

  /** Whoever holds the leader's log, in no later term, has committed no more than a leader that has committed
      an entry of its own term: what an earlier leader announced lies before that entry. */
  lemma {:induction false} NobodyAhead(run: seq<System>, k: nat, i: NodeId, p: NodeId, t: Term)
    requires IsRun(run) && k < |run| && Leads(run[k], i, t) && OwnTermCommitted(NodeAt(run[k], i))
    requires IsUp(run[k], p) && NodeAt(run[k], p).term <= t && NodeAt(run[k], p).log == NodeAt(run[k], i).log
    ensures NodeAt(run[k], p).commitIndex <= NodeAt(run[k], i).commitIndex
  {
    if NodeAt(run[k], p).commitIndex > 0 {
      var j, v := CommitHasLeader(run, k, p);
      var c := NodeAt(run[k], p).commitIndex;
      NothingOutOfRange(run, k, p);
      assert |Committed(run[k], p)| == c;
      if AdvancesInTerm(run, j, v) == t {
        ElectionSafety(run, j + 1, k, v, i, t);
        LeaderCommitGrows(run, j + 1, k, i, t);
      } else {
        CommittedTerm(run, j + 1, v, c - 1);
        EarlierTerm(run, k, i, c, AdvancesInTerm(run, j, v));
      }
    }
  }

  lemma EarlierTerm(run: seq<System>, k: nat, i: NodeId, c: Index, t0: Term)
    requires IsRun(run) && k < |run| && IsUp(run[k], i) && OwnTermCommitted(NodeAt(run[k], i))
    requires 0 < c <= |NodeAt(run[k], i).log| && TermAt(NodeAt(run[k], i).log, c) <= t0 < NodeAt(run[k], i).term
    ensures c < NodeAt(run[k], i).commitIndex
  {
    var l := NodeAt(run[k], i);
    NothingOutOfRange(run, k, i);
    if c >= l.commitIndex {
      TermsInOrder(run, k, i, l.commitIndex - 1, c - 1);
    }
  }

  // ---------------------------------------------------------------- to the end

  /** Commit repair: any run in which node `i` leads term `t` goes on as in log repair, and then, from a state
      that is `run'`'s last, with one more heartbeat and its handling. After it the follower's commit index is
      the greater of the two there were. It equals the leader's if and only if the follower did not know of
      more before, and it always does when the leader has committed an entry of its own term. */
  lemma {:induction false} CommitRepair(run: seq<System>, i: NodeId, p: NodeId, t: Term)
    returns (run': seq<System>, run'': seq<System>)
    requires IsRun(run) && Pair(Last(run), i, p, t)
    ensures IsRun(run'') && run <= run' <= run'' && |run''| == |run'| + 2
    ensures |run'| <= |run| + 1 + 2 * Rounds(NodeAt(Last(run), i), NodeAt(Last(run), p), p)
    ensures |run'| > 0 && SelfDriven(run', |run| - 1, i, p) && Repaired(Last(run), Last(run'), i, p, t)
    ensures Calls(run'', |run'| - 1, i, Tick(true)) && Answers(run'', |run'|, p, i)
    ensures CaughtUp(Last(run'), Last(run''), i, p, t)
    ensures NodeAt(Last(run''), p).commitIndex == NodeAt(Last(run''), i).commitIndex <==>
              NodeAt(Last(run'), p).commitIndex <= NodeAt(Last(run'), i).commitIndex
    ensures OwnTermCommitted(NodeAt(Last(run'), i)) ==>
              NodeAt(Last(run''), p).commitIndex == NodeAt(Last(run''), i).commitIndex
  {
    run' := LogRepair(run, i, p, t);
    run'' := HeartbeatHeard(run', i, p, t);
    if OwnTermCommitted(NodeAt(Last(run'), i)) {
      NobodyAhead(run'', |run''| - 1, i, p, t);
    }
  }
}
