/** Where commit indices come from: only a leader's scan moves the frontier; everyone else repeats
    what some leader announced. So what any node believes committed was committed by a leader. */
module Origins {
  import opened Types
  import opened NodeSpec
  import opened Cluster
  import opened Effects
  import opened Safety

  /** In the step from `run[j]` to the next state, `u` advanced its commit index and is a leader. */
  ghost predicate Advances(run: seq<System>, j: nat, u: NodeId) {
    && j + 1 < |run| && IsUp(run[j], u) && IsUp(run[j + 1], u)
    && NodeAt(run[j + 1], u).role == Leader
    && NodeAt(run[j], u).commitIndex < NodeAt(run[j + 1], u).commitIndex
  }

  ghost function AdvancesInTerm(run: seq<System>, j: nat, u: NodeId): Term
    requires Advances(run, j, u)
  {
    NodeAt(run[j + 1], u).term
  }

  /** Some leader of the run, of term `t` or before, advanced its commit index to `c` or beyond. */
  ghost predicate Announced(run: seq<System>, c: Index, t: Term) {
    c == 0 ||
    exists j, u :: Advances(run, j, u) && AdvancesInTerm(run, j, u) <= t && c <= NodeAt(run[j + 1], u).commitIndex
  }

  // ---------------------------------------------------------------- one call

  ghost predicate Announces(out: seq<Outgoing>, c: Index, t: Term) {
    forall o :: o in out && o.message.AppendEntries? ==> o.message.leaderCommit == c && o.message.term == t
  }

  lemma {:induction false} BroadcastAnnounces(nd: NodeState)
    requires Shape(nd) && nd.role == Leader
    ensures Announces(NodeSpec.BroadcastAppend(nd, nd.n), nd.commitIndex, nd.term)
  {
    BroadcastIsAll(nd, nd.n);
  }

  lemma {:induction false} ScanNotBelow(nd: NodeState, k: Index)
    requires |nd.matchIndex| == nd.n && k <= |nd.log|
    ensures CommitScan(nd, k) >= nd.commitIndex
    decreases k
  {
    if k > nd.commitIndex && TermAt(nd.log, k) == nd.term && Replicas(nd, k) < Quorum.QuorumSize(nd.n) {
      ScanNotBelow(nd, k - 1);
    }
  }

  /** How a call may change the commit index, and what it tells others. */
  ghost predicate Sourced(nd: NodeState, heard: Index, step: StepOut) {
    && Announces(step.out, step.node.commitIndex, step.node.term)
    && (step.node.commitIndex > nd.commitIndex ==> step.node.role == Leader || step.node.commitIndex <= heard)
    && (step.node.commitIndex < nd.commitIndex ==> step.node.commitIndex <= heard)
  }

  lemma LeadSourced(nd: NodeState)
    requires Shape(nd)
    ensures Sourced(nd, 0, NodeSpec.BecomeLeader(nd))
  {
    var nd' := Crowned(nd);
    ScanNotBelow(nd', |nd'.log|);
    BroadcastAnnounces(AdvanceCommit(nd'));
  }

  lemma ElectionSourced(nd: NodeState)
    requires Shape(nd)
    ensures Sourced(nd, 0, NodeSpec.StartElection(nd))
  {
    LeadSourced(Candidacy(nd));
    VoteBroadcastIsAll(Candidacy(nd), nd.n);
  }

  lemma ProposeSourced(nd: NodeState, command: seq<byte>)
    requires Shape(nd)
    ensures Sourced(nd, 0, OnPropose(nd, command))
  {
    if nd.role == Leader {
      var nd' := Lengthened(nd, command);
      ScanNotBelow(nd', |nd'.log|);
      BroadcastAnnounces(AdvanceCommit(nd'));
    }
  }

  lemma ResponseSourced(nd: NodeState, from: NodeId, term: Term, success: bool, index: Index)
    requires Shape(nd) && from < nd.n
    ensures Sourced(nd, 0, OnAppendResponse(nd, from, term, success, index))
  {
    if nd.role == Leader && term == nd.term {
      var nd' := Noted(nd, from, success, index);
      ScanNotBelow(nd', |nd'.log|);
    }
  }

  ghost function Heard(input: Input): Index {
    if input.Receive? && input.message.AppendEntries? then input.message.leaderCommit else 0
  }

  lemma MessageSourced(nd: NodeState, from: NodeId, msg: Message)
    requires Shape(nd) && from < nd.n
    ensures Sourced(nd, Heard(Receive(from, msg)), OnMessage(nd, from, msg))
  {
    match msg
    case RequestVote(term, index, last) =>
    case VoteResponse(term, granted) =>
      if nd.role == Candidate && term == nd.term && granted {
        LeadSourced(nd.(votes := nd.votes[from := true]));
      }
    case AppendEntries(term, prev, prevTerm, entries, commit) =>
    case AppendResponse(term, success, index) =>
      ResponseSourced(nd, from, term, success, index);
  }

  lemma StepSourced(nd: NodeState, input: Input)
    requires Shape(nd)
    ensures Sourced(nd, Heard(input), Step(nd, input))
  {
    match input
    case Tick(due) =>
      if due && nd.role == Leader {
        BroadcastAnnounces(nd);
      } else if due {
        ElectionSourced(nd);
      }
    case Receive(from, msg) =>
      if from != nd.id && from < nd.n {
        MessageSourced(if msg.term > nd.term then NodeSpec.StepDown(nd, msg.term).node else nd, from, msg);
      }
    case Propose(command) => ProposeSourced(nd, command);
  }

  // ---------------------------------------------------------------- runs

  ghost predicate AllAnnounced(run: seq<System>, s: System) {
    && (forall u {:trigger IsUp(s, u)} :: IsUp(s, u) ==> Announced(run, NodeAt(s, u).commitIndex, NodeAt(s, u).term))
    && (forall m :: m in s.sent && m.message.AppendEntries? ==> Announced(run, m.message.leaderCommit, m.message.term))
  }

  /** It stays announced as the run goes on, and so is any lower index, for any later term. */
  lemma AnnouncedLonger(run: seq<System>, s: System, c: Index, t: Term, c': Index, t': Term)
    requires Announced(run, c, t) && c' <= c && t <= t'
    ensures Announced(run + [s], c', t')
  {
    if c' > 0 {
      var j, u :|
        Advances(run, j, u) && AdvancesInTerm(run, j, u) <= t && c <= NodeAt(run[j + 1], u).commitIndex;
      assert Advances(run + [s], j, u) && AdvancesInTerm(run + [s], j, u) == AdvancesInTerm(run, j, u);
    }
  }

  lemma HeardInTerm(nd: NodeState, input: Input)
    requires Shape(nd)
    ensures nd.term <= Step(nd, input).node.term
    ensures input.Receive? && Step(nd, input).node.commitIndex != nd.commitIndex ==>
              input.message.term <= Step(nd, input).node.term
  {
    StepShape(nd, input);
    if input.Receive? {
      StrangersIgnored(nd, input.from, input.message);
      if input.from < nd.n && input.from != nd.id {
        LaterTermAdopted(nd, input.from, input.message);
      }
    }
  }

  lemma RunAnnounced(run: seq<System>, i: NodeId, input: Input, s': System)
    requires |run| > 0 && AllAnnounced(run, run[|run| - 1]) && Available(run[|run| - 1], i, input)
    requires s' == Next(run[|run| - 1], Run(i, input))
    ensures Announced(run + [s'], NodeAt(s', i).commitIndex, NodeAt(s', i).term)
    ensures Announces(Step(NodeAt(run[|run| - 1], i), input).out, NodeAt(s', i).commitIndex, NodeAt(s', i).term)
  {
    var s := run[|run| - 1];
    var nd, nd' := NodeAt(s, i), NodeAt(s', i);
    StepSourced(nd, input);
    HeardInTerm(nd, input);
    assert IsUp(s, i);
    if nd'.commitIndex == nd.commitIndex {
      AnnouncedLonger(run, s', nd.commitIndex, nd.term, nd'.commitIndex, nd'.term);
    } else if nd'.commitIndex > nd.commitIndex && nd'.role == Leader {
      assert Advances(run + [s'], |run| - 1, i);
      assert AdvancesInTerm(run + [s'], |run| - 1, i) <= nd'.term;
    } else if input.Receive? && input.message.AppendEntries? {
      AnnouncedLonger(run, s', input.message.leaderCommit, input.message.term, nd'.commitIndex, nd'.term);
    }
  }

  lemma StepAnnounced(run: seq<System>, s': System)
    requires |run| > 0 && AllAnnounced(run, run[|run| - 1]) && IsStep(run[|run| - 1], s')
    ensures AllAnnounced(run + [s'], s')
  {
    var s := run[|run| - 1];
    var act :| Enabled(s, act) && s' == Next(s, act);
    if act.Run? {
      RunAnnounced(run, act.i, act.input, s');
    }
    forall u | IsUp(s', u) ensures Announced(run + [s'], NodeAt(s', u).commitIndex, NodeAt(s', u).term) {
      if !(act.Run? && act.i == u) && IsUp(s, u) {
        var nd := NodeAt(s, u);
        AnnouncedLonger(run, s', nd.commitIndex, nd.term, nd.commitIndex, nd.term);
      }
    }
    forall m | m in s'.sent && m.message.AppendEntries?
      ensures Announced(run + [s'], m.message.leaderCommit, m.message.term)
    {
      if m in s.sent {
        var c, t := m.message.leaderCommit, m.message.term;
        AnnouncedLonger(run, s', c, t, c, t);
      }
    }
  }

  lemma AnnouncedAtEnd(run: seq<System>)
    requires IsRun(run) && |run| > 1 && AllAnnounced(run[..|run| - 1], run[|run| - 2])
    ensures AllAnnounced(run, run[|run| - 1])
  {
    var front, s := run[..|run| - 1], run[|run| - 1];
    assert StepAt(run, |run| - 2) && front[|front| - 1] == run[|run| - 2];
    StepAnnounced(front, s);
    assert run == front + [s];
  }

  lemma {:induction false} RunIsAnnounced(run: seq<System>)
    requires IsRun(run)
    ensures AllAnnounced(run, run[|run| - 1])
    decreases |run|
  {
    if |run| > 1 {
      PrefixIsRun(run, |run| - 1);
      RunIsAnnounced(run[..|run| - 1]);
      AnnouncedAtEnd(run);
    }
  }

  /** Some leader, of term `t` or before, had advanced its commit index to `c` or beyond before state `k`. */
  ghost predicate AnnouncedBefore(run: seq<System>, k: nat, c: Index, t: Term)
    requires k < |run|
  {
    exists j: nat, v: NodeId ::
      j < k && Advances(run, j, v) && AdvancesInTerm(run, j, v) <= t && c <= NodeAt(run[j + 1], v).commitIndex
  }

  lemma AnnouncedInPrefix(run: seq<System>, k: nat, c: Index, t: Term)
    requires k < |run| && 0 < c && Announced(run[..k + 1], c, t)
    ensures AnnouncedBefore(run, k, c, t)
  {
    var upTo := run[..k + 1];
    var j, v :|
      Advances(upTo, j, v) && AdvancesInTerm(upTo, j, v) <= t && c <= NodeAt(upTo[j + 1], v).commitIndex;
    assert Advances(run, j, v) && AdvancesInTerm(run, j, v) == AdvancesInTerm(upTo, j, v);
  }

  lemma {:induction false} NodeAnnounced(run: seq<System>, k: nat, u: NodeId)
    requires IsRun(run) && k < |run| && IsUp(run[k], u)
    ensures Announced(run[..k + 1], NodeAt(run[k], u).commitIndex, NodeAt(run[k], u).term)
  {
    PrefixIsRun(run, k + 1);
    RunIsAnnounced(run[..k + 1]);
    assert IsUp(run[..k + 1][k], u);
  }

  lemma {:induction false} ShorterIsPrefix(run: seq<System>, j: nat, k: nat, u: NodeId, v: NodeId)
    requires IsRun(run) && j < |run| && k < |run| && IsUp(run[j], u) && IsUp(run[k], v)
    requires NodeAt(run[j], u).commitIndex <= NodeAt(run[k], v).commitIndex
    ensures Committed(run[j], u) <= Committed(run[k], v)
  {
    CommittedAgree(run, j, k, u, v);
    NothingOutOfRange(run, j, u);
    NothingOutOfRange(run, k, v);
  }

  /** Whatever a node believes committed, at any time, some leader of no later term had committed before,
      and the believer's prefix is a prefix of that leader's. */
  lemma CommitHasLeader(run: seq<System>, k: nat, u: NodeId) returns (j: nat, v: NodeId)
    requires IsRun(run) && k < |run| && IsUp(run[k], u) && NodeAt(run[k], u).commitIndex > 0
    ensures j < k && Advances(run, j, v) && Committed(run[k], u) <= Committed(run[j + 1], v)
    ensures AdvancesInTerm(run, j, v) <= NodeAt(run[k], u).term
  {
    var c, t := NodeAt(run[k], u).commitIndex, NodeAt(run[k], u).term;
    NodeAnnounced(run, k, u);
    AnnouncedInPrefix(run, k, c, t);
    j, v :| j < k && Advances(run, j, v) && AdvancesInTerm(run, j, v) <= t && c <= NodeAt(run[j + 1], v).commitIndex;
    ShorterIsPrefix(run, k, j + 1, u, v);
  }

  lemma {:induction false} AdvanceIsHeld(run: seq<System>, i: nat, k: nat, w: NodeId, v: NodeId, t: Term)
    requires IsRun(run) && i < k < |run| && Advances(run, i, w) && Leads(run[k], v, t) && NoLaterAdvance(run, k, t)
    ensures Committed(run[i + 1], w) <= NodeAt(run[k], v).log
  {
    assert AdvancesInTerm(run, i, w) <= t;
    LeaderIsCurrent(run, i + 1, k, w, v, t);
  }

  lemma PrefixTransitive<T>(x: seq<T>, y: seq<T>, z: seq<T>)
    requires x <= y <= z
    ensures x <= z
  {
  }

  /** Leader completeness in commit-term form: a leader whose term is at least every term in which
      some leader has advanced its commit index holds everything anyone has committed. */
  lemma {:induction false} LeaderHoldsAllCommitted(run: seq<System>, j: nat, k: nat, u: NodeId, v: NodeId, t: Term)
    requires IsRun(run) && j <= k < |run| && IsUp(run[j], u) && Leads(run[k], v, t)
    requires NoLaterAdvance(run, k, t)
    ensures Committed(run[j], u) <= NodeAt(run[k], v).log
  {
    if NodeAt(run[j], u).commitIndex > 0 {
      var i, w := CommitHasLeader(run, j, u);
      AdvanceIsHeld(run, i, k, w, v, t);
      PrefixTransitive(Committed(run[j], u), Committed(run[i + 1], w), NodeAt(run[k], v).log);
    }
  }

  /** Up to state `k`, no leader has advanced its commit index in a term above `t`. */
  ghost predicate NoLaterAdvance(run: seq<System>, k: nat, t: Term) {
    forall i: nat, w: NodeId :: i < k && Advances(run, i, w) ==> AdvancesInTerm(run, i, w) <= t
  }
}
