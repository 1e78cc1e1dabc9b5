/** What messages and bookkeeping promise about disks, on runs: an acknowledgement is backed by the
    acknowledger's disk, a leader's count of its peers is true, a leader's log only grows, a node votes once
    in a term, and no truncation reaches what was ever committed. */
module Promises {
  import opened Types
  import opened Ledger
  import opened NodeSpec
  import opened Cluster
  import opened Coupling
  import opened Runs
  import opened Safety

  // ---------------------------------------------------------------- an acknowledgement on its way

  /** `m` is a success reply of term `t` from `p`, up to index `idx`. */
  predicate IsAck(m: Packet, p: NodeId, t: Term, idx: Index) {
    m.from == p && m.message == AppendResponse(t, true, idx)
  }

  lemma {:induction false} SentStays(run: seq<System>, j: nat, k: nat, m: Packet)
    requires IsRun(run) && j <= k < |run| && m in run[j].sent
    ensures m in run[k].sent
    decreases k - j
  {
    if j < k {
      SentStays(run, j, k - 1, m);
      assert StepAt(run, k - 1);
    }
  }

  /** The state in which a packet is first on its way. */
  lemma {:induction false} FirstSent(run: seq<System>, k: nat, m: Packet) returns (a: nat)
    requires IsRun(run) && k < |run| && m in run[k].sent
    ensures 0 < a <= k && m in run[a].sent && m !in run[a - 1].sent
  {
    if k > 0 && m in run[k - 1].sent {
      a := FirstSent(run, k - 1, m);
    } else {
      a := k;
    }
  }

  lemma MessageAcks(nd: NodeState, from: NodeId, msg: Message, o: Outgoing)
    requires Shape(nd) && from < nd.n && o in OnMessage(nd, from, msg).out && o.message.AppendResponse?
    ensures o.message.term == nd.term == OnMessage(nd, from, msg).node.term
  {
    if msg.VoteResponse? && nd.role == Candidate {
      BroadcastIsAll(NodeSpec.AdvanceCommit(Crowned(nd.(votes := nd.votes[from := true]))), nd.n);
    }
  }

  /** A node replies to appends in the term it is in after the call. */
  lemma StepAcks(nd: NodeState, input: Input, o: Outgoing)
    requires Shape(nd) && o in Step(nd, input).out && o.message.AppendResponse?
    ensures o.message.term == Step(nd, input).node.term
  {
    match input
    case Tick(due) =>
      if due && nd.role == Leader {
        BroadcastIsAll(nd, nd.n);
      } else if due {
        VoteBroadcastIsAll(Candidacy(nd), nd.n);
        BroadcastIsAll(NodeSpec.AdvanceCommit(Crowned(Candidacy(nd))), nd.n);
      }
    case Propose(command) =>
      if nd.role == Leader {
        BroadcastIsAll(NodeSpec.AdvanceCommit(Lengthened(nd, command)), nd.n);
      }
    case Receive(from, msg) =>
      MessageAcks(if msg.term > nd.term then StepDown(nd, msg.term).node else nd, from, msg, o);
  }

  /** When an acknowledgement is first on its way, the acknowledger's disk is in its term. */
  lemma AckFirstSent(run: seq<System>, a: nat, m: Packet, p: NodeId, t: Term, idx: Index)
    requires IsRun(run) && 0 < a < |run| && m in run[a].sent && m !in run[a - 1].sent && IsAck(m, p, t, idx)
    ensures p < |run[a].disks| && run[a].disks[p].term == t
  {
    assert StepAt(run, a - 1);
    var act :| Enabled(run[a - 1], act) && run[a] == Next(run[a - 1], act);
    assert act.Run?;
    var out := Step(NodeAt(run[a - 1], act.i), act.input).out;
    assert m in Packets(act.i, out);
    var o :| o in out && m == Packet(act.i, o.to, o.message);
    StepAcks(NodeAt(run[a - 1], act.i), act.input, o);
    NothingOutOfRange(run, a, p);
  }

  // ---------------------------------------------------------------- what it promises

  /** The leader's log up to `n`, as far as `h` has recorded that leader's log. */
  ghost predicate OfLedger(h: History, t: Term, p: seq<Entry>) {
    t in h.ledger && p <= h.ledger[t]
  }

  lemma LeaderInLedger(run: seq<System>, hs: seq<History>, j: nat, u: NodeId, t: Term)
    requires Witnessed(run, hs) && j < |run| && Leads(run[j], u, t)
    ensures OfLedger(hs[|run| - 1], t, NodeAt(run[j], u).log)
  {
    assert SystemOk(run[j], hs[j]) && ServerAt(run[j], hs[j], u);
    assert GrowsFrom(run[j], hs[j], run[|run| - 1], hs[|run| - 1]);
    LeaderLog(DurableOf(run[j], hs[j]), u, NodeAt(run[j], u));
  }

  /** While the acknowledger is in the term, its disk has what it acknowledged. */
  lemma AckOnDisk(s: System, h: History, m: Packet, p: NodeId, t: Term, idx: Index)
    requires SystemOk(s, h) && m in s.sent && IsAck(m, p, t, idx) && p < |s.disks| && s.disks[p].term == t
    ensures t in h.ledger && idx <= |h.ledger[t]| && h.ledger[t][..idx] <= s.disks[p].log
  {
    assert PacketOk(h, m);
    assert AckOk(DurableOf(s, h), t, p, h.ledger[t][..idx]);
  }

  lemma AckOfLedger(run: seq<System>, hs: seq<History>, k: nat, m: Packet, p: NodeId, t: Term, idx: Index)
    returns (q: seq<Entry>)
    requires Witnessed(run, hs) && k < |run| && m in run[k].sent && IsAck(m, p, t, idx)
    requires p < |run[k].disks| && run[k].disks[p].term == t
    ensures OfLedger(hs[|run| - 1], t, q) && |q| == idx && q <= run[k].disks[p].log
  {
    assert SystemOk(run[k], hs[k]) && GrowsFrom(run[k], hs[k], run[|run| - 1], hs[|run| - 1]);
    AckOnDisk(run[k], hs[k], m, p, t, idx);
    q := hs[k].ledger[t][..idx];
  }

  lemma SameLedgerPrefix(h: History, t: Term, x: seq<Entry>, y: seq<Entry>, log: seq<Entry>, n: nat)
    requires OfLedger(h, t, x) && OfLedger(h, t, y) && y <= log && n <= |x| && n <= |y|
    ensures x[..n] <= log
  {
    assert x[..n] == h.ledger[t][..n] == y[..n];
  }

  /** A success reply on its way is backed by its sender's disk: as long as the sender is in the term of the
      reply, its disk has the entries of that term's leader up to the index acknowledged. */
  lemma AckIsBacked(run: seq<System>, j: nat, k: nat, u: NodeId, m: Packet, p: NodeId, t: Term, idx: Index, n: nat)
    requires IsRun(run) && j < |run| && k < |run| && Leads(run[j], u, t)
    requires m in run[k].sent && IsAck(m, p, t, idx) && p < |run[k].disks| && run[k].disks[p].term == t
    requires n <= idx && n <= |NodeAt(run[j], u).log|
    ensures NodeAt(run[j], u).log[..n] <= run[k].disks[p].log
  {
    var hs := RunWitnessed(run);
    LeaderInLedger(run, hs, j, u, t);
    var q := AckOfLedger(run, hs, k, m, p, t, idx);
    SameLedgerPrefix(hs[|run| - 1], t, NodeAt(run[j], u).log, q, run[k].disks[p].log, n);
  }

  // ---------------------------------------------------------------- what a leader counts

  /** Where a leader's positive match index comes from. */
  ghost predicate MatchFrom(nd: NodeState, input: Input, nd': NodeState, p: NodeId)
    requires p < |nd.matchIndex| == |nd'.matchIndex|
  {
    || (nd.role == Leader && nd.term == nd'.term && nd'.matchIndex[p] == nd.matchIndex[p])
    || (&& input.Receive? && input.from == p && input.message.AppendResponse? && input.message.success
        && input.message.term == nd'.term && input.message.matchIndex >= nd'.matchIndex[p])
  }

  lemma MessageMatches(nd: NodeState, from: NodeId, msg: Message, p: NodeId)
    requires Shape(nd) && from < nd.n && p < nd.n && msg.term <= nd.term
    requires var nd' := OnMessage(nd, from, msg).node; nd'.role == Leader && nd'.matchIndex[p] > 0
    ensures MatchFrom(nd, Receive(from, msg), OnMessage(nd, from, msg).node, p)
  {
  }

  lemma FollowerStaysFollower(nd: NodeState, from: NodeId, msg: Message)
    requires Shape(nd) && from < nd.n && nd.role == Follower
    ensures OnMessage(nd, from, msg).node.role == Follower
  {
  }

  lemma StepMatches(nd: NodeState, input: Input, p: NodeId)
    requires Shape(nd) && p < nd.n
    requires var nd' := Step(nd, input).node; Shape(nd') && nd'.n == nd.n && nd'.role == Leader && nd'.matchIndex[p] > 0
    ensures MatchFrom(nd, input, Step(nd, input).node, p)
  {
    if input.Receive? && input.from != nd.id && input.from < nd.n {
      if input.message.term > nd.term {
        FollowerStaysFollower(StepDown(nd, input.message.term).node, input.from, input.message);
      } else {
        MessageMatches(nd, input.from, input.message, p);
      }
    }
  }

  /** An acknowledgement by `p` to `u`, in term `t`, of at least `n` entries has been sent. */
  ghost predicate AckSent(s: System, p: NodeId, u: NodeId, t: Term, n: Index) {
    exists idx: Index :: idx >= n && Packet(p, u, AppendResponse(t, true, idx)) in s.sent
  }

  ghost predicate Accounted(s: System, u: NodeId, p: NodeId) {
    IsUp(s, u) && NodeAt(s, u).role == Leader && p < |NodeAt(s, u).matchIndex| && NodeAt(s, u).matchIndex[p] > 0 ==>
      AckSent(s, p, u, NodeAt(s, u).term, NodeAt(s, u).matchIndex[p])
  }

  lemma AckSentStays(s: System, s': System, p: NodeId, u: NodeId, t: Term, n: Index)
    requires AckSent(s, p, u, t, n) && s.sent <= s'.sent
    ensures AckSent(s', p, u, t, n)
  {
    var idx: Index :| idx >= n && Packet(p, u, AppendResponse(t, true, idx)) in s.sent;
    assert Packet(p, u, AppendResponse(t, true, idx)) in s'.sent;
  }

  lemma CallAccounted(s: System, s': System, u: NodeId, input: Input, p: NodeId)
    requires Enabled(s, Run(u, input)) && s' == Next(s, Run(u, input)) && Accounted(s, u, p)
    ensures Accounted(s', u, p)
  {
    var nd, nd' := NodeAt(s, u), NodeAt(s', u);
    StepShape(nd, input);
    if nd'.role == Leader && p < nd.n && nd'.matchIndex[p] > 0 {
      StepMatches(nd, input, p);
      if nd.role == Leader && nd.term == nd'.term && nd'.matchIndex[p] == nd.matchIndex[p] {
        AckSentStays(s, s', p, u, nd.term, nd.matchIndex[p]);
      } else {
        assert Packet(p, u, AppendResponse(nd'.term, true, input.message.matchIndex)) in s'.sent;
      }
    }
  }

  lemma StepAccounted(s: System, s': System, act: Action, u: NodeId, p: NodeId)
    requires Enabled(s, act) && s' == Next(s, act) && Accounted(s, u, p)
    ensures Accounted(s', u, p)
  {
    if act.Run? && act.i == u {
      CallAccounted(s, s', u, act.input, p);
    } else if && IsUp(s, u) && NodeAt(s, u).role == Leader
              && p < |NodeAt(s, u).matchIndex| && NodeAt(s, u).matchIndex[p] > 0 {
      AckSentStays(s, s', p, u, NodeAt(s, u).term, NodeAt(s, u).matchIndex[p]);
    }
  }

  /** In every reachable state, what a leader counts for a peer the peer has acknowledged to it. */
  lemma {:induction false} MatchAccounted(run: seq<System>, k: nat, u: NodeId, p: NodeId)
    requires IsRun(run) && k < |run|
    ensures Accounted(run[k], u, p)
  {
    if k > 0 {
      MatchAccounted(run, k - 1, u, p);
      assert StepAt(run, k - 1);
      var act :| Enabled(run[k - 1], act) && run[k] == Next(run[k - 1], act);
      StepAccounted(run[k - 1], run[k], act, u, p);
    }
  }

  lemma MatchInLog(run: seq<System>, j: nat, u: NodeId, p: NodeId)
    requires IsRun(run) && j < |run| && IsUp(run[j], u) && NodeAt(run[j], u).role == Leader
    requires p < |NodeAt(run[j], u).matchIndex|
    ensures NodeAt(run[j], u).matchIndex[p] <= |NodeAt(run[j], u).log|
  {
    NothingOutOfRange(run, j, u);
  }

  /** What a leader counts for a peer is true: the peer was in the leader's term when it acknowledged, and
      from then on, as long as it is in that term, its disk has the leader's entries up to the index
      counted. It does not matter when the acknowledgement is counted, nor which stale or repeated replies
      and appends arrive in between. */
  lemma MatchIsSound(run: seq<System>, j: nat, u: NodeId, p: NodeId, t: Term) returns (a: nat)
    requires IsRun(run) && j < |run| && Leads(run[j], u, t)
    requires p < |NodeAt(run[j], u).matchIndex| && NodeAt(run[j], u).matchIndex[p] > 0
    ensures NodeAt(run[j], u).matchIndex[p] <= |NodeAt(run[j], u).log|
    ensures a <= j && p < |run[a].disks| && run[a].disks[p].term == t
    ensures forall k :: a <= k < |run| && p < |run[k].disks| && run[k].disks[p].term == t ==>
              NodeAt(run[j], u).log[..NodeAt(run[j], u).matchIndex[p]] <= run[k].disks[p].log
  {
    var nd := NodeAt(run[j], u);
    var n := nd.matchIndex[p];
    MatchInLog(run, j, u, p);
    MatchAccounted(run, j, u, p);
    var idx: Index :| idx >= n && Packet(p, u, AppendResponse(t, true, idx)) in run[j].sent;
    var m := Packet(p, u, AppendResponse(t, true, idx));
    a := FirstSent(run, j, m);
    AckFirstSent(run, a, m, p, t, idx);
    forall k | a <= k < |run| && p < |run[k].disks| && run[k].disks[p].term == t
      ensures nd.log[..n] <= run[k].disks[p].log
    {
      SentStays(run, a, k, m);
      AckIsBacked(run, j, k, u, m, p, t, idx, n);
    }
  }

  // ---------------------------------------------------------------- leaders, votes, truncations

  /** A leader only appends: throughout its leadership its log only grows. */
  lemma LeaderAppendsOnly(run: seq<System>, j: nat, k: nat, u: NodeId, t: Term)
    requires IsRun(run) && j <= k < |run| && Leads(run[j], u, t) && Leads(run[k], u, t)
    ensures NodeAt(run[j], u).log <= NodeAt(run[k], u).log
  {
    var hs := RunWitnessed(run);
    assert SystemOk(run[j], hs[j]) && ServerAt(run[j], hs[j], u);
    assert SystemOk(run[k], hs[k]) && ServerAt(run[k], hs[k], u);
    assert GrowsFrom(run[j], hs[j], run[k], hs[k]);
    LeaderLog(DurableOf(run[j], hs[j]), u, NodeAt(run[j], u));
    LeaderLog(DurableOf(run[k], hs[k]), u, NodeAt(run[k], u));
  }

  /** One vote for each term: two votes a node ever granted in one term went to the same candidate. */
  lemma OneVotePerTerm(run: seq<System>, j: nat, k: nat, m: Packet, m': Packet)
    requires IsRun(run) && j < |run| && k < |run| && m in run[j].sent && m' in run[k].sent
    requires m.message.VoteResponse? && m.message.granted && m'.message.VoteResponse? && m'.message.granted
    requires m.from == m'.from && m.message.term == m'.message.term
    ensures m.to == m'.to
  {
    var hs := RunWitnessed(run);
    PacketAtEnd(run, hs, j, m);
    PacketAtEnd(run, hs, k, m');
  }

  lemma TruncationsPositive(nd: NodeState, input: Input)
    requires Shape(nd)
    ensures forall w :: w in Step(nd, input).writes && w.TruncateFrom? ==> w.index > 0
  {
  }

  /** No call ever truncates at or below an index the node has at any time had committed. */
  lemma TruncatesAboveCommitted(run: seq<System>, j: nat, k: nat, u: NodeId, input: Input, i: nat)
    requires IsRun(run) && j <= k < |run| && IsUp(run[j], u) && Available(run[k], u, input)
    requires var ws := Step(NodeAt(run[k], u), input).writes; i < |ws| && ws[i].TruncateFrom?
    ensures |Committed(run[j], u)| < Step(NodeAt(run[k], u), input).writes[i].index
  {
    var ws, front := Step(NodeAt(run[k], u), input).writes, run[..k + 1];
    TruncationsPositive(NodeAt(run[k], u), input);
    assert ws[i] in ws;
    PrefixIsRun(run, k + 1);
    assert front[j] == run[j] && Last(front) == run[k];
    var s := CutAfter(front, u, input, i + 1);
    CommittedSurvives(front + [s], j, |front|, u);
    AfterTruncation(run[k].disks[u], ws[..i + 1]);
  }

  /** The node crashes after the first `n` writes of the call. */
  lemma CutAfter(run: seq<System>, u: NodeId, input: Input, n: nat) returns (s: System)
    requires IsRun(run) && Available(Last(run), u, input) && n <= |Step(NodeAt(Last(run), u), input).writes|
    ensures IsRun(run + [s]) && u < |s.disks| && u < |Last(run).disks|
    ensures s.disks[u] == ApplyWrites(Last(run).disks[u], Step(NodeAt(Last(run), u), input).writes[..n])
  {
    s := Next(Last(run), CrashDuring(u, input, n));
    assert Enabled(Last(run), CrashDuring(u, input, n)) && IsStep(Last(run), s);
    Extend(run, s);
  }

  lemma {:induction false} AfterTruncation(p: Persistent, ws: seq<Write>)
    requires ws != [] && ws[|ws| - 1].TruncateFrom? && ws[|ws| - 1].index > 0
    ensures |ApplyWrites(p, ws).log| < ws[|ws| - 1].index
  {
  }
}
