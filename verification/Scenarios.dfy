/** Three runs of a three-node cluster, step by step: one on which the checker's leader-completeness
    clause fires though nothing is wrong, one on which a commit index moves back, and one on which an
    entry is therefore delivered twice. */
module Scenarios {
  import opened Types
  import opened Quorum
  import opened NodeSpec
  import opened Cluster
  import opened Safety
  import opened Redelivery
  import opened Checker

  // ---------------------------------------------------------------- playing a step

  type Trio = s: seq<NodeState> | |s| == 3
    witness Filled(3, NodeState(0, 0, 0, 0, None, [], Follower, None, 0, 0, [], [], []))

  /** The run so far is a run of live nodes only, now in states `nds`. */
  ghost predicate Stage(run: seq<System>, nds: seq<NodeState>) {
    && |run| > 0 && IsRun(run)
    && Last(run).n == |Last(run).disks| == |Last(run).servers| == |nds|
    && forall i: NodeId :: i < |nds| ==> Player(Last(run), i, nds[i])
  }

  ghost predicate Player(s: System, i: NodeId, nd: NodeState)
    requires i < |s.servers|
  {
    && s.servers[i].Up? && s.servers[i].node == nd
    && nd.id == i && nd.n == |s.servers| && Shape(nd)
  }

  lemma Opening(n: nat, maxBatch: nat) returns (run: seq<System>, nds: seq<NodeState>)
    ensures Stage(run, nds) && |run| == 1 && |nds| == n && Last(run).maxBatch == maxBatch
    ensures forall i :: 0 <= i < n ==> nds[i] == Boot(i, n, maxBatch, EMPTY_DISK)
  {
    var disks := Filled(n, EMPTY_DISK);
    nds := seq(n, i requires 0 <= i < n => Boot(i, n, maxBatch, EMPTY_DISK));
    var servers := seq(n, i requires 0 <= i < n => Up(Boot(i, n, maxBatch, EMPTY_DISK), map[], 0));
    run := [System(n, maxBatch, servers, disks, {})];
    forall i: NodeId | i < n ensures Player(Last(run), i, nds[i]) {
      assert servers[i] == Up(Boot(i, n, maxBatch, EMPTY_DISK), map[], 0);
    }
  }

  /** Node `i` handles `input`; everything it sends is on its way. */
  lemma Play(run: seq<System>, nds: seq<NodeState>, i: NodeId, input: Input)
    returns (run': seq<System>, nds': seq<NodeState>)
    requires Stage(run, nds) && i < |nds|
    requires input.Receive? ==> Packet(input.from, i, input.message) in Last(run).sent
    ensures Shape(nds[i]) && Stage(run', nds') && nds' == nds[i := Step(nds[i], input).node]
    ensures |run'| == |run| + 1 && run'[..|run|] == run && Last(run').maxBatch == Last(run).maxBatch
    ensures Last(run').sent == Last(run).sent + Packets(i, Step(nds[i], input).out)
  {
    var s, act := Last(run), Run(i, input);
    assert Player(s, i, nds[i]);
    var s' := Next(s, act);
    nds' := nds[i := Step(nds[i], input).node];
    run' := run + [s'];
    assert IsStep(s, s');
    Extend(run, s');
    StepShape(nds[i], input);
    forall j: NodeId | j < |nds| ensures Player(s', j, nds'[j]) {
      assert Player(s, j, nds[j]);
    }
  }

  // ---------------------------------------------------------------- elections among three

  lemma CountThree(a: bool, b: bool, c: bool)
    ensures CountTrue([a, b, c]) == (if a then 1 else 0) + (if b then 1 else 0) + (if c then 1 else 0)
  {
    assert [] + [a] == [a] && [a] + [b] == [a, b] && [a, b] + [c] == [a, b, c];
    CountMore([], a);
    CountMore([a], b);
    CountMore([a, b], c);
  }

  lemma {:induction false} CountMore(bits: seq<bool>, b: bool)
    ensures CountTrue(bits + [b]) == CountTrue(bits) + if b then 1 else 0
  {
    assert (bits + [b])[..|bits|] == bits;
  }

  lemma CandidacyOfThree(nd: NodeState)
    requires Shape(nd) && nd.n == 3 && nd.id < 3 && nd.role != Leader
    ensures Step(nd, Tick(true)).node == Candidacy(nd)
    ensures forall p: NodeId :: p < 3 && p != nd.id ==>
              Outgoing(p, VoteRequest(Candidacy(nd))) in Step(nd, Tick(true)).out
  {
    var bits := Candidacy(nd).votes;
    assert bits == [bits[0], bits[1], bits[2]];
    CountThree(bits[0], bits[1], bits[2]);
    VoteBroadcastIsAll(Candidacy(nd), 3);
  }

  /** The state of a node that has just granted its vote for `term`. */
  function Voted(nd: NodeState, term: Term, candidate: NodeId): NodeState {
    nd.(term := term, votedFor := Some(candidate), role := Follower, leaderId := None)
  }

  function Elected(nd: NodeState, voter: NodeId): NodeState
    requires Shape(nd) && voter < nd.n
  {
    Crowned(Candidacy(nd).(votes := Candidacy(nd).votes[voter := true]))
  }

  lemma VoteOfThree(nd: NodeState, candidate: NodeState)
    requires Shape(nd) && nd.n == 3 && candidate.id < 3 && candidate.id != nd.id
    requires nd.term < candidate.term && LogUpToDate(candidate.log, nd.log)
    ensures var step := Step(nd, Receive(candidate.id, VoteRequest(candidate)));
            && step.node == Voted(nd, candidate.term, candidate.id)
            && step.out == [Outgoing(candidate.id, VoteResponse(candidate.term, true))]
  {
  }

  /** With one vote of a peer and its own, a candidate leads; its commit index cannot move yet. */
  lemma LeadOfThree(nd: NodeState, voter: NodeId)
    requires Shape(nd) && nd.n == 3 && voter < 3 && voter != nd.id && nd.commitIndex <= |nd.log|
    requires nd.role != Leader
    ensures var c := Candidacy(nd);
            var step := Step(c, Receive(voter, VoteResponse(c.term, true)));
            && step.node == Elected(nd, voter)
            && forall p: NodeId :: p < 3 && p != nd.id ==> AppendFor(Elected(nd, voter), p) in step.out
  {
    var c := Candidacy(nd);
    var bits := c.votes[voter := true];
    assert bits == [bits[0], bits[1], bits[2]];
    CountThree(bits[0], bits[1], bits[2]);
    var lead := Elected(nd, voter);
    NothingStored(lead, |lead.log|);
    BroadcastIsAll(lead, 3);
  }

  lemma {:induction false} NothingStored(nd: NodeState, k: Index)
    requires nd.n == 3 && nd.matchIndex == [0, 0, 0] && k <= |nd.log|
    ensures CommitScan(nd, k) == nd.commitIndex
    decreases k
  {
    if k > nd.commitIndex && TermAt(nd.log, k) == nd.term {
      var bits := Stored(nd, k);
      assert bits == [false, false, false];
      CountThree(false, false, false);
      NothingStored(nd, k - 1);
    }
  }

  ghost predicate Sent(s: System, from: NodeId, o: Outgoing) {
    Packet(from, o.to, o.message) in s.sent
  }

  lemma SendsTo(s: System, s': System, from: NodeId, out: seq<Outgoing>, o: Outgoing)
    requires s'.sent == s.sent + Packets(from, out) && o in out
    ensures Sent(s', from, o)
  {
  }

  ghost predicate Asked(s: System, candidate: NodeState, p: NodeId) {
    Sent(s, candidate.id, Outgoing(p, VoteRequest(candidate)))
  }

  lemma AskedStays(s: System, s': System, candidate: NodeState)
    requires s.sent <= s'.sent
    ensures forall p :: Asked(s, candidate, p) ==> Asked(s', candidate, p)
  {
  }

  lemma Stand(run: seq<System>, nds: Trio, i: NodeId) returns (run': seq<System>, nds': Trio)
    requires Stage(run, nds) && i < 3 && nds[i].role != Leader
    ensures Stage(run', nds') && Last(run).sent <= Last(run').sent
    ensures nds[i].id == i && nds[i].n == 3 && Shape(nds[i]) && nds' == nds[i := Candidacy(nds[i])]
    ensures forall p: NodeId :: p < 3 && p != i ==> Asked(Last(run'), Candidacy(nds[i]), p)
  {
    assert Player(Last(run), i, nds[i]);
    CandidacyOfThree(nds[i]);
    run', nds' := Play(run, nds, i, Tick(true));
    forall p: NodeId | p < 3 && p != i ensures Asked(Last(run'), Candidacy(nds[i]), p) {
      SendsTo(Last(run), Last(run'), i, Step(nds[i], Tick(true)).out, Outgoing(p, VoteRequest(Candidacy(nds[i]))));
    }
  }

  lemma GetVote(run: seq<System>, nds: Trio, candidate: NodeState, j: NodeId) returns (run': seq<System>, nds': Trio)
    requires Stage(run, nds) && candidate.id < 3 && j < 3 && candidate.id != j
    requires nds[j].term < candidate.term && LogUpToDate(candidate.log, nds[j].log)
    requires Asked(Last(run), candidate, j)
    ensures Stage(run', nds') && Last(run).sent <= Last(run').sent
    ensures nds' == nds[j := Voted(nds[j], candidate.term, candidate.id)]
    ensures Sent(Last(run'), j, Outgoing(candidate.id, VoteResponse(candidate.term, true)))
  {
    assert Player(Last(run), j, nds[j]);
    VoteOfThree(nds[j], candidate);
    run', nds' := Play(run, nds, j, Receive(candidate.id, VoteRequest(candidate)));
    var o := Outgoing(candidate.id, VoteResponse(candidate.term, true));
    SendsTo(Last(run), Last(run'), j, [o], o);
  }

  lemma Win(run: seq<System>, nds: Trio, nd: NodeState, j: NodeId) returns (run': seq<System>, nds': Trio)
    requires Stage(run, nds) && nd.id < 3 && j < 3 && nd.id != j && nd.n == 3 && Shape(nd)
    requires nds[nd.id] == Candidacy(nd) && nd.role != Leader && nd.commitIndex <= |nd.log|
    requires Sent(Last(run), j, Outgoing(nd.id, VoteResponse(nd.term + 1, true)))
    ensures Stage(run', nds') && Last(run).sent <= Last(run').sent
    ensures nds' == nds[nd.id := Elected(nd, j)]
    ensures forall p: NodeId :: p < 3 && p != nd.id ==> Sent(Last(run'), nd.id, AppendFor(Elected(nd, j), p))
  {
    LeadOfThree(nd, j);
    var input := Receive(j, VoteResponse(nd.term + 1, true));
    run', nds' := Play(run, nds, nd.id, input);
    forall p: NodeId | p < 3 && p != nd.id ensures Sent(Last(run'), nd.id, AppendFor(Elected(nd, j), p)) {
      SendsTo(Last(run), Last(run'), nd.id, Step(nds[nd.id], input).out, AppendFor(Elected(nd, j), p));
    }
  }

  lemma Overwritten<T>(s: seq<T>, i: nat, x: T, j: nat, y: T, z: T)
    requires i < |s| && j < |s| && i != j
    ensures s[i := x][j := y][i := z] == s[i := z][j := y]
    ensures s[i := x][j] == s[j] && s[i := x][j := y][i] == x
  {
  }

  lemma InState(run: seq<System>, front: seq<System>, i: NodeId, nd: NodeState)
    requires 0 < |front| <= |run| && run[..|front|] == front && i < |Last(front).servers| && Player(Last(front), i, nd)
    ensures IsUp(run[|front| - 1], i) && NodeAt(run[|front| - 1], i) == nd
  {
    assert run[|front| - 1] == Last(front);
  }

  /** Node `i` runs for a term and wins it with the vote of `j`. */
  lemma Election(run: seq<System>, nds: Trio, i: NodeId, j: NodeId) returns (run': seq<System>, nds': Trio)
    requires Stage(run, nds) && i < 3 && j < 3 && i != j
    requires nds[i].role != Leader && nds[i].commitIndex <= |nds[i].log|
    requires nds[j].term <= nds[i].term && LogUpToDate(nds[i].log, nds[j].log)
    ensures Stage(run', nds') && Last(run).sent <= Last(run').sent && nds[i].id == i && nds[i].n == 3 && Shape(nds[i])
    ensures nds' == nds[i := Elected(nds[i], j)][j := Voted(nds[j], nds[i].term + 1, i)]
    ensures forall p: NodeId :: p < 3 && p != i ==> Asked(Last(run'), Candidacy(nds[i]), p)
    ensures forall p: NodeId :: p < 3 && p != i ==> Sent(Last(run'), i, AppendFor(Elected(nds[i], j), p))
  {
    var c, v, e := Candidacy(nds[i]), Voted(nds[j], nds[i].term + 1, i), Elected(nds[i], j);
    Overwritten(nds, i, c, j, v, e);
    var run1, nds1 := Stand(run, nds, i);
    var run2, nds2 := GetVote(run1, nds1, c, j);
    assert nds2 == nds[i := c][j := v];
    run', nds' := Win(run2, nds2, nds[i], j);
    AskedStays(Last(run1), Last(run'), c);
  }

  // ---------------------------------------------------------------- an overtaken leader

  const FIRST := Entry(1, [])
  const SECOND := Entry(2, [])
  const THIRD := Entry(3, [])

  /** Leader of term 3 with an entry of term 1 that it never replicated. */
  function Newest(): NodeState {
    NodeState(0, 3, 2, 3, Some(0), [FIRST, THIRD], Leader, Some(0), 0, 0, [true, true, false], [2, 2, 2], [0, 0, 0])
  }

  /** Its voter, with nothing in its log. */
  function Empty(): NodeState {
    NodeState(1, 3, 2, 3, Some(0), [], Follower, None, 0, 0, [false, false, false], [1, 1, 1], [0, 0, 0])
  }

  /** Leader of term 2, cut off since its election. */
  function Cut(): NodeState {
    NodeState(2, 3, 2, 2, Some(2), [SECOND], Leader, Some(2), 0, 0, [false, true, true], [1, 1, 1], [0, 0, 0])
  }

  lemma RefuseVote(nd: NodeState, candidate: NodeState)
    requires Shape(nd) && nd.n == 3 && candidate.id < 3 && candidate.id != nd.id
    requires nd.term < candidate.term && !LogUpToDate(candidate.log, nd.log)
    ensures Step(nd, Receive(candidate.id, VoteRequest(candidate))).node == NodeSpec.StepDown(nd, candidate.term).node
  {
  }

  lemma FirstTerm()
    ensures var a := Elected(Boot(0, 3, 2, EMPTY_DISK), 1);
            && a.log == [FIRST] && a.votes == [true, true, false] && a.term == 1 && a.commitIndex == 0
            && a.id == 0 && a.n == 3 && a.maxBatch == 2 && a.appliedIndex == 0
  {
  }

  lemma CutIs()
    ensures Elected(Candidacy(Boot(2, 3, 2, EMPTY_DISK)), 1) == Cut()
  {
    assert Elected(Candidacy(Boot(2, 3, 2, EMPTY_DISK)), 1).log == [SECOND];
  }

  lemma NewestIs(a: NodeState)
    requires Shape(a) && a.id == 0 && a.n == 3 && a.maxBatch == 2 && a.log == [FIRST]
    requires a.commitIndex == 0 && a.appliedIndex == 0
    ensures Elected(NodeSpec.StepDown(a, 2).node, 1) == Newest()
  {
    assert Elected(NodeSpec.StepDown(a, 2).node, 1).log == [FIRST, THIRD];
  }

  lemma EmptyIs()
    ensures Voted(Voted(Voted(Boot(1, 3, 2, EMPTY_DISK), 1, 0), 2, 2), 3, 0) == Empty()
  {
  }

  /** Node 0 leads term 1 and is deposed unheard; node 2 leads term 2; node 0 leads term 3. */
  lemma Divided() returns (run: seq<System>, nds: Trio)
    ensures Stage(run, nds) && nds == [Newest(), Empty(), Cut()]
    ensures Sent(Last(run), 0, AppendFor(Newest(), 1))
  {
    var run0, nds0 := Opening(3, 2);
    FirstTerm();
    var run1, nds1 := Election(run0, nds0, 0, 1);
    var run2, nds2 := Stand(run1, nds1, 2);
    var c := Candidacy(nds2[2]);
    var run3, nds3 := Election(run2, nds2, 2, 1);
    CutIs();
    assert Asked(Last(run3), c, 0);
    var run4, nds4 := Depose(run3, nds3, c);
    run, nds := Election(run4, nds4, 0, 1);
    NewestIs(nds1[0]);
    EmptyIs();
    assert nds == [nds[0], nds[1], nds[2]];
  }

  lemma Depose(run: seq<System>, nds: Trio, c: NodeState) returns (run': seq<System>, nds': Trio)
    requires Stage(run, nds) && c.id == 2 && nds[0].term < c.term && !LogUpToDate(c.log, nds[0].log)
    requires Sent(Last(run), 2, Outgoing(0, VoteRequest(c)))
    ensures Stage(run', nds') && nds' == nds[0 := NodeSpec.StepDown(nds[0], c.term).node]
  {
    assert Player(Last(run), 0, nds[0]);
    RefuseVote(nds[0], c);
    run', nds' := Play(run, nds, 0, Receive(2, VoteRequest(c)));
  }

  /** Node `i` receives a message that is on its way, and answers it. */
  lemma Pass(run: seq<System>, nds: seq<NodeState>, from: NodeId, i: NodeId, msg: Message, nd: NodeState,
             reply: Outgoing)
    returns (run': seq<System>, nds': seq<NodeState>)
    requires Stage(run, nds) && i < |nds| && Shape(nds[i]) && Sent(Last(run), from, Outgoing(i, msg))
    requires Step(nds[i], Receive(from, msg)).node == nd && reply in Step(nds[i], Receive(from, msg)).out
    ensures Stage(run', nds') && Last(run).sent <= Last(run').sent && nds' == nds[i := nd]
    ensures Last(run').maxBatch == Last(run).maxBatch && Sent(Last(run'), i, reply)
  {
    run', nds' := Play(run, nds, i, Receive(from, msg));
    SendsTo(Last(run), Last(run'), i, Step(nds[i], Receive(from, msg)).out, reply);
  }

  function Heard(): NodeState {
    Empty().(leaderId := Some(0))
  }

  function BackedUp(): NodeState {
    Newest().(nextIndex := [2, 1, 2])
  }

  function CaughtUp(): NodeState {
    Heard().(log := [FIRST, THIRD])
  }

  function Committing(): NodeState {
    Newest().(nextIndex := [2, 3, 2], matchIndex := [0, 2, 0], commitIndex := 2)
  }

  lemma ProbeFails()
    ensures AppendFor(Newest(), 1) == Outgoing(1, AppendEntries(3, 1, 1, [THIRD], 0))
    ensures Step(Empty(), Receive(0, AppendEntries(3, 1, 1, [THIRD], 0))) ==
            StepOut(Heard(), [], [Outgoing(0, AppendResponse(3, false, 0))])
  {
    assert [FIRST, THIRD][1..2] == [THIRD];
  }

  lemma HintNoted()
    ensures Noted(Newest(), 1, false, 0) == BackedUp()
  {
  }

  lemma WholeLogSent()
    ensures AppendFor(BackedUp(), 1) == Outgoing(1, AppendEntries(3, 0, 0, [FIRST, THIRD], 0))
  {
    assert [FIRST, THIRD][0..2] == [FIRST, THIRD];
  }

  lemma HintBacksUp()
    ensures var step := Step(Newest(), Receive(1, AppendResponse(3, false, 0)));
            step.node == BackedUp() && step.out == [Outgoing(1, AppendEntries(3, 0, 0, [FIRST, THIRD], 0))]
  {
    HintNoted();
    WholeLogSent();
  }

  lemma WholeLogFits()
    ensures var step := Step(Heard(), Receive(0, AppendEntries(3, 0, 0, [FIRST, THIRD], 0)));
            step.node == CaughtUp() && step.out == [Outgoing(0, AppendResponse(3, true, 2))]
  {
    assert [] + [FIRST, THIRD] == [FIRST, THIRD];
  }

  lemma MajorityReached()
    ensures Step(BackedUp(), Receive(1, AppendResponse(3, true, 2))).node == Committing()
  {
    var nd := Noted(BackedUp(), 1, true, 2);
    assert nd.matchIndex == [0, 2, 0] && nd.nextIndex == [2, 3, 2];
    assert Stored(nd, 2) == [false, true, false];
    CountThree(false, true, false);
  }

  /** The leader's first append does not fit, and the hint brings it back to the start. */
  lemma Probed() returns (run: seq<System>, nds: Trio)
    ensures Stage(run, nds) && nds == [BackedUp(), Heard(), Cut()]
    ensures Sent(Last(run), 0, Outgoing(1, AppendEntries(3, 0, 0, [FIRST, THIRD], 0)))
  {
    var run0, nds0 := Divided();
    ProbeFails();
    var run1, nds1 := Pass(run0, nds0, 0, 1, AppendEntries(3, 1, 1, [THIRD], 0), Heard(),
                           Outgoing(0, AppendResponse(3, false, 0)));
    HintBacksUp();
    run, nds := Pass(run1, nds1, 1, 0, AppendResponse(3, false, 0), BackedUp(),
                     Outgoing(1, AppendEntries(3, 0, 0, [FIRST, THIRD], 0)));
  }

  lemma Overtake() returns (run: seq<System>, nds: Trio)
    ensures Stage(run, nds) && nds == [Committing(), CaughtUp(), Cut()]
  {
    var run0, nds0 := Probed();
    WholeLogFits();
    var run1, nds1 := Pass(run0, nds0, 0, 1, AppendEntries(3, 0, 0, [FIRST, THIRD], 0), CaughtUp(),
                           Outgoing(0, AppendResponse(3, true, 2)));
    MajorityReached();
    run, nds := Play(run1, nds1, 0, Receive(1, AppendResponse(3, true, 2)));
  }

  /** Whatever the checker remembers of the run, the audit can only end with a leader reported. */
  ghost predicate AlwaysFires(run: seq<System>, nodes: Nodes) {
    forall w :: Seen(run, w, |nodes|) ==> Fires(w, nodes)
  }

  ghost predicate Fires(w: Watch, nodes: Nodes)
    requires Sized(Success(w), |nodes|)
  {
    && (exists w' :: Audited(w, nodes, w', Some(LeaderLacks(2, 1))))
    && (forall w', v {:trigger Audited(w, nodes, w', v)} ::
          Audited(w, nodes, w', v) ==> v.Some? && v.value.LeaderLacks?)
  }

  /** The checker's leader-completeness clause compares with the term of the entry, not of its commit,
      so it does fire on a correct run: for a leader that a later one has overtaken. */
  lemma ClauseFiresOnCorrectRun() returns (run: seq<System>, nodes: Nodes)
    ensures IsRun(run) && NodesOf(Last(run), nodes) && |nodes| == 3 && AlwaysFires(run, nodes)
  {
    var nds: Trio;
    run, nds := Overtake();
    nodes := [Some(Committing()), Some(CaughtUp()), Some(Cut())];
    assert Player(Last(run), 0, nds[0]) && Player(Last(run), 1, nds[1]) && Player(Last(run), 2, nds[2]);
    forall w | Seen(run, w, |nodes|) ensures Fires(w, nodes) {
      FiresWith(run, w, nodes);
    }
  }

  lemma FiresWith(run: seq<System>, w: Watch, nodes: Nodes)
    requires IsRun(run) && Seen(run, w, |nodes|) && NodesOf(Last(run), nodes)
    requires nodes == [Some(Committing()), Some(CaughtUp()), Some(Cut())]
    ensures Fires(w, nodes)
  {
    var w1, w2 := ClausesPass(run, w, nodes);
    CommitsRecorded(w1, nodes, 3);
    CutMisses(nodes, w2.committed);
    assert Audited(w, nodes, w2, Some(LeaderLacks(2, 1)));
    forall w', v | Audited(w, nodes, w', v) ensures v.Some? && v.value.LeaderLacks? {
      AuditExactly(run, w, nodes, w', v);
      assert w' == w2;
    }
  }

  lemma CutMisses(nodes: Nodes, committed: seq<Entry>)
    requires nodes == [Some(Committing()), Some(CaughtUp()), Some(Cut())] && CommitsInside(nodes, 3, committed)
    ensures Misses(nodes, committed, 2, 0) && LogsAudited(nodes, committed, Some(LeaderLacks(2, 1)))
  {
    assert nodes[0].value.log[..2] <= committed;
    assert committed[0] == FIRST;
    assert AllBefore(committed, 0, 2);
  }

  // ---------------------------------------------------------------- a commit index moves back

  /** Leader of term 1 whose log node 1 has acknowledged in full, and node 2 not at all. */
  function Lead(log: seq<Entry>): NodeState {
    NodeState(0, 3, 1, 1, Some(0), log, Leader, Some(0), |log|, 0,
              [true, true, false], [1, |log| + 1, 1], [0, |log|, 0])
  }

  function Follow(log: seq<Entry>, commit: Index): NodeState {
    NodeState(1, 3, 1, 1, Some(0), log, Follower, Some(0), commit, 0, [false, false, false], [1, 1, 1], [0, 0, 0])
  }

  function Lag(log: seq<Entry>, commit: Index): NodeState {
    NodeState(2, 3, 1, 1, None, log, Follower, Some(0), commit, 0, [false, false, false], [1, 1, 1], [0, 0, 0])
  }

  ghost predicate OfTermOne(log: seq<Entry>) {
    |log| > 0 && log[|log| - 1].term == 1
  }

  lemma ScanOne(log: seq<Entry>, e: Entry)
    requires OfTermOne(log) && e.term == 1
    ensures AdvanceCommit(Lead(log).(log := log + [e])) == Lead(log).(log := log + [e])
  {
    var nd := Lead(log).(log := log + [e]);
    assert Stored(nd, |log| + 1) == [false, false, false];
    CountThree(false, false, false);
    assert CommitScan(nd, |log|) == |log|;
  }

  lemma SendOne(log: seq<Entry>, e: Entry)
    requires OfTermOne(log) && e.term == 1
    ensures var nd := Lead(log).(log := log + [e]);
            Shape(nd) && AppendFor(nd, 1) == Outgoing(1, AppendEntries(1, |log|, 1, [e], |log|))
  {
    assert (log + [e])[|log|..|log| + 1] == [e];
  }

  lemma ProposeOne(log: seq<Entry>, e: Entry)
    requires OfTermOne(log) && e.term == 1
    ensures var nd := Lead(log).(log := log + [e]);
            var step := Step(Lead(log), Input.Propose(e.command));
            step.node == nd && Outgoing(1, AppendEntries(1, |log|, 1, [e], |log|)) in step.out
  {
    var nd := Lead(log).(log := log + [e]);
    assert Lengthened(Lead(log), e.command) == nd;
    ScanOne(log, e);
    SendOne(log, e);
    BroadcastIsAll(nd, 3);
  }

  lemma StoreOne(log: seq<Entry>, e: Entry, commit: Index)
    requires OfTermOne(log) && e.term == 1 && commit <= |log|
    ensures Step(Follow(log, commit), Receive(0, AppendEntries(1, |log|, 1, [e], |log|))) ==
            StepOut(Follow(log + [e], |log|), [Append([e])], [Outgoing(0, AppendResponse(1, true, |log| + 1))])
  {
    assert log[..|log|] == log && [e][0..] == [e];
  }

  lemma AckOne(log: seq<Entry>, e: Entry)
    requires OfTermOne(log) && e.term == 1
    ensures Step(Lead(log).(log := log + [e]), Receive(1, AppendResponse(1, true, |log| + 1))).node == Lead(log + [e])
  {
    var nd := Noted(Lead(log).(log := log + [e]), 1, true, |log| + 1);
    assert nd.matchIndex == [0, |log| + 1, 0] && nd.nextIndex == [1, |log| + 2, 1];
    assert Stored(nd, |log| + 1) == [false, true, false];
    CountThree(false, true, false);
  }

  /** One more entry is proposed, stored by node 1, and committed by the leader. */
  lemma CommitOne(run: seq<System>, nds: Trio, log: seq<Entry>, e: Entry, commit: Index)
    returns (run': seq<System>, nds': Trio)
    requires OfTermOne(log) && e.term == 1 && commit <= |log|
    requires Stage(run, nds) && nds[0] == Lead(log) && nds[1] == Follow(log, commit)
    ensures Stage(run', nds') && nds' == [Lead(log + [e]), Follow(log + [e], |log|), nds[2]]
  {
    ProposeOne(log, e);
    var run1, nds1 := Play(run, nds, 0, Input.Propose(e.command));
    var o := Outgoing(1, AppendEntries(1, |log|, 1, [e], |log|));
    SendsTo(Last(run), Last(run1), 0, Step(Lead(log), Input.Propose(e.command)).out, o);
    StoreOne(log, e, commit);
    var run2, nds2 := Pass(run1, nds1, 0, 1, o.message, Follow(log + [e], |log|),
                           Outgoing(0, AppendResponse(1, true, |log| + 1)));
    AckOne(log, e);
    run', nds' := Play(run2, nds2, 0, Receive(1, AppendResponse(1, true, |log| + 1)));
  }

  function FirstLeader(): NodeState {
    NodeState(0, 3, 1, 1, Some(0), [FIRST], Leader, Some(0), 0, 0, [true, true, false], [1, 1, 1], [0, 0, 0])
  }

  function FirstVoter(): NodeState {
    NodeState(1, 3, 1, 1, Some(0), [], Follower, None, 0, 0, [false, false, false], [1, 1, 1], [0, 0, 0])
  }

  lemma FirstStates()
    ensures Elected(Boot(0, 3, 1, EMPTY_DISK), 1) == FirstLeader()
    ensures Voted(Boot(1, 3, 1, EMPTY_DISK), 1, 0) == FirstVoter()
    ensures AppendFor(FirstLeader(), 1) == Outgoing(1, AppendEntries(1, 0, 0, [FIRST], 0))
  {
    assert Elected(Boot(0, 3, 1, EMPTY_DISK), 1).log == [FIRST];
    assert [FIRST][0..1] == [FIRST];
  }

  lemma FirstElection() returns (run: seq<System>, nds: Trio)
    ensures Stage(run, nds) && nds == [FirstLeader(), FirstVoter(), Boot(2, 3, 1, EMPTY_DISK)]
    ensures Sent(Last(run), 0, Outgoing(1, AppendEntries(1, 0, 0, [FIRST], 0)))
  {
    var run0, nds0 := Opening(3, 1);
    run, nds := Election(run0, nds0, 0, 1);
    FirstStates();
  }

  lemma FirstStored()
    ensures Step(FirstVoter(), Receive(0, AppendEntries(1, 0, 0, [FIRST], 0))) ==
            StepOut(Follow([FIRST], 0), [Append([FIRST])], [Outgoing(0, AppendResponse(1, true, 1))])
  {
    assert [] + [FIRST] == [FIRST] && [FIRST][0..] == [FIRST];
  }

  lemma FirstAcknowledged()
    ensures Step(FirstLeader(), Receive(1, AppendResponse(1, true, 1))).node == Lead([FIRST])
  {
    var nd := Noted(FirstLeader(), 1, true, 1);
    assert nd.matchIndex == [0, 1, 0] && nd.nextIndex == [1, 2, 1];
    assert Stored(nd, 1) == [false, true, false];
    CountThree(false, true, false);
  }

  lemma FirstCommit() returns (run: seq<System>, nds: Trio)
    ensures Stage(run, nds) && nds == [Lead([FIRST]), Follow([FIRST], 0), Boot(2, 3, 1, EMPTY_DISK)]
  {
    var run1, nds1 := FirstElection();
    FirstStored();
    var run2, nds2 := Pass(run1, nds1, 0, 1, AppendEntries(1, 0, 0, [FIRST], 0), Follow([FIRST], 0),
                           Outgoing(0, AppendResponse(1, true, 1)));
    FirstAcknowledged();
    run, nds := Play(run2, nds2, 0, Receive(1, AppendResponse(1, true, 1)));
  }

  const A := Entry(1, [7])
  const B := Entry(1, [8])

  lemma ThreeCommitted() returns (run: seq<System>, nds: Trio)
    ensures Stage(run, nds) && nds == [Lead([FIRST, A, B]), Follow([FIRST, A, B], 2), Boot(2, 3, 1, EMPTY_DISK)]
  {
    var run0, nds0 := FirstCommit();
    assert [FIRST] + [A] == [FIRST, A] && [FIRST, A] + [B] == [FIRST, A, B];
    var run1, nds1 := CommitOne(run0, nds0, [FIRST], A, 0);
    run, nds := CommitOne(run1, nds1, [FIRST, A], B, 1);
  }

  /** The leader's bookkeeping once node 2 has acknowledged its first entry. */
  function Leading(): NodeState {
    Lead([FIRST, A, B]).(nextIndex := [1, 4, 2], matchIndex := [0, 3, 1])
  }

  lemma Heartbeat()
    ensures var step := Step(Lead([FIRST, A, B]), Tick(true));
            step.node == Lead([FIRST, A, B]) && Outgoing(2, AppendEntries(1, 0, 0, [FIRST], 3)) in step.out
  {
    var nd := Lead([FIRST, A, B]);
    BroadcastIsAll(nd, 3);
    assert nd.log[0..1] == [FIRST];
    assert AppendFor(nd, 2) == Outgoing(2, AppendEntries(1, 0, 0, [FIRST], 3));
  }

  lemma LagStores()
    ensures Step(Boot(2, 3, 1, EMPTY_DISK), Receive(0, AppendEntries(1, 0, 0, [FIRST], 3))).node == Lag([FIRST], 1)
    ensures Step(Boot(2, 3, 1, EMPTY_DISK), Receive(0, AppendEntries(1, 0, 0, [FIRST], 3))).out ==
            [Outgoing(0, AppendResponse(1, true, 1))]
  {
    assert [] + [FIRST] == [FIRST] && [FIRST][0..] == [FIRST];
  }

  lemma LeaderGoesOn()
    ensures var step := Step(Lead([FIRST, A, B]), Receive(2, AppendResponse(1, true, 1)));
            step.node == Leading() && step.out == [Outgoing(2, AppendEntries(1, 1, 1, [A], 3))]
  {
    var nd := Noted(Lead([FIRST, A, B]), 2, true, 1);
    assert nd.matchIndex == [0, 3, 1] && nd.nextIndex == [1, 4, 2];
    assert nd.log[1..2] == [A];
  }

  lemma LagStoresMore()
    ensures Step(Lag([FIRST], 1), Receive(0, AppendEntries(1, 1, 1, [A], 3))).node == Lag([FIRST, A], 2)
  {
    assert [FIRST] + [A] == [FIRST, A] && [A][0..] == [A] && [FIRST][..1] == [FIRST];
  }

  /** The follower with two entries, having applied and committed so many. */
  function Lagging(applied: Index, commit: Index): NodeState {
    Lag([FIRST, A], commit).(appliedIndex := applied)
  }

  lemma LagForgets(applied: Index)
    ensures Step(Lagging(applied, 2), Receive(0, AppendEntries(1, 0, 0, [FIRST], 3))).node == Lagging(applied, 1)
  {
    assert Kept([FIRST, A], 0, [FIRST]) == 1;
  }

  lemma LagRemembers(applied: Index)
    ensures Step(Lagging(applied, 1), Receive(0, AppendEntries(1, 1, 1, [A], 3))).node == Lagging(applied, 2)
  {
    assert Kept([FIRST, A], 1, [A]) == 1;
  }

  lemma LagCatchesUp() returns (run: seq<System>, nds: Trio)
    ensures Stage(run, nds) && nds[2] == Lag([FIRST, A], 2)
    ensures Sent(Last(run), 0, Outgoing(2, AppendEntries(1, 0, 0, [FIRST], 3)))
    ensures Sent(Last(run), 0, Outgoing(2, AppendEntries(1, 1, 1, [A], 3)))
  {
    var run0, nds0 := ThreeCommitted();
    Heartbeat();
    var first := Outgoing(2, AppendEntries(1, 0, 0, [FIRST], 3));
    var run1, nds1 := Play(run0, nds0, 0, Tick(true));
    SendsTo(Last(run0), Last(run1), 0, Step(nds0[0], Tick(true)).out, first);
    LagStores();
    var run2, nds2 := Pass(run1, nds1, 0, 2, first.message, Lag([FIRST], 1), Outgoing(0, AppendResponse(1, true, 1)));
    LeaderGoesOn();
    var second := Outgoing(2, AppendEntries(1, 1, 1, [A], 3));
    var run3, nds3 := Pass(run2, nds2, 2, 0, AppendResponse(1, true, 1), Leading(), second);
    LagStoresMore();
    run, nds := Play(run3, nds3, 2, Receive(0, second.message));
  }

  /** The commit index of a live node can move back: a duplicate of an append limited to one entry
      arrives after a later one, and the announced commit index is beyond both. */
  lemma CommitIndexMovesBack() returns (run: seq<System>, k: nat, u: NodeId)
    ensures IsRun(run) && k + 1 < |run| && IsUp(run[k], u) && IsUp(run[k + 1], u)
    ensures NodeAt(run[k], u).commitIndex == 2 && NodeAt(run[k + 1], u).commitIndex == 1
  {
    var run0, nds0 := LagCatchesUp();
    LagForgets(0);
    assert Lagging(0, 2) == Lag([FIRST, A], 2);
    var nds: Trio;
    run, nds := Play(run0, nds0, 2, Receive(0, AppendEntries(1, 0, 0, [FIRST], 3)));
    k, u := |run0| - 1, 2;
    assert run[..|run|] == run;
    InState(run, run0, 2, nds0[2]);
    InState(run, run, 2, nds[2]);
  }

  // ---------------------------------------------------------------- an entry delivered twice

  /** Node `i` hands what it has newly committed to its state machine. */
  lemma Hand(run: seq<System>, nds: Trio, i: NodeId) returns (run': seq<System>, nds': Trio)
    requires Stage(run, nds) && i < 3 && nds[i].commitIndex <= |nds[i].log|
    ensures Stage(run', nds') && nds' == nds[i := Delivered(nds[i])] && Last(run').sent == Last(run).sent
    ensures |run'| == |run| + 1 && run'[..|run|] == run && Takes(run', |run| - 1, i)
  {
    var s, act := Last(run), Deliver(i);
    assert Player(s, i, nds[i]);
    var s' := Next(s, act);
    nds' := nds[i := Delivered(nds[i])];
    run' := run + [s'];
    assert IsStep(s, s');
    Extend(run, s');
    assert run'[|run| - 1] == s && run'[|run|] == s';
    forall j: NodeId | j < 3 ensures Player(s', j, nds'[j]) {
      assert Player(s, j, nds[j]);
    }
  }

  lemma TakesLonger(run: seq<System>, longer: seq<System>, k: nat, u: NodeId)
    requires Takes(run, k, u) && |run| <= |longer| && longer[..|run|] == run
    ensures Takes(longer, k, u)
  {
    assert longer[k] == run[k] && longer[k + 1] == run[k + 1];
  }

  lemma PrefixOfPrefix<T>(x: seq<T>, y: seq<T>, z: seq<T>)
    requires |x| <= |y| <= |z| && y[..|x|] == x && z[..|y|] == y
    ensures z[..|x|] == x
  {
  }

  lemma StageState(run: seq<System>, nds: Trio, longer: seq<System>)
    requires Stage(run, nds) && |run| <= |longer| && longer[..|run|] == run
    ensures IsUp(longer[|run| - 1], 2) && NodeAt(longer[|run| - 1], 2) == nds[2]
  {
    assert Player(Last(run), 2, nds[2]);
    InState(longer, run, 2, nds[2]);
  }

  /** Deliver, fall back, deliver, and go forward again: four steps of node 2. */
  lemma BackAndForth() returns (run0: seq<System>, run1: seq<System>, run: seq<System>, nds: Trio)
    ensures |run0| > 0 && |run1| == |run0| + 1 && |run| == |run0| + 4 && run[..|run1|] == run1
    ensures Stage(run, nds) && nds[2] == Lagging(1, 2) && Takes(run1, |run0| - 1, 2)
    ensures forall k :: |run0| - 1 <= k < |run| ==> IsUp(run[k], 2)
    ensures NodeAt(run[|run0| - 1], 2) == Lagging(0, 2)
  {
    var first, second := AppendEntries(1, 0, 0, [FIRST], 3), AppendEntries(1, 1, 1, [A], 3);
    var nds0, nds1, nds2, nds3: Trio;
    var run2, run3: seq<System>;
    run0, nds0 := LagCatchesUp();
    assert Sent(Last(run0), 0, Outgoing(2, first)) && Sent(Last(run0), 0, Outgoing(2, second));
    run1, nds1 := Hand(run0, nds0, 2);
    LagForgets(2);
    run2, nds2 := Play(run1, nds1, 2, Receive(0, first));
    run3, nds3 := Hand(run2, nds2, 2);
    LagRemembers(1);
    run, nds := Play(run3, nds3, 2, Receive(0, second));
    UpThroughout(run0, nds0, run1, nds1, run2, nds2, run3, nds3, run, nds);
  }

  lemma UpThroughout(run0: seq<System>, nds0: Trio, run1: seq<System>, nds1: Trio, run2: seq<System>, nds2: Trio,
                     run3: seq<System>, nds3: Trio, run: seq<System>, nds: Trio)
    requires Stage(run0, nds0) && Stage(run1, nds1) && Stage(run2, nds2) && Stage(run3, nds3) && Stage(run, nds)
    requires |run1| == |run0| + 1 && |run2| == |run0| + 2 && |run3| == |run0| + 3 && |run| == |run0| + 4
    requires run1[..|run0|] == run0 && run2[..|run1|] == run1 && run3[..|run2|] == run2 && run[..|run3|] == run3
    ensures run[..|run1|] == run1 && IsUp(run[|run0| - 1], 2) && NodeAt(run[|run0| - 1], 2) == nds0[2]
    ensures forall k :: |run0| - 1 <= k < |run| ==> IsUp(run[k], 2)
  {
    PrefixOfPrefix(run2, run3, run);
    PrefixOfPrefix(run1, run2, run);
    PrefixOfPrefix(run0, run1, run);
    assert run[..|run|] == run;
    StageState(run0, nds0, run);
    StageState(run1, nds1, run);
    StageState(run2, nds2, run);
    StageState(run3, nds3, run);
    StageState(run, nds, run);
  }

  /** An entry can be delivered twice: the same live node hands index 2 to its state machine in two
      different steps, with no restart in between. */
  lemma EntryDeliveredTwice() returns (run: seq<System>, i: nat, j: nat, u: NodeId)
    ensures IsRun(run) && i < j < |run| && Hands(run, i, u, 2) && Hands(run, j, u, 2)
    ensures forall k :: i <= k <= j ==> IsUp(run[k], u)
  {
    var run0, run1, run4, nds4 := BackAndForth();
    var nds: Trio;
    run, nds := Hand(run4, nds4, 2);
    i, j, u := |run0| - 1, |run4| - 1, 2;
    PrefixOfPrefix(run1, run4, run);
    TakesLonger(run1, run, i, u);
    forall k | i <= k <= j ensures run[k] == run4[k] {
      assert run[..|run4|][k] == run4[k];
    }
    IncludesExactly(NodeAt(run[i], u), 2);
    StageState(run4, nds4, run);
    IncludesExactly(NodeAt(run[j], u), 2);
  }
}
