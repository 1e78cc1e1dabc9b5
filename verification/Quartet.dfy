/** A run of four nodes on which a follower knows of more committed entries than the leader it follows: a new
    leader has yet to commit an entry of its own term, which takes a majority, and one follower is none. */
module Quartet {
  import opened Types
  import opened Quorum
  import opened NodeSpec
  import opened Cluster
  import opened Safety
  import opened Scenarios
  import Repair
  import CatchUp

  const NOOP := Entry(1, [])
  const NEXT := Entry(2, [])

  type Four = s: seq<NodeState> | |s| == 4 witness Filled(4, Fresh(0))

  function Fresh(id: NodeId): NodeState {
    NodeState(id, 4, 1, 0, None, [], Follower, None, 0, 0,
              [false, false, false, false], [1, 1, 1, 1], [0, 0, 0, 0])
  }

  lemma CountFour(a: bool, b: bool, c: bool, d: bool)
    ensures CountTrue([a, b, c, d])
         == (if a then 1 else 0) + (if b then 1 else 0) + (if c then 1 else 0) + (if d then 1 else 0)
  {
    assert [a, b, c] + [d] == [a, b, c, d];
    CountThree(a, b, c);
    CountMore([a, b, c], d);
  }

  lemma FreshIs(id: NodeId)
    requires id < 4
    ensures Boot(id, 4, 1, EMPTY_DISK) == Fresh(id)
  {
  }

  /** Node `i` handles `input` and comes to `nd`; two of its messages, or twice the same, are `x` and `y`. */
  lemma Move(run: seq<System>, nds: Four, i: NodeId, input: Input, nd: NodeState, x: Outgoing, y: Outgoing)
    returns (run': seq<System>, nds': Four)
    requires Stage(run, nds) && i < 4 && Shape(nds[i]) && Step(nds[i], input).node == nd
    requires x in Step(nds[i], input).out && y in Step(nds[i], input).out
    requires input.Receive? ==> Sent(Last(run), input.from, Outgoing(i, input.message))
    ensures Stage(run', nds') && Last(run).sent <= Last(run').sent && nds' == nds[i := nd]
    ensures Last(run').maxBatch == Last(run).maxBatch && Sent(Last(run'), i, x) && Sent(Last(run'), i, y)
  {
    run', nds' := Play(run, nds, i, input);
    SendsTo(Last(run), Last(run'), i, Step(nds[i], input).out, x);
    SendsTo(Last(run), Last(run'), i, Step(nds[i], input).out, y);
  }

  /** Node `i` handles a message and comes to `nd`. */
  lemma Hear(run: seq<System>, nds: Four, from: NodeId, i: NodeId, msg: Message, nd: NodeState)
    returns (run': seq<System>, nds': Four)
    requires Stage(run, nds) && i < 4 && Shape(nds[i]) && Step(nds[i], Receive(from, msg)).node == nd
    requires Sent(Last(run), from, Outgoing(i, msg))
    ensures Stage(run', nds') && Last(run).sent <= Last(run').sent && nds' == nds[i := nd]
    ensures Last(run').maxBatch == Last(run).maxBatch
  {
    run', nds' := Play(run, nds, i, Receive(from, msg));
  }

  // ---------------------------------------------------------------- term 1

  function Standing(id: NodeId, term: Term, log: seq<Entry>, votes: seq<bool>): NodeState {
    Fresh(id).(term := term, votedFor := Some(id), log := log, role := Candidate, votes := votes)
  }

  function Voter(id: NodeId, term: Term, candidate: NodeId): NodeState {
    Fresh(id).(term := term, votedFor := Some(candidate))
  }

  function Head(match1: Index, match2: Index, commit: Index): NodeState {
    Standing(0, 1, [NOOP], [true, true, true, false]).(role := Leader, leaderId := Some(0), commitIndex := commit,
      nextIndex := [1, match1 + 1, match2 + 1, 1], matchIndex := [0, match1, match2, 0])
  }

  function Holder(id: NodeId, commit: Index): NodeState {
    Voter(id, 1, 0).(log := [NOOP], leaderId := Some(0), commitIndex := commit)
  }

  lemma StandsFirst()
    ensures var step := Step(Fresh(0), Tick(true));
            && step.node == Standing(0, 1, [], [true, false, false, false])
            && Outgoing(1, RequestVote(1, 0, 0)) in step.out && Outgoing(2, RequestVote(1, 0, 0)) in step.out
  {
    assert Candidacy(Fresh(0)).votes == [true, false, false, false];
    CountFour(true, false, false, false);
    VoteBroadcastIsAll(Candidacy(Fresh(0)), 4);
  }

  lemma VotesFirst(id: NodeId)
    requires id == 1 || id == 2
    ensures Step(Fresh(id), Receive(0, RequestVote(1, 0, 0))) ==
            StepOut(Voter(id, 1, 0), [SaveHardState(1, None), SaveHardState(1, Some(0))],
                    [Outgoing(0, VoteResponse(1, true))])
  {
  }

  lemma CountsFirst()
    ensures Step(Standing(0, 1, [], [true, false, false, false]), Receive(1, VoteResponse(1, true))).node
         == Standing(0, 1, [], [true, true, false, false])
  {
    CountFour(true, true, false, false);
    assert [true, false, false, false][1 := true] == [true, true, false, false];
  }

  lemma NothingStored(nd: NodeState)
    requires nd.n == 4 && nd.matchIndex == [0, 0, 0, 0] && |nd.log| > 0 && nd.commitIndex == 0
    requires TermAt(nd.log, |nd.log| - 1) != nd.term
    ensures NodeSpec.AdvanceCommit(nd) == nd
  {
    assert Stored(nd, |nd.log|) == [false, false, false, false];
    CountFour(false, false, false, false);
    assert CommitScan(nd, |nd.log| - 1) == 0;
  }

  lemma HeadIs()
    ensures NodeSpec.BecomeLeader(Standing(0, 1, [], [true, true, true, false])) ==
            StepOut(Head(0, 0, 0), [Append([NOOP])], BroadcastAppend(Head(0, 0, 0), 4))
  {
    var c := Standing(0, 1, [], [true, true, true, false]);
    assert [] + [NOOP] == [NOOP];
    assert Crowned(c) == Head(0, 0, 0);
    NothingStored(Head(0, 0, 0));
  }

  lemma HeadSends(id: NodeId)
    requires id == 1 || id == 2
    ensures Outgoing(id, AppendEntries(1, 0, 0, [NOOP], 0)) in BroadcastAppend(Head(0, 0, 0), 4)
  {
    assert [NOOP][0..1] == [NOOP];
    assert AppendFor(Head(0, 0, 0), id) == Outgoing(id, AppendEntries(1, 0, 0, [NOOP], 0));
    BroadcastIsAll(Head(0, 0, 0), 4);
  }

  lemma WinsFirst()
    ensures Step(Standing(0, 1, [], [true, true, false, false]), Receive(2, VoteResponse(1, true)))
         == NodeSpec.BecomeLeader(Standing(0, 1, [], [true, true, true, false]))
  {
    CountFour(true, true, true, false);
    assert [true, true, false, false][2 := true] == [true, true, true, false];
  }

  lemma HeadElected()
    ensures var step := Step(Standing(0, 1, [], [true, true, false, false]), Receive(2, VoteResponse(1, true)));
            && step.node == Head(0, 0, 0)
            && Outgoing(1, AppendEntries(1, 0, 0, [NOOP], 0)) in step.out
            && Outgoing(2, AppendEntries(1, 0, 0, [NOOP], 0)) in step.out
  {
    WinsFirst();
    HeadIs();
    HeadSends(1);
    HeadSends(2);
  }

  lemma StoresFirst(id: NodeId)
    requires id == 1 || id == 2
    ensures var step := Step(Voter(id, 1, 0), Receive(0, AppendEntries(1, 0, 0, [NOOP], 0)));
            step.node == Holder(id, 0) && step.out == [Outgoing(0, AppendResponse(1, true, 1))]
  {
    assert [] + [NOOP] == [NOOP] && [NOOP][0..] == [NOOP];
  }

  lemma AckOfOne()
    ensures Step(Head(0, 0, 0), Receive(1, AppendResponse(1, true, 1))).node == Head(1, 0, 0)
  {
    var nd := Noted(Head(0, 0, 0), 1, true, 1);
    assert nd.matchIndex == [0, 1, 0, 0] && nd.nextIndex == [1, 2, 1, 1];
    assert Stored(nd, 1) == [false, true, false, false];
    CountFour(false, true, false, false);
    assert CommitScan(nd, 0) == 0;
  }

  lemma AckOfTwo()
    ensures Step(Head(1, 0, 0), Receive(2, AppendResponse(1, true, 1))).node == Head(1, 1, 1)
  {
    var nd := Noted(Head(1, 0, 0), 2, true, 1);
    assert nd.matchIndex == [0, 1, 1, 0] && nd.nextIndex == [1, 2, 2, 1];
    assert Stored(nd, 1) == [false, true, true, false];
    CountFour(false, true, true, false);
  }

  lemma AnnouncesFirst()
    ensures var step := Step(Head(1, 1, 1), Tick(true));
            step.node == Head(1, 1, 1) && Outgoing(1, AppendEntries(1, 1, 1, [], 1)) in step.out
  {
    BroadcastIsAll(Head(1, 1, 1), 4);
    assert [NOOP][1..1] == [];
    assert AppendFor(Head(1, 1, 1), 1) == Outgoing(1, AppendEntries(1, 1, 1, [], 1));
  }

  lemma HearsFirst()
    ensures Step(Holder(1, 0), Receive(0, AppendEntries(1, 1, 1, [], 1))).node == Holder(1, 1)
  {
  }

  lemma AllFresh() returns (run: seq<System>, nds: Four)
    ensures Stage(run, nds) && Last(run).maxBatch == 1 && nds == [Fresh(0), Fresh(1), Fresh(2), Fresh(3)]
  {
    run, nds := Opening(4, 1);
    FreshIs(0);
    FreshIs(1);
    FreshIs(2);
    FreshIs(3);
    assert nds == [nds[0], nds[1], nds[2], nds[3]];
  }

  lemma FirstVotes() returns (run: seq<System>, nds: Four)
    ensures Stage(run, nds) && Last(run).maxBatch == 1
    ensures nds == [Standing(0, 1, [], [true, false, false, false]), Voter(1, 1, 0), Voter(2, 1, 0), Fresh(3)]
    ensures Sent(Last(run), 1, Outgoing(0, VoteResponse(1, true)))
    ensures Sent(Last(run), 2, Outgoing(0, VoteResponse(1, true)))
  {
    var run0, nds0 := AllFresh();
    var ask, yes := RequestVote(1, 0, 0), Outgoing(0, VoteResponse(1, true));
    StandsFirst();
    var run1, nds1 := Move(run0, nds0, 0, Tick(true), Standing(0, 1, [], [true, false, false, false]),
                           Outgoing(1, ask), Outgoing(2, ask));
    VotesFirst(1);
    var run2, nds2 := Pass(run1, nds1, 0, 1, ask, Voter(1, 1, 0), yes);
    VotesFirst(2);
    run, nds := Pass(run2, nds2, 0, 2, ask, Voter(2, 1, 0), yes);
  }

  lemma FirstCounted() returns (run: seq<System>, nds: Four)
    ensures Stage(run, nds) && Last(run).maxBatch == 1
    ensures nds == [Standing(0, 1, [], [true, true, false, false]), Voter(1, 1, 0), Voter(2, 1, 0), Fresh(3)]
    ensures Sent(Last(run), 2, Outgoing(0, VoteResponse(1, true)))
  {
    var run0, nds0 := FirstVotes();
    CountsFirst();
    run, nds := Hear(run0, nds0, 1, 0, VoteResponse(1, true), Standing(0, 1, [], [true, true, false, false]));
  }

  /** Node 0 leads term 1, with the votes of nodes 1 and 2. */
  lemma FirstLeads() returns (run: seq<System>, nds: Four)
    ensures Stage(run, nds) && Last(run).maxBatch == 1
    ensures nds == [Head(0, 0, 0), Voter(1, 1, 0), Voter(2, 1, 0), Fresh(3)]
    ensures Sent(Last(run), 0, Outgoing(1, AppendEntries(1, 0, 0, [NOOP], 0)))
    ensures Sent(Last(run), 0, Outgoing(2, AppendEntries(1, 0, 0, [NOOP], 0)))
  {
    var run0, nds0 := FirstCounted();
    HeadElected();
    var m := AppendEntries(1, 0, 0, [NOOP], 0);
    run, nds := Move(run0, nds0, 0, Receive(2, VoteResponse(1, true)), Head(0, 0, 0), Outgoing(1, m), Outgoing(2, m));
  }

  lemma FirstStored() returns (run: seq<System>, nds: Four)
    ensures Stage(run, nds) && Last(run).maxBatch == 1
    ensures nds == [Head(0, 0, 0), Holder(1, 0), Holder(2, 0), Fresh(3)]
    ensures Sent(Last(run), 1, Outgoing(0, AppendResponse(1, true, 1)))
    ensures Sent(Last(run), 2, Outgoing(0, AppendResponse(1, true, 1)))
  {
    var run0, nds0 := FirstLeads();
    var m, ack := AppendEntries(1, 0, 0, [NOOP], 0), Outgoing(0, AppendResponse(1, true, 1));
    StoresFirst(1);
    var run1, nds1 := Pass(run0, nds0, 0, 1, m, Holder(1, 0), ack);
    StoresFirst(2);
    run, nds := Pass(run1, nds1, 0, 2, m, Holder(2, 0), ack);
  }

  /** It commits its entry. */
  lemma FirstCommitted() returns (run: seq<System>, nds: Four)
    ensures Stage(run, nds) && Last(run).maxBatch == 1
    ensures nds == [Head(1, 1, 1), Holder(1, 0), Holder(2, 0), Fresh(3)]
  {
    var run0, nds0 := FirstStored();
    AckOfOne();
    var run1, nds1 := Hear(run0, nds0, 1, 0, AppendResponse(1, true, 1), Head(1, 0, 0));
    AckOfTwo();
    run, nds := Hear(run1, nds1, 2, 0, AppendResponse(1, true, 1), Head(1, 1, 1));
  }

  /** And node 1 hears of it. */
  lemma FirstAnnounced() returns (run: seq<System>, nds: Four)
    ensures Stage(run, nds) && Last(run).maxBatch == 1
    ensures nds == [Head(1, 1, 1), Holder(1, 1), Holder(2, 0), Fresh(3)]
  {
    var run0, nds0 := FirstCommitted();
    AnnouncesFirst();
    var o := Outgoing(1, AppendEntries(1, 1, 1, [], 1));
    var run1, nds1 := Move(run0, nds0, 0, Tick(true), Head(1, 1, 1), o, o);
    HearsFirst();
    run, nds := Hear(run1, nds1, 0, 1, AppendEntries(1, 1, 1, [], 1), Holder(1, 1));
  }

  // ---------------------------------------------------------------- term 2

  /** The new leader, of term 2: it holds the committed entry, but has not been told so. */
  function NewHead(match1: Index): NodeState {
    Standing(2, 2, [NOOP, NEXT], [false, true, true, true]).(role := Leader, leaderId := Some(2),
      nextIndex := [2, if match1 == 0 then 2 else match1 + 1, 2, 2], matchIndex := [0, match1, 0, 0])
  }

  function OldHolder(): NodeState {
    Voter(1, 2, 2).(log := [NOOP], commitIndex := 1)
  }

  lemma StandsNext()
    ensures var step := Step(Holder(2, 0), Tick(true));
            && step.node == Standing(2, 2, [NOOP], [false, false, true, false])
            && Outgoing(1, RequestVote(2, 1, 1)) in step.out && Outgoing(3, RequestVote(2, 1, 1)) in step.out
  {
    assert Candidacy(Holder(2, 0)).votes == [false, false, true, false];
    CountFour(false, false, true, false);
    VoteBroadcastIsAll(Candidacy(Holder(2, 0)), 4);
  }

  lemma VotesNext()
    ensures var step := Step(Holder(1, 1), Receive(2, RequestVote(2, 1, 1)));
            step.node == OldHolder() && step.out == [Outgoing(2, VoteResponse(2, true))]
    ensures var step := Step(Fresh(3), Receive(2, RequestVote(2, 1, 1)));
            step.node == Voter(3, 2, 2) && step.out == [Outgoing(2, VoteResponse(2, true))]
  {
  }

  lemma CountsNext()
    ensures Step(Standing(2, 2, [NOOP], [false, false, true, false]), Receive(1, VoteResponse(2, true))).node
         == Standing(2, 2, [NOOP], [false, true, true, false])
  {
    CountFour(false, true, true, false);
    assert [false, false, true, false][1 := true] == [false, true, true, false];
  }

  lemma WinsNext()
    ensures Step(Standing(2, 2, [NOOP], [false, true, true, false]), Receive(3, VoteResponse(2, true)))
         == NodeSpec.BecomeLeader(Standing(2, 2, [NOOP], [false, true, true, true]))
  {
    CountFour(false, true, true, true);
    assert [false, true, true, false][3 := true] == [false, true, true, true];
  }

  lemma NewHeadIs()
    ensures NodeSpec.BecomeLeader(Standing(2, 2, [NOOP], [false, true, true, true])) ==
            StepOut(NewHead(0), [Append([NEXT])], BroadcastAppend(NewHead(0), 4))
  {
    var c := Standing(2, 2, [NOOP], [false, true, true, true]);
    assert [NOOP] + [NEXT] == [NOOP, NEXT];
    assert Crowned(c) == NewHead(0);
    NothingStored(NewHead(0));
  }

  lemma NewHeadSends()
    ensures Outgoing(1, AppendEntries(2, 1, 1, [NEXT], 0)) in BroadcastAppend(NewHead(0), 4)
  {
    assert [NOOP, NEXT][1..2] == [NEXT];
    assert AppendFor(NewHead(0), 1) == Outgoing(1, AppendEntries(2, 1, 1, [NEXT], 0));
    BroadcastIsAll(NewHead(0), 4);
  }

  lemma StoresNext()
    ensures var step := Step(OldHolder(), Receive(2, AppendEntries(2, 1, 1, [NEXT], 0)));
            && step.node == OldHolder().(log := [NOOP, NEXT], leaderId := Some(2))
            && step.out == [Outgoing(2, AppendResponse(2, true, 2))]
  {
    assert [NOOP][..1] == [NOOP] && [NOOP] + [NEXT] == [NOOP, NEXT] && [NEXT][0..] == [NEXT];
  }

  lemma AckNext()
    ensures Step(NewHead(0), Receive(1, AppendResponse(2, true, 2))).node == NewHead(2)
  {
    var nd := Noted(NewHead(0), 1, true, 2);
    assert nd.matchIndex == [0, 2, 0, 0] && nd.nextIndex == [2, 3, 2, 2];
    assert Stored(nd, 2) == [false, true, false, false];
    CountFour(false, true, false, false);
    assert CommitScan(nd, 1) == 0;
  }

  lemma NextVotes() returns (run: seq<System>, nds: Four)
    ensures Stage(run, nds) && Last(run).maxBatch == 1
    ensures nds == [Head(1, 1, 1), OldHolder(), Standing(2, 2, [NOOP], [false, false, true, false]), Voter(3, 2, 2)]
    ensures Sent(Last(run), 1, Outgoing(2, VoteResponse(2, true)))
    ensures Sent(Last(run), 3, Outgoing(2, VoteResponse(2, true)))
  {
    var run0, nds0 := FirstAnnounced();
    var ask, yes := RequestVote(2, 1, 1), Outgoing(2, VoteResponse(2, true));
    StandsNext();
    var run1, nds1 := Move(run0, nds0, 2, Tick(true), Standing(2, 2, [NOOP], [false, false, true, false]),
                           Outgoing(1, ask), Outgoing(3, ask));
    VotesNext();
    var run2, nds2 := Pass(run1, nds1, 2, 1, ask, OldHolder(), yes);
    run, nds := Pass(run2, nds2, 2, 3, ask, Voter(3, 2, 2), yes);
  }

  /** Node 2 leads term 2, with the votes of nodes 1 and 3. */
  lemma NextLeads() returns (run: seq<System>, nds: Four)
    ensures Stage(run, nds) && Last(run).maxBatch == 1
    ensures nds == [Head(1, 1, 1), OldHolder(), NewHead(0), Voter(3, 2, 2)]
    ensures Sent(Last(run), 2, Outgoing(1, AppendEntries(2, 1, 1, [NEXT], 0)))
  {
    var run0, nds0 := NextVotes();
    CountsNext();
    var run1, nds1 := Hear(run0, nds0, 1, 2, VoteResponse(2, true), Standing(2, 2, [NOOP], [false, true, true, false]));
    WinsNext();
    NewHeadIs();
    NewHeadSends();
    var o := Outgoing(1, AppendEntries(2, 1, 1, [NEXT], 0));
    run, nds := Move(run1, nds1, 2, Receive(3, VoteResponse(2, true)), NewHead(0), o, o);
  }

  /** Node 1 stores all that the new leader has, and still knows of one committed entry more. */
  lemma NextStored() returns (run: seq<System>, nds: Four)
    ensures Stage(run, nds) && Last(run).maxBatch == 1
    ensures nds == [Head(1, 1, 1), OldHolder().(log := [NOOP, NEXT], leaderId := Some(2)), NewHead(2), Voter(3, 2, 2)]
  {
    var run0, nds0 := NextLeads();
    StoresNext();
    var run1, nds1 := Pass(run0, nds0, 2, 1, AppendEntries(2, 1, 1, [NEXT], 0),
                           OldHolder().(log := [NOOP, NEXT], leaderId := Some(2)),
                           Outgoing(2, AppendResponse(2, true, 2)));
    AckNext();
    run, nds := Hear(run1, nds1, 1, 2, AppendResponse(2, true, 2), NewHead(2));
  }

  /** So equal logs and one more heartbeat do not always bring the two commit indices together: the leader has
      committed nothing, and its follower one entry. */
  lemma FollowerStaysAhead() returns (run: seq<System>, run': seq<System>)
    ensures IsRun(run') && |run| > 0 && run <= run' && |run'| == |run| + 2
    ensures Repair.Pair(Last(run), 2, 1, 2) && NodeAt(Last(run), 2).matchIndex[1] == 2 == |NodeAt(Last(run), 2).log|
    ensures Repair.Calls(run', |run| - 1, 2, Tick(true)) && Repair.Answers(run', |run|, 1, 2)
    ensures IsUp(Last(run'), 1) && IsUp(Last(run'), 2) && NodeAt(Last(run'), 1).log == NodeAt(Last(run'), 2).log
    ensures NodeAt(Last(run'), 2).commitIndex == 0 && NodeAt(Last(run'), 1).commitIndex == 1
  {
    var nds: Four;
    run, nds := NextStored();
    assert Player(Last(run), 1, nds[1]) && Player(Last(run), 2, nds[2]);
    run' := CatchUp.HeartbeatHeard(run, 2, 1, 2);
  }
}
