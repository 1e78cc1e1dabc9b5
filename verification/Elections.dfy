/** Elections on runs: a candidate counts exactly the votes it was given, it leads exactly when they are a
    majority, and whoever is named as leader to a client really led. */
module Elections {
  import opened Types
  import opened Quorum
  import opened NodeSpec
  import opened Cluster
  import opened Safety
  import opened Promises
  import Runs
  import Effects

  // ---------------------------------------------------------------- votes a candidate is given

  /** In the step after state `j`, candidate `u` of term `t` handles a vote given by `p`. */
  ghost predicate Given(run: seq<System>, j: nat, u: NodeId, t: Term, p: NodeId) {
    && j + 1 < |run| && IsUp(run[j], u) && NodeAt(run[j], u).role == Candidate && NodeAt(run[j], u).term == t
    && p != u && Enabled(run[j], VoteArrives(u, t, p)) && run[j + 1] == Next(run[j], VoteArrives(u, t, p))
  }

  function VoteArrives(u: NodeId, t: Term, p: NodeId): Action {
    Run(u, Receive(p, VoteResponse(t, true)))
  }

  /** By state `k`, `p` supports `u` in term `t`: it is `u` itself, or its vote was handled. */
  ghost predicate Supports(run: seq<System>, k: nat, u: NodeId, t: Term, p: NodeId) {
    p == u || exists j: nat :: j < k && Given(run, j, u, t, p)
  }

  ghost function Supporters(run: seq<System>, k: nat, u: NodeId, t: Term): set<NodeId>
    requires k < |run|
  {
    set p: NodeId | p < run[k].n && Supports(run, k, u, t, p)
  }

  /** What a node that is not a follower has counted. */
  ghost predicate Tallied(run: seq<System>, k: nat, u: NodeId)
    requires k < |run| && IsUp(run[k], u)
  {
    var nd := NodeAt(run[k], u);
    && |nd.votes| == nd.n == run[k].n
    && (nd.role != Follower ==>
      && (forall p: NodeId :: p < nd.n ==> (nd.votes[p] <==> Supports(run, k, u, nd.term, p)))
      && (nd.role == Leader <==> CountTrue(nd.votes) >= QuorumSize(nd.n)))
  }

  // ---------------------------------------------------------------- one call

  /** How a call leaves a node that is not a follower: it has just started an election, or it has counted at
      most the vote that came in. */
  ghost predicate Counts(nd: NodeState, input: Input, nd': NodeState)
    requires Shape(nd) && nd'.n == nd.n && |nd'.votes| == nd.n
  {
    && (nd'.role == Leader <==> CountTrue(nd'.votes) >= QuorumSize(nd.n))
    && ((nd'.term == nd.term + 1 && nd'.votes == Filled(nd.n, false)[nd.id := true])
        || (nd'.term == nd.term && nd.role != Follower
            && (nd'.votes == nd.votes || (IsVote(nd, input) && nd'.votes == nd.votes[input.from := true]))))
  }

  predicate IsVote(nd: NodeState, input: Input) {
    && nd.role == Candidate && input.Receive? && input.from < nd.n && input.from != nd.id
    && input.message == VoteResponse(nd.term, true)
  }

  lemma MessageCounts(nd: NodeState, from: NodeId, msg: Message)
    requires Shape(nd) && from < nd.n && from != nd.id && msg.term <= nd.term
    requires nd.role != Follower ==> (nd.role == Leader <==> CountTrue(nd.votes) >= QuorumSize(nd.n))
    requires OnMessage(nd, from, msg).node.role != Follower
    ensures Counts(nd, Receive(from, msg), OnMessage(nd, from, msg).node)
  {
    if !IsVote(nd, Receive(from, msg)) {
      MessageKeepsVotes(nd, from, msg);
    }
  }

  lemma MessageKeepsVotes(nd: NodeState, from: NodeId, msg: Message)
    requires Shape(nd) && from < nd.n && from != nd.id && msg.term <= nd.term && !IsVote(nd, Receive(from, msg))
    requires OnMessage(nd, from, msg).node.role != Follower
    ensures var nd' := OnMessage(nd, from, msg).node;
            nd'.votes == nd.votes && nd'.role == nd.role && nd'.term == nd.term && nd'.n == nd.n
  {
  }

  lemma StepCounts(nd: NodeState, input: Input)
    requires Shape(nd) && Shape(Step(nd, input).node) && Step(nd, input).node.n == nd.n
    requires nd.role != Follower ==> (nd.role == Leader <==> CountTrue(nd.votes) >= QuorumSize(nd.n))
    requires Step(nd, input).node.role != Follower
    ensures Counts(nd, input, Step(nd, input).node)
  {
    match input
    case Tick(_) =>
    case Propose(_) =>
    case Receive(from, msg) =>
      if from != nd.id && from < nd.n {
        if msg.term > nd.term {
          Effects.LaterTermAdopted(nd, from, msg);
        } else {
          MessageCounts(nd, from, msg);
        }
      }
  }

  lemma GivenIsCounted(nd: NodeState, p: NodeId)
    requires Shape(nd) && nd.role == Candidate && p < nd.n && p != nd.id
    ensures var step := Step(nd, Receive(p, VoteResponse(nd.term, true)));
            step.node.votes == nd.votes[p := true] && step.node.term == nd.term && step.node.role != Follower
  {
  }

  // ---------------------------------------------------------------- runs

  lemma SizeFixed(run: seq<System>, k: nat, u: NodeId)
    requires IsRun(run) && k < |run| && IsUp(run[k], u)
    ensures u < run[k].n == NodeAt(run[k], u).n && Shape(NodeAt(run[k], u)) && NodeAt(run[k], u).id == u
    ensures u < |run[k].disks| && run[k].disks[u] == Disk(NodeAt(run[k], u))
  {
    var hs := Runs.RunWitnessed(run);
    assert Runs.ServerAt(run[k], hs[k], u);
  }

  lemma ActionAt(run: seq<System>, k: nat) returns (act: Action)
    requires IsRun(run) && k + 1 < |run|
    ensures Enabled(run[k], act) && run[k + 1] == Next(run[k], act)
  {
    assert StepAt(run, k);
    act :| Enabled(run[k], act) && run[k + 1] == Next(run[k], act);
  }

  lemma SupportsLater(run: seq<System>, k: nat, u: NodeId, t: Term, p: NodeId)
    ensures Supports(run, k + 1, u, t, p) <==> Supports(run, k, u, t, p) || Given(run, k, u, t, p)
  {
  }

  /** Nobody has supported a node in a term it has not reached. */
  lemma {:induction false} NotYetGiven(run: seq<System>, k: nat, u: NodeId, t: Term, p: NodeId)
    requires IsRun(run) && k < |run| && IsUp(run[k], u) && NodeAt(run[k], u).term < t
    ensures Supports(run, k, u, t, p) <==> p == u
  {
    forall j: nat | j < k ensures !Given(run, j, u, t, p) {
      if Given(run, j, u, t, p) {
        CommittedSurvives(run, j, k, u);
        NothingOutOfRange(run, k, u);
      }
    }
  }

  /** A vote handled in the step after state `k` is counted in the next state. */
  lemma GivenCounted(run: seq<System>, k: nat, u: NodeId, t: Term, p: NodeId)
    requires IsRun(run) && Given(run, k, u, t, p) && p < run[k].n
    ensures IsUp(run[k + 1], u) && run[k + 1].n == run[k].n
    ensures var nd, nd' := NodeAt(run[k], u), NodeAt(run[k + 1], u);
            && |nd.votes| == nd.n == run[k].n && nd'.votes == nd.votes[p := true]
            && nd'.term == t && nd'.role != Follower
  {
    SizeFixed(run, k, u);
    GivenIsCounted(NodeAt(run[k], u), p);
  }

  /** If the votes in the next state are those before, with perhaps the one that came in, the tally is
      right again. */
  lemma TallyAfter(run: seq<System>, k: nat, u: NodeId, p: NodeId)
    requires IsRun(run) && k + 1 < |run| && IsUp(run[k], u) && IsUp(run[k + 1], u) && Tallied(run, k, u)
    requires run[k + 1].n == run[k].n && NodeAt(run[k], u).role != Follower && p < run[k].n
    requires var nd, nd' := NodeAt(run[k], u), NodeAt(run[k + 1], u);
             && nd'.term == nd.term && |nd'.votes| == |nd.votes|
             && (nd'.votes[p] <==> nd.votes[p] || Given(run, k, u, nd.term, p))
    ensures NodeAt(run[k + 1], u).votes[p] <==> Supports(run, k + 1, u, NodeAt(run[k + 1], u).term, p)
  {
    SupportsLater(run, k, u, NodeAt(run[k], u).term, p);
  }

  lemma CallTallied(run: seq<System>, k: nat, u: NodeId, input: Input)
    requires IsRun(run) && k + 1 < |run| && Enabled(run[k], Run(u, input)) && run[k + 1] == Next(run[k], Run(u, input))
    requires IsUp(run[k], u) && Tallied(run, k, u)
    ensures Tallied(run, k + 1, u)
  {
    var nd, nd' := NodeAt(run[k], u), NodeAt(run[k + 1], u);
    SizeFixed(run, k, u);
    SizeFixed(run, k + 1, u);
    if nd'.role != Follower {
      StepCounts(nd, input);
      forall p: NodeId | p < nd.n ensures nd'.votes[p] <==> Supports(run, k + 1, u, nd'.term, p) {
        if nd'.term == nd.term + 1 {
          NotYetGiven(run, k, u, nd'.term, p);
          SupportsLater(run, k, u, nd'.term, p);
        } else {
          VoteCounted(run, k, u, input, p);
          TallyAfter(run, k, u, p);
        }
      }
    }
  }

  lemma VoteCounted(run: seq<System>, k: nat, u: NodeId, input: Input, p: NodeId)
    requires IsRun(run) && k + 1 < |run| && Enabled(run[k], Run(u, input)) && run[k + 1] == Next(run[k], Run(u, input))
    requires IsUp(run[k], u) && p < run[k].n
    requires var nd, nd' := NodeAt(run[k], u), NodeAt(run[k + 1], u);
             && |nd.votes| == |nd'.votes| == nd.n == run[k].n && nd.id == u
             && (nd'.votes == nd.votes || (IsVote(nd, input) && nd'.votes == nd.votes[input.from := true]))
    ensures NodeAt(run[k + 1], u).votes[p] <==>
              NodeAt(run[k], u).votes[p] || Given(run, k, u, NodeAt(run[k], u).term, p)
  {
    var nd, nd' := NodeAt(run[k], u), NodeAt(run[k + 1], u);
    if Given(run, k, u, nd.term, p) {
      GivenCounted(run, k, u, nd.term, p);
    } else if nd'.votes != nd.votes {
      assert VoteArrives(u, nd.term, input.from) == Run(u, input);
    }
  }

  lemma UncalledTallied(run: seq<System>, k: nat, u: NodeId, act: Action)
    requires IsRun(run) && k + 1 < |run| && Enabled(run[k], act) && run[k + 1] == Next(run[k], act)
    requires IsUp(run[k], u) && IsUp(run[k + 1], u) && Tallied(run, k, u) && !(act.Run? && act.i == u)
    ensures Tallied(run, k + 1, u)
  {
    var nd, nd' := NodeAt(run[k], u), NodeAt(run[k + 1], u);
    SizeFixed(run, k + 1, u);
    if nd.role != Follower {
      forall p: NodeId | p < nd.n ensures nd'.votes[p] <==> Supports(run, k + 1, u, nd'.term, p) {
        if Given(run, k, u, nd.term, p) {
          GivenCounted(run, k, u, nd.term, p);
        }
        TallyAfter(run, k, u, p);
      }
    }
  }

  lemma StepTallied(run: seq<System>, k: nat, u: NodeId)
    requires IsRun(run) && k + 1 < |run| && IsUp(run[k], u) && IsUp(run[k + 1], u) && Tallied(run, k, u)
    ensures Tallied(run, k + 1, u)
  {
    var act := ActionAt(run, k);
    if act.Run? && act.i == u {
      CallTallied(run, k, u, act.input);
    } else {
      UncalledTallied(run, k, u, act);
    }
  }

  lemma JustBooted(run: seq<System>, k: nat, u: NodeId)
    requires IsRun(run) && k + 1 < |run| && !IsUp(run[k], u) && IsUp(run[k + 1], u)
    ensures NodeAt(run[k + 1], u).role == Follower
  {
    var act := ActionAt(run, k);
  }

  /** In every reachable state, a node that is not a follower has counted exactly its own vote and those
      handled since it began its candidacy, and it leads if and only if that is enough. */
  lemma {:induction false} VotesTallied(run: seq<System>, k: nat, u: NodeId)
    requires IsRun(run) && k < |run| && IsUp(run[k], u)
    ensures Tallied(run, k, u)
  {
    SizeFixed(run, k, u);
    if k > 0 {
      if IsUp(run[k - 1], u) {
        VotesTallied(run, k - 1, u);
        StepTallied(run, k - 1, u);
      } else {
        JustBooted(run, k - 1, u);
      }
    }
  }

  /** For a cluster of any size: a candidate or leader leads if and only if its supporters are a majority
      of the cluster. */
  lemma LeadsByMajority(run: seq<System>, k: nat, u: NodeId)
    requires IsRun(run) && k < |run| && IsUp(run[k], u) && NodeAt(run[k], u).role != Follower
    ensures Leads(run[k], u, NodeAt(run[k], u).term) <==>
              IsQuorum(run[k].n, Supporters(run, k, u, NodeAt(run[k], u).term))
  {
    var nd := NodeAt(run[k], u);
    VotesTallied(run, k, u);
    assert Supporters(run, k, u, nd.term) == Trues(nd.votes);
    CountedQuorum(nd.n, nd.votes);
  }

  /** So the vote that completes a majority makes the candidate leader in the very next state, and until
      then it stays a candidate. */
  lemma LastVoteElects(run: seq<System>, k: nat, u: NodeId, t: Term, p: NodeId)
    requires IsRun(run) && Given(run, k, u, t, p)
    ensures IsUp(run[k + 1], u) && NodeAt(run[k + 1], u).term == t
    ensures p < run[k].n ==>
              if IsQuorum(run[k + 1].n, Supporters(run, k + 1, u, t)) then Leads(run[k + 1], u, t)
              else NodeAt(run[k + 1], u).role == Candidate
  {
    SizeFixed(run, k, u);
    if p < run[k].n {
      GivenCounted(run, k, u, t, p);
      LeadsByMajority(run, k + 1, u);
    }
  }

  // ---------------------------------------------------------------- who a client is sent to

  lemma MessageAppends(nd: NodeState, from: NodeId, msg: Message, o: Outgoing)
    requires Shape(nd) && from < nd.n && o in OnMessage(nd, from, msg).out && o.message.AppendEntries?
    ensures OnMessage(nd, from, msg).node.role == Leader && o.message.term == OnMessage(nd, from, msg).node.term
  {
    if msg.VoteResponse? && nd.role == Candidate {
      BroadcastIsAll(NodeSpec.AdvanceCommit(Crowned(nd.(votes := nd.votes[from := true]))), nd.n);
    }
  }

  /** Only a leader sends appends, and in its own term. */
  lemma StepAppends(nd: NodeState, input: Input, o: Outgoing)
    requires Shape(nd) && o in Step(nd, input).out && o.message.AppendEntries?
    ensures Step(nd, input).node.role == Leader && o.message.term == Step(nd, input).node.term
  {
    match input
    case Tick(due) =>
      if due && nd.role == Leader {
        BroadcastIsAll(nd, nd.n);
      } else if due {
        VoteBroadcastIsAll(Candidacy(nd), nd.n);
        BroadcastIsAll(NodeSpec.AdvanceCommit(Crowned(Candidacy(nd))), nd.n);
      }
    case Propose(command) =>
      if nd.role == Leader {
        BroadcastIsAll(NodeSpec.AdvanceCommit(Lengthened(nd, command)), nd.n);
      }
    case Receive(from, msg) =>
      MessageAppends(if msg.term > nd.term then NodeSpec.StepDown(nd, msg.term).node else nd, from, msg, o);
  }

  /** Some state up to `k` has `v` leading term `t`. */
  ghost predicate Led(run: seq<System>, k: nat, v: NodeId, t: Term)
    requires k < |run|
  {
    exists j: nat :: j <= k && Leads(run[j], v, t)
  }

  lemma AppendFromLeader(run: seq<System>, k: nat, m: Packet)
    requires IsRun(run) && k < |run| && m in run[k].sent && m.message.AppendEntries?
    ensures Led(run, k, m.from, m.message.term)
  {
    var a := FirstSent(run, k, m);
    var act := ActionAt(run, a - 1);
    var out := Step(NodeAt(run[a - 1], act.i), act.input).out;
    assert m in Packets(act.i, out);
    var o :| o in out && m == Packet(act.i, o.to, o.message);
    StepAppends(NodeAt(run[a - 1], act.i), act.input, o);
    assert Leads(run[a], m.from, m.message.term);
  }

  /** Where a node's idea of the leader comes from. */
  ghost predicate HintFrom(nd: NodeState, input: Input, nd': NodeState) {
    || nd'.leaderId == None
    || (nd'.leaderId == nd.leaderId && nd'.term == nd.term)
    || (nd'.leaderId == Some(nd.id) && nd'.role == Leader)
    || (&& input.Receive? && input.message.AppendEntries?
        && nd'.leaderId == Some(input.from) && nd'.term == input.message.term)
  }

  lemma MessageHints(nd: NodeState, from: NodeId, msg: Message)
    requires Shape(nd) && from < nd.n && msg.term <= nd.term
    ensures HintFrom(nd, Receive(from, msg), OnMessage(nd, from, msg).node)
  {
  }

  lemma StepHints(nd: NodeState, input: Input)
    requires Shape(nd)
    ensures HintFrom(nd, input, Step(nd, input).node)
  {
    if input.Receive? && input.from < nd.n && input.from != nd.id {
      if input.message.term > nd.term {
        Effects.LaterTermAdopted(nd, input.from, input.message);
      } else {
        MessageHints(nd, input.from, input.message);
      }
    }
  }

  ghost predicate HintTrue(run: seq<System>, k: nat, u: NodeId)
    requires k < |run|
  {
    IsUp(run[k], u) && NodeAt(run[k], u).leaderId.Some? ==>
      Led(run, k, NodeAt(run[k], u).leaderId.value, NodeAt(run[k], u).term)
  }

  lemma CallHints(run: seq<System>, k: nat, u: NodeId, input: Input)
    requires IsRun(run) && k + 1 < |run| && Enabled(run[k], Run(u, input)) && run[k + 1] == Next(run[k], Run(u, input))
    requires HintTrue(run, k, u)
    ensures HintTrue(run, k + 1, u)
  {
    var nd, nd' := NodeAt(run[k], u), NodeAt(run[k + 1], u);
    StepHints(nd, input);
    SizeFixed(run, k, u);
    if input.Receive? && input.message.AppendEntries? {
      AppendFromLeader(run, k, Packet(input.from, u, input.message));
    }
    if nd'.leaderId == Some(u) && nd'.role == Leader {
      assert Leads(run[k + 1], u, nd'.term);
    }
  }

  lemma UncalledNames(run: seq<System>, k: nat, u: NodeId, act: Action)
    requires k + 1 < |run| && Enabled(run[k], act) && run[k + 1] == Next(run[k], act)
    requires HintTrue(run, k, u) && !(act.Run? && act.i == u)
    ensures HintTrue(run, k + 1, u)
  {
    if IsUp(run[k], u) && IsUp(run[k + 1], u) && NodeAt(run[k], u).leaderId.Some? {
      LedLater(run, k, NodeAt(run[k], u).leaderId.value, NodeAt(run[k], u).term);
    }
  }

  lemma LedLater(run: seq<System>, k: nat, v: NodeId, t: Term)
    requires k + 1 < |run| && Led(run, k, v, t)
    ensures Led(run, k + 1, v, t)
  {
    var j: nat :| j <= k && Leads(run[j], v, t);
  }

  lemma StepNames(run: seq<System>, k: nat, u: NodeId)
    requires IsRun(run) && k + 1 < |run| && HintTrue(run, k, u)
    ensures HintTrue(run, k + 1, u)
  {
    var act := ActionAt(run, k);
    if act.Run? && act.i == u {
      CallHints(run, k, u, act.input);
    } else {
      UncalledNames(run, k, u, act);
    }
  }

  /** Whoever a node names as the leader, also when it turns a command away, did lead the node's term. */
  lemma {:induction false} NamedLeaderLed(run: seq<System>, k: nat, u: NodeId)
    requires IsRun(run) && k < |run|
    ensures HintTrue(run, k, u)
  {
    if k > 0 {
      NamedLeaderLed(run, k - 1, u);
      StepNames(run, k - 1, u);
    }
  }
}
