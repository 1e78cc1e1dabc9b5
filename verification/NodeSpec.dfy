/** The node as pure step functions. Each returns the new node, the storage writes in the order
    they are made, and the messages sent afterwards. `Node` is the same node as the source has it,
    a mutable object, proved against these functions. */
module NodeSpec {
  import opened Types
  import opened Quorum

  datatype Role = Follower | Candidate | Leader

  datatype NodeState = NodeState(
    id: NodeId,
    n: nat,
    maxBatch: nat,
    term: Term,
    votedFor: Option<NodeId>,
    log: seq<Entry>,
    role: Role,
    leaderId: Option<NodeId>,
    commitIndex: Index,
    appliedIndex: Index,
    votes: seq<bool>,
    nextIndex: seq<Index>,
    matchIndex: seq<Index>)

  datatype StepOut = StepOut(node: NodeState, writes: seq<Write>, out: seq<Outgoing>)

  /** One call into the node: a timer check (`due` says whether the deadline has passed), a message,
      or a client command. */
  datatype Input =
    | Tick(due: bool)
    | Receive(from: NodeId, message: Message)
    | Propose(command: seq<byte>)

  /** The vectors have cluster length, and a leader's bookkeeping stays inside its log: this is what
      keeps `append_for`'s subtraction, `term_at` and slice in range. */
  ghost predicate Shape(nd: NodeState) {
    && nd.id < nd.n
    && |nd.votes| == nd.n && |nd.nextIndex| == nd.n && |nd.matchIndex| == nd.n
    && (nd.role == Leader ==> forall p :: 0 <= p < nd.n ==> nd.matchIndex[p] < nd.nextIndex[p] <= |nd.log| + 1)
  }

  function Disk(nd: NodeState): Persistent {
    Persistent(nd.term, nd.votedFor, nd.log)
  }

  function Filled<T>(n: nat, x: T): (s: seq<T>)
    ensures |s| == n && forall i :: 0 <= i < n ==> s[i] == x
  {
    seq(n, _ => x)
  }

  function Boot(id: NodeId, n: nat, maxBatch: nat, p: Persistent): (nd: NodeState)
    requires id < n
    ensures Shape(nd) && Disk(nd) == p
  {
    NodeState(id, n, maxBatch, p.term, p.votedFor, p.log, Follower, None, 0, 0,
              Filled(n, false), Filled(n, 1), Filled(n, 0))
  }

  // ---------------------------------------------------------------- messages a leader sends

  function Min(x: nat, y: nat): nat { if x <= y then x else y }
  function Max(x: nat, y: nat): nat { if x >= y then x else y }

  function AppendFor(nd: NodeState, peer: NodeId): Outgoing
    requires Shape(nd) && nd.role == Leader && peer < nd.n
  {
    var prev := nd.nextIndex[peer] - 1;
    var end := Min(|nd.log|, prev + nd.maxBatch);
    Outgoing(peer, AppendEntries(nd.term, prev, TermAt(nd.log, prev), nd.log[prev..end], nd.commitIndex))
  }

  /** One append for each of the peers below `k`, in order. */
  function BroadcastAppend(nd: NodeState, k: nat): seq<Outgoing>
    requires Shape(nd) && nd.role == Leader && k <= nd.n
  {
    if k == 0 then []
    else BroadcastAppend(nd, k - 1) + if k - 1 == nd.id then [] else [AppendFor(nd, k - 1)]
  }

  lemma {:induction false} BroadcastIsAll(nd: NodeState, k: nat)
    requires Shape(nd) && nd.role == Leader && k <= nd.n
    ensures forall o :: o in BroadcastAppend(nd, k) <==> o.to < k && o.to != nd.id && o == AppendFor(nd, o.to)
  {
    if k > 0 {
      BroadcastIsAll(nd, k - 1);
      assert AppendFor(nd, k - 1).to == k - 1;
    }
  }

  /** Recipients in increasing order, so nobody twice. */
  predicate InOrder(out: seq<Outgoing>) {
    forall i, j :: 0 <= i < j < |out| ==> out[i].to < out[j].to
  }

  lemma {:induction false} AppendsInOrder(nd: NodeState, k: nat)
    requires Shape(nd) && nd.role == Leader && k <= nd.n
    ensures InOrder(BroadcastAppend(nd, k)) && forall o :: o in BroadcastAppend(nd, k) ==> o.to < k
  {
    if k > 0 {
      AppendsInOrder(nd, k - 1);
      LastInOrder(BroadcastAppend(nd, k - 1), k - 1, AppendFor(nd, k - 1));
    }
  }

  /** A broadcast is exactly one append for each peer, in order. */
  lemma {:induction false} BroadcastOnce(nd: NodeState, k: nat)
    requires Shape(nd) && nd.role == Leader && k <= nd.n
    ensures InOrder(BroadcastAppend(nd, k))
    ensures forall o :: o in BroadcastAppend(nd, k) <==> o.to < k && o.to != nd.id && o == AppendFor(nd, o.to)
  {
    AppendsInOrder(nd, k);
    BroadcastIsAll(nd, k);
  }

  lemma LastInOrder(out: seq<Outgoing>, k: nat, last: Outgoing)
    requires InOrder(out) && last.to == k && forall o :: o in out ==> o.to < k
    ensures InOrder(out + [last])
  {
    forall i | 0 <= i < |out| ensures out[i].to < k {
      assert out[i] in out;
    }
  }

  function VoteRequest(nd: NodeState): Message {
    RequestVote(nd.term, |nd.log|, LastTerm(nd.log))
  }

  function BroadcastVote(nd: NodeState, k: nat): seq<Outgoing> {
    if k == 0 then []
    else BroadcastVote(nd, k - 1) + if k - 1 == nd.id then [] else [Outgoing(k - 1, VoteRequest(nd))]
  }

  lemma {:induction false} VoteBroadcastIsAll(nd: NodeState, k: nat)
    ensures forall o :: o in BroadcastVote(nd, k) <==> o.to < k && o.to != nd.id && o.message == VoteRequest(nd)
  {
    if k > 0 {
      VoteBroadcastIsAll(nd, k - 1);
    }
  }

  lemma {:induction false} VotesInOrder(nd: NodeState, k: nat)
    ensures InOrder(BroadcastVote(nd, k)) && forall o :: o in BroadcastVote(nd, k) ==> o.to < k
  {
    if k > 0 {
      VotesInOrder(nd, k - 1);
      LastInOrder(BroadcastVote(nd, k - 1), k - 1, Outgoing(k - 1, VoteRequest(nd)));
    }
  }

  /** A candidacy asks each peer exactly once, all with the same request. */
  lemma {:induction false} VoteBroadcastOnce(nd: NodeState, k: nat)
    ensures InOrder(BroadcastVote(nd, k))
    ensures forall o :: o in BroadcastVote(nd, k) <==> o.to < k && o.to != nd.id && o.message == VoteRequest(nd)
  {
    VotesInOrder(nd, k);
    VoteBroadcastIsAll(nd, k);
  }

  // ---------------------------------------------------------------- committing

  /** Which peers are known to store the entry at `index`; the node itself is counted apart. */
  function Stored(nd: NodeState, index: Index): (bits: seq<bool>)
    requires |nd.matchIndex| == nd.n
    ensures |bits| == nd.n
  {
    seq(nd.n, p requires 0 <= p < nd.n => p != nd.id && nd.matchIndex[p] >= index)
  }

  function Replicas(nd: NodeState, index: Index): nat
    requires |nd.matchIndex| == nd.n
  {
    1 + CountTrue(Stored(nd, index))
  }

  /** The downward scan of `advance_commit`, from index `k`: it stops at the first entry of another
      term, or at the first one on a majority. */
  function CommitScan(nd: NodeState, k: Index): Index
    requires |nd.matchIndex| == nd.n && k <= |nd.log|
  {
    if k <= nd.commitIndex || TermAt(nd.log, k) != nd.term then nd.commitIndex
    else if Replicas(nd, k) >= QuorumSize(nd.n) then k
    else CommitScan(nd, k - 1)
  }

  function AdvanceCommit(nd: NodeState): NodeState
    requires |nd.matchIndex| == nd.n
  {
    nd.(commitIndex := CommitScan(nd, |nd.log|))
  }

  // ---------------------------------------------------------------- elections

  function StepDown(nd: NodeState, term: Term): StepOut {
    StepOut(nd.(term := term, votedFor := None, role := Follower, leaderId := None),
            [SaveHardState(term, None)], [])
  }

  function Noop(nd: NodeState): Entry {
    Entry(nd.term, [])
  }

  /** The new leader: bookkeeping reset, no-op appended, commit index not yet scanned. */
  function Crowned(nd: NodeState): (nd': NodeState)
    requires Shape(nd)
    ensures Shape(nd') && Disk(nd') == Disk(nd).(log := nd.log + [Noop(nd)])
  {
    nd.(role := Leader, leaderId := Some(nd.id),
        nextIndex := Filled(nd.n, |nd.log| + 1), matchIndex := Filled(nd.n, 0),
        log := nd.log + [Noop(nd)])
  }

  function BecomeLeader(nd: NodeState): StepOut
    requires Shape(nd)
  {
    var nd' := AdvanceCommit(Crowned(nd));
    StepOut(nd', [Append([Noop(nd)])], BroadcastAppend(nd', nd.n))
  }

  function Candidacy(nd: NodeState): NodeState
    requires Shape(nd)
  {
    nd.(term := nd.term + 1, votedFor := Some(nd.id), role := Candidate, leaderId := None,
        votes := Filled(nd.n, false)[nd.id := true])
  }

  function StartElection(nd: NodeState): StepOut
    requires Shape(nd)
  {
    var nd' := Candidacy(nd);
    var save := [SaveHardState(nd'.term, nd'.votedFor)];
    if CountTrue(nd'.votes) >= QuorumSize(nd.n) then
      var lead := BecomeLeader(nd');
      lead.(writes := save + lead.writes)
    else
      StepOut(nd', save, BroadcastVote(nd', nd.n))
  }

  function OnRequestVote(nd: NodeState, from: NodeId, term: Term, lastLogIndex: Index, lastLogTerm: Term): StepOut {
    var canVote := nd.votedFor.None? || nd.votedFor == Some(from);
    var granted := term == nd.term && canVote && UpToDate(lastLogIndex, lastLogTerm, nd.log);
    StepOut(if granted then nd.(votedFor := Some(from)) else nd,
            if granted then [SaveHardState(nd.term, Some(from))] else [],
            [Outgoing(from, VoteResponse(nd.term, granted))])
  }

  function OnVoteResponse(nd: NodeState, from: NodeId, term: Term, granted: bool): StepOut
    requires Shape(nd) && from < nd.n
  {
    if nd.role != Candidate || term != nd.term || !granted then StepOut(nd, [], [])
    else
      var nd' := nd.(votes := nd.votes[from := true]);
      if CountTrue(nd'.votes) >= QuorumSize(nd.n) then BecomeLeader(nd') else StepOut(nd', [], [])
  }

  // ---------------------------------------------------------------- replication

  /** How many of `entries`, sent for the positions after `prev`, the log already has (same term at
      the same index), up to the first that it lacks. */
  function Kept(log: seq<Entry>, prev: Index, entries: seq<Entry>): (k: nat)
    requires prev <= |log|
    ensures k <= |entries| && prev + k <= |log|
    decreases |entries|
  {
    if entries == [] || prev == |log| || log[prev].term != entries[0].term then 0
    else 1 + Kept(log, prev + 1, entries[1..])
  }

  /** `Kept` is the least position where the log and the append part ways. */
  lemma {:induction false} KeptIsFirstConflict(log: seq<Entry>, prev: Index, entries: seq<Entry>)
    requires prev <= |log|
    ensures var k := Kept(log, prev, entries);
            && (forall i :: 0 <= i < k ==> log[prev + i].term == entries[i].term)
            && (k < |entries| && prev + k < |log| ==> log[prev + k].term != entries[k].term)
            && (k < |entries| ==> prev + k <= |log|)
    decreases |entries|
  {
    var k := Kept(log, prev, entries);
    if k > 0 {
      KeptIsFirstConflict(log, prev + 1, entries[1..]);
      forall i | 0 <= i < k ensures log[prev + i].term == entries[i].term {
        if i > 0 {
          assert log[prev + 1 + (i - 1)].term == entries[1..][i - 1].term;
        }
      }
    }
  }

  lemma {:induction false} KeptEdges(log: seq<Entry>, prev: Index, entries: seq<Entry>)
    requires prev <= |log|
    ensures var k := Kept(log, prev, entries);
            && (k > 0 ==> log[prev + (k - 1)].term == entries[k - 1].term)
            && (k < |entries| && prev + k < |log| ==> log[prev + k].term != entries[k].term)
  {
    KeptIsFirstConflict(log, prev, entries);
  }

  /** Keep through the first conflict, then splice in the rest. */
  function Merge(log: seq<Entry>, prev: Index, entries: seq<Entry>): seq<Entry>
    requires prev <= |log|
  {
    var k := Kept(log, prev, entries);
    if k == |entries| then log else log[..prev + k] + entries[k..]
  }

  function MergeWrites(log: seq<Entry>, prev: Index, entries: seq<Entry>): seq<Write>
    requires prev <= |log|
  {
    var k := Kept(log, prev, entries);
    if k == |entries| then []
    else if prev + k < |log| then [TruncateFrom(prev + k + 1), Append(entries[k..])]
    else [Append(entries[k..])]
  }

  function OnAppendEntries(nd: NodeState, from: NodeId, term: Term, prev: Index, prevTerm: Term,
                           entries: seq<Entry>, leaderCommit: Index): StepOut
  {
    if term < nd.term then
      StepOut(nd, [], [Outgoing(from, AppendResponse(nd.term, false, 0))])
    else
      var nd1 := nd.(role := Follower, leaderId := Some(from));
      if prev > |nd.log| then
        StepOut(nd1, [], [Outgoing(from, AppendResponse(nd.term, false, |nd.log|))])
      else if TermAt(nd.log, prev) != prevTerm then
        StepOut(nd1, [], [Outgoing(from, AppendResponse(nd.term, false, if prev == 0 then 0 else prev - 1))])
      else Accepted(nd, from, prev, entries, leaderCommit)
  }

  /** The append fits the log after entry `prev`: merge it in and acknowledge. */
  function Accepted(nd: NodeState, from: NodeId, prev: Index, entries: seq<Entry>, leaderCommit: Index): StepOut
    requires prev <= |nd.log|
  {
    Acknowledge(nd, from, leaderCommit, prev + |entries|, Merge(nd.log, prev, entries),
                MergeWrites(nd.log, prev, entries))
  }

  /** With the merged log in place: move the commit index, and acknowledge up to `matched`. */
  function Acknowledge(nd: NodeState, from: NodeId, leaderCommit: Index, matched: Index,
                       log: seq<Entry>, writes: seq<Write>): StepOut
  {
    var commit := if leaderCommit > nd.commitIndex then Min(leaderCommit, matched) else nd.commitIndex;
    StepOut(nd.(role := Follower, leaderId := Some(from), log := log, commitIndex := commit), writes,
            [Outgoing(from, AppendResponse(nd.term, true, matched))])
  }

  /** The leader's bookkeeping after a response from `from`, before the commit index is scanned. */
  function Noted(nd: NodeState, from: NodeId, success: bool, matchIndex: Index): (nd': NodeState)
    requires Shape(nd) && nd.role == Leader && from < nd.n
    ensures Shape(nd') && nd'.n == nd.n && Disk(nd') == Disk(nd)
    ensures forall p :: 0 <= p < nd.n ==> nd'.matchIndex[p] >= nd.matchIndex[p]
  {
    if success then
      var m := Max(nd.matchIndex[from], Min(matchIndex, |nd.log|));
      nd.(matchIndex := nd.matchIndex[from := m], nextIndex := nd.nextIndex[from := m + 1])
    else
      nd.(nextIndex := nd.nextIndex[from := Max(nd.matchIndex[from] + 1, Min(nd.nextIndex[from], matchIndex + 1))])
  }

  function OnAppendResponse(nd: NodeState, from: NodeId, term: Term, success: bool, matchIndex: Index): StepOut
    requires Shape(nd) && from < nd.n
  {
    if nd.role != Leader || term != nd.term then StepOut(nd, [], [])
    else if success then
      var nd' := AdvanceCommit(Noted(nd, from, true, matchIndex));
      StepOut(nd', [], if nd'.nextIndex[from] <= |nd'.log| then [AppendFor(nd', from)] else [])
    else
      var nd' := Noted(nd, from, false, matchIndex);
      StepOut(nd', [], [AppendFor(nd', from)])
  }

  // ---------------------------------------------------------------- the entry points

  function OnMessage(nd: NodeState, from: NodeId, msg: Message): StepOut
    requires Shape(nd) && from < nd.n
  {
    match msg
    case RequestVote(term, index, last) => OnRequestVote(nd, from, term, index, last)
    case VoteResponse(term, granted) => OnVoteResponse(nd, from, term, granted)
    case AppendEntries(term, prev, prevTerm, entries, commit) =>
      OnAppendEntries(nd, from, term, prev, prevTerm, entries, commit)
    case AppendResponse(term, success, index) => OnAppendResponse(nd, from, term, success, index)
  }

  function Handle(nd: NodeState, from: NodeId, msg: Message): StepOut
    requires Shape(nd)
  {
    if from == nd.id || from >= nd.n then StepOut(nd, [], [])
    else if msg.term > nd.term then
      var down := StepDown(nd, msg.term);
      var rest := OnMessage(down.node, from, msg);
      rest.(writes := down.writes + rest.writes)
    else OnMessage(nd, from, msg)
  }

  function OnTick(nd: NodeState, due: bool): StepOut
    requires Shape(nd)
  {
    if !due then StepOut(nd, [], [])
    else if nd.role == Leader then StepOut(nd, [], BroadcastAppend(nd, nd.n))
    else StartElection(nd)
  }

  /** A leader with one more entry in its log. */
  function Lengthened(nd: NodeState, command: seq<byte>): (nd': NodeState)
    requires Shape(nd)
    ensures Shape(nd') && Disk(nd') == Disk(nd).(log := nd.log + [Entry(nd.term, command)])
  {
    nd.(log := nd.log + [Entry(nd.term, command)])
  }

  /** A node that is not the leader refuses a command and changes nothing. */
  function OnPropose(nd: NodeState, command: seq<byte>): StepOut
    requires Shape(nd)
  {
    if nd.role != Leader then StepOut(nd, [], [])
    else
      var nd' := AdvanceCommit(Lengthened(nd, command));
      StepOut(nd', [Append([Entry(nd.term, command)])], BroadcastAppend(nd', nd.n))
  }

  function Step(nd: NodeState, input: Input): StepOut
    requires Shape(nd)
  {
    match input
    case Tick(due) => OnTick(nd, due)
    case Receive(from, msg) => Handle(nd, from, msg)
    case Propose(command) => OnPropose(nd, command)
  }

  /** Newly committed entries since the last call, with their indices; the state machine applies
      them next. Nothing when the commit index is not ahead. */
  function Delivery(nd: NodeState): seq<(Index, Entry)>
    requires nd.commitIndex <= |nd.log|
  {
    DeliveryUpTo(nd, nd.commitIndex)
  }

  function DeliveryUpTo(nd: NodeState, k: Index): seq<(Index, Entry)>
    requires k <= |nd.log|
  {
    if k <= nd.appliedIndex then [] else DeliveryUpTo(nd, k - 1) + [(k, nd.log[k - 1])]
  }

  /** A delivery is the stretch of the log after the applied index, numbered in order. */
  lemma {:induction false} DeliveryIsStretch(nd: NodeState, k: Index)
    requires k <= |nd.log|
    ensures |DeliveryUpTo(nd, k)| == if k <= nd.appliedIndex then 0 else k - nd.appliedIndex
    ensures forall i :: 0 <= i < |DeliveryUpTo(nd, k)| ==>
              DeliveryUpTo(nd, k)[i] == (nd.appliedIndex + i + 1, nd.log[nd.appliedIndex + i])
  {
    if k > nd.appliedIndex {
      DeliveryIsStretch(nd, k - 1);
    }
  }

  function Delivered(nd: NodeState): NodeState {
    nd.(appliedIndex := nd.commitIndex)
  }

  // ---------------------------------------------------------------- what holds for any input at all

  ghost predicate SameNode(nd: NodeState, nd': NodeState) {
    && Shape(nd') && nd'.id == nd.id && nd'.n == nd.n && nd'.maxBatch == nd.maxBatch
    && nd'.term >= nd.term && nd'.appliedIndex == nd.appliedIndex
  }

  lemma MessageShape(nd: NodeState, from: NodeId, msg: Message)
    requires Shape(nd) && from < nd.n
    ensures SameNode(nd, OnMessage(nd, from, msg).node)
  {
  }

  /** Within one leadership no peer's match index goes down. */
  ghost predicate MatchKept(nd: NodeState, nd': NodeState) {
    nd.role == Leader && nd'.role == Leader && nd'.term == nd.term ==>
      |nd'.matchIndex| == |nd.matchIndex| &&
      forall p :: 0 <= p < |nd.matchIndex| ==> nd.matchIndex[p] <= nd'.matchIndex[p]
  }

  lemma MessageKeepsMatch(nd: NodeState, from: NodeId, msg: Message)
    requires Shape(nd) && from < nd.n
    ensures MatchKept(nd, OnMessage(nd, from, msg).node)
  {
  }

  /** Whatever arrives, including forged or stale hints, a leader's indices stay in range and its match
      indices never go down, the node's identity never changes, its term never goes back, and only a
      delivery moves its applied index. */
  lemma StepShape(nd: NodeState, input: Input)
    requires Shape(nd)
    ensures SameNode(nd, Step(nd, input).node) && MatchKept(nd, Step(nd, input).node)
  {
    if input.Receive? && input.from < nd.n {
      MessageShape(nd, input.from, input.message);
      MessageShape(StepDown(nd, input.message.term).node, input.from, input.message);
      MessageKeepsMatch(nd, input.from, input.message);
    }
  }

  lemma {:induction false} MergeMirrored(p: Persistent, prev: Index, entries: seq<Entry>)
    requires prev <= |p.log|
    ensures ApplyWrites(p, MergeWrites(p.log, prev, entries)) == p.(log := Merge(p.log, prev, entries))
  {
    var k := Kept(p.log, prev, entries);
    if k < |entries| {
      if prev + k < |p.log| {
        ApplyTwo(p, TruncateFrom(prev + k + 1), Append(entries[k..]));
      } else {
        ApplyOne(p, Append(entries[k..]));
        assert p.log[..prev + k] == p.log;
      }
    }
  }

  lemma MessageMirrored(nd: NodeState, from: NodeId, msg: Message)
    requires Shape(nd) && from < nd.n
    ensures ApplyWrites(Disk(nd), OnMessage(nd, from, msg).writes) == Disk(OnMessage(nd, from, msg).node)
  {
    match msg
    case RequestVote(_, _, _) => ApplyOne(Disk(nd), SaveHardState(nd.term, Some(from)));
    case VoteResponse(_, _) => ApplyOne(Disk(nd), Append([Noop(nd)]));
    case AppendEntries(_, prev, _, entries, _) =>
      if prev <= |nd.log| {
        MergeMirrored(Disk(nd), prev, entries);
      }
    case AppendResponse(_, _, _) =>
  }

  lemma ElectionMirrored(nd: NodeState)
    requires Shape(nd)
    ensures ApplyWrites(Disk(nd), StartElection(nd).writes) == Disk(StartElection(nd).node)
  {
    var nd' := Candidacy(nd);
    var save, app := SaveHardState(nd'.term, nd'.votedFor), Append([Noop(nd')]);
    ApplyOne(Disk(nd), save);
    ApplyWritesConcat(Disk(nd), [save], [app]);
    ApplyOne(Disk(nd'), app);
  }

  /** Storage mirrors memory after every completed call: replaying the writes over the old disk gives
      exactly the new term, vote and log, so every message returned is backed by durable state. */
  lemma StepMirrored(nd: NodeState, input: Input)
    requires Shape(nd)
    ensures ApplyWrites(Disk(nd), Step(nd, input).writes) == Disk(Step(nd, input).node)
  {
    match input
    case Tick(due) =>
      ElectionMirrored(nd);
    case Propose(command) =>
      ApplyOne(Disk(nd), Append([Entry(nd.term, command)]));
    case Receive(from, msg) =>
      if from < nd.n {
        MessageMirrored(nd, from, msg);
        var down := StepDown(nd, msg.term);
        MessageMirrored(down.node, from, msg);
        ApplyOne(Disk(nd), down.writes[0]);
        ApplyWritesConcat(Disk(nd), down.writes, OnMessage(down.node, from, msg).writes);
      }
  }
}
