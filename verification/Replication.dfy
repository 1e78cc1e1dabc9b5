/** What single handlers compute: the merge of an append into a log, the leader's commit scan, and
    exactly when a follower's commit index can move back. */
module Replication {
  import opened Types
  import opened Quorum
  import opened Ledger
  import opened NodeSpec
  import opened Cluster
  import opened Coupling
  import opened Safety

  // ---------------------------------------------------------------- merging appends

  lemma {:induction false} KeptAll(log: seq<Entry>, prev: Index, entries: seq<Entry>)
    requires prev + |entries| <= |log|
    requires forall i :: 0 <= i < |entries| ==> log[prev + i].term == entries[i].term
    ensures Kept(log, prev, entries) == |entries|
    decreases |entries|
  {
    if entries != [] {
      assert log[prev + 0].term == entries[0].term;
      forall i | 0 <= i < |entries[1..]| ensures log[prev + 1 + i].term == entries[1..][i].term {
        assert log[prev + (i + 1)].term == entries[i + 1].term;
      }
      KeptAll(log, prev + 1, entries[1..]);
    }
  }

  /** A repeated append changes nothing the second time. */
  lemma MergeIdempotent(log: seq<Entry>, prev: Index, entries: seq<Entry>)
    requires prev <= |log|
    ensures prev + |entries| <= |Merge(log, prev, entries)|
    ensures Merge(Merge(log, prev, entries), prev, entries) == Merge(log, prev, entries)
    ensures MergeWrites(Merge(log, prev, entries), prev, entries) == []
  {
    var k, log' := Kept(log, prev, entries), Merge(log, prev, entries);
    KeptIsFirstConflict(log, prev, entries);
    forall i | 0 <= i < |entries| ensures prev + i < |log'| && log'[prev + i].term == entries[i].term {
      if k < |entries| && i >= k {
        assert log'[prev + i] == entries[k..][i - k];
      } else {
        assert log'[prev + i] == log[prev + i];
      }
    }
    KeptAll(log', prev, entries);
  }

  /** An append of the leader's either finds everything in place, or leaves exactly the leader's log
      up to its last entry. */
  lemma MergeIsLeaders(ledger: map<Term, seq<Entry>>, log: seq<Entry>, l: seq<Entry>,
                       prev: Index, prevTerm: Term, entries: seq<Entry>)
    requires LogOk(ledger, log) && LogOk(ledger, l) && AppendOk(l, prev, prevTerm, entries)
    requires prev <= |log| && TermAt(log, prev) == prevTerm
    ensures var log', m := Merge(log, prev, entries), prev + |entries|;
            (log' == log && l[..m] <= log) || (log' == l[..m] && !(l[..m] <= log))
  {
    var k, m := Kept(log, prev, entries), prev + |entries|;
    KeptEdges(log, prev, entries);
    KeptIsLeaders(ledger, log, l, prev, prevTerm, entries, k);
    Spliced(log, l, prev, prevTerm, entries, k);
    if k == |entries| {
      assert log[..m] == l[..m];
    } else {
      assert Merge(log, prev, entries) == l[..m];
      NotPrefix(l, log, m, prev + k);
    }
  }

  lemma NotPrefix<T>(l: seq<T>, log: seq<T>, m: nat, j: nat)
    requires j < m <= |l| && (j < |log| ==> log[j] != l[j])
    ensures !(l[..m] <= log)
  {
    assert l[..m][j] == l[j];
  }

  datatype Piece = Piece(prev: Index, prevTerm: Term, entries: seq<Entry>)

  predicate Fits(log: seq<Entry>, m: Piece) {
    m.prev <= |log| && TermAt(log, m.prev) == m.prevTerm
  }

  /** What a follower's log is after a list of appends from one leader, in whatever order they come;
      those that do not fit are rejected. */
  function Absorb(log: seq<Entry>, ms: seq<Piece>): seq<Entry> {
    if ms == [] then log
    else
      var before := Absorb(log, ms[..|ms| - 1]);
      var m := ms[|ms| - 1];
      if Fits(before, m) then Merge(before, m.prev, m.entries) else before
  }

  /** The furthest index any of them was acknowledged up to. */
  function AckedUpTo(log: seq<Entry>, ms: seq<Piece>): Index {
    if ms == [] then 0
    else
      var rest := ms[..|ms| - 1];
      var m := ms[|ms| - 1];
      if Fits(Absorb(log, rest), m) then Max(AckedUpTo(log, rest), m.prev + |m.entries|) else AckedUpTo(log, rest)
  }

  lemma AckStep(ledger: map<Term, seq<Entry>>, before: seq<Entry>, l: seq<Entry>, acked: Index, m: Piece)
    requires LogOk(ledger, before) && LogOk(ledger, l) && acked <= |l| && l[..acked] <= before
    requires AppendOk(l, m.prev, m.prevTerm, m.entries) && Fits(before, m)
    ensures var after, furthest := Merge(before, m.prev, m.entries), Max(acked, m.prev + |m.entries|);
            LogOk(ledger, after) && furthest <= |l| && l[..furthest] <= after
  {
    MergeIsLeaders(ledger, before, l, m.prev, m.prevTerm, m.entries);
    LogOkPrefix(ledger, l, l[..m.prev + |m.entries|]);
    PrefixesCompare(l, acked, m.prev + |m.entries|, before);
  }

  /** Appends from one leader, reordered and repeated at will, never undo an acknowledgement: the log
      keeps the leader's entries up to the furthest index acknowledged. */
  lemma {:induction false} AcksNeverUndone(ledger: map<Term, seq<Entry>>, log: seq<Entry>, l: seq<Entry>,
                                           ms: seq<Piece>)
    requires LogOk(ledger, log) && LogOk(ledger, l)
    requires forall m :: m in ms ==> AppendOk(l, m.prev, m.prevTerm, m.entries)
    ensures LogOk(ledger, Absorb(log, ms)) && AckedUpTo(log, ms) <= |l|
    ensures l[..AckedUpTo(log, ms)] <= Absorb(log, ms)
  {
    if ms != [] {
      var rest, m := ms[..|ms| - 1], ms[|ms| - 1];
      AcksNeverUndone(ledger, log, l, rest);
      if Fits(Absorb(log, rest), m) {
        AckStep(ledger, Absorb(log, rest), l, AckedUpTo(log, rest), m);
      }
    }
  }

  lemma PrefixesCompare<T>(l: seq<T>, x: nat, y: nat, log: seq<T>)
    requires x <= |l| && y <= |l| && l[..x] <= log
    ensures l[..y] <= log ==> l[..Max(x, y)] <= log
    ensures !(l[..y] <= log) ==> x <= y && l[..x] <= l[..y]
  {
    if x > y {
      assert l[..x][..y] == l[..y];
    }
  }

  // ---------------------------------------------------------------- the commit scan

  /** An index the leader may commit: beyond its commit index, written in its own term, and stored on
      a majority. */
  ghost predicate Eligible(nd: NodeState, k: Index)
    requires |nd.matchIndex| == nd.n
  {
    nd.commitIndex < k <= |nd.log| && TermAt(nd.log, k) == nd.term && Replicas(nd, k) >= QuorumSize(nd.n)
  }

  /** The scan finds the greatest eligible index, and leaves the commit index alone if there is none. */
  ghost predicate Greatest(nd: NodeState, c: Index)
    requires |nd.matchIndex| == nd.n
  {
    && (c == nd.commitIndex || Eligible(nd, c))
    && forall k: Index :: Eligible(nd, k) ==> k <= c
  }

  /** Stopping at the first entry of another term loses nothing, because terms do not decrease along
      the log and do not exceed the leader's. */
  lemma {:induction false} ScanIsGreatest(nd: NodeState, k: Index)
    requires |nd.matchIndex| == nd.n && k <= |nd.log|
    requires forall i, j :: 0 <= i <= j < |nd.log| ==> nd.log[i].term <= nd.log[j].term <= nd.term
    requires forall j: Index :: Eligible(nd, j) ==> j <= k
    ensures Greatest(nd, CommitScan(nd, k))
  {
    if k > nd.commitIndex {
      forall j: Index | Eligible(nd, j) ensures TermAt(nd.log, k) == nd.term {
        EligibleBelow(nd, j, k);
      }
      if TermAt(nd.log, k) == nd.term && Replicas(nd, k) < QuorumSize(nd.n) {
        ScanIsGreatest(nd, k - 1);
      }
    }
  }

  lemma EligibleBelow(nd: NodeState, j: Index, k: Index)
    requires |nd.matchIndex| == nd.n && Eligible(nd, j) && j <= k <= |nd.log|
    requires forall i, j :: 0 <= i <= j < |nd.log| ==> nd.log[i].term <= nd.log[j].term <= nd.term
    ensures TermAt(nd.log, k) == nd.term
  {
    assert nd.log[j - 1].term <= nd.log[k - 1].term <= nd.term;
  }

  /** The node whose commit index a call scans for, if it scans at all: a leader just crowned, one with a
      command just appended, or one that has just noted an acknowledgement. */
  ghost function Scanned(nd: NodeState, input: Input): Option<NodeState>
    requires Shape(nd)
  {
    match input
    case Tick(due) =>
      if due && nd.role != Leader && CountTrue(Candidacy(nd).votes) >= QuorumSize(nd.n)
      then Some(Crowned(Candidacy(nd))) else None
    case Propose(command) => if nd.role == Leader then Some(Lengthened(nd, command)) else None
    case Receive(from, msg) =>
      if from == nd.id || from >= nd.n || msg.term != nd.term then None
      else if msg.AppendResponse? && nd.role == Leader && msg.success then Some(Noted(nd, from, true, msg.matchIndex))
      else if && msg.VoteResponse? && nd.role == Candidate && msg.granted
              && CountTrue(nd.votes[from := true]) >= QuorumSize(nd.n)
      then Some(Crowned(nd.(votes := nd.votes[from := true])))
      else None
  }

  lemma ScannedIs(nd: NodeState, input: Input)
    requires Shape(nd) && Scanned(nd, input).Some?
    ensures Step(nd, input).node == AdvanceCommit(Scanned(nd, input).value)
  {
  }

  lemma UnscannedKeeps(nd: NodeState, input: Input)
    requires Shape(nd) && Scanned(nd, input).None? && !(input.Receive? && input.message.AppendEntries?)
    ensures Step(nd, input).node.commitIndex == nd.commitIndex
  {
  }

  /** What the scan looks at of a node. */
  ghost predicate SameToScan(nd: NodeState, nd': NodeState) {
    && nd'.id == nd.id && nd'.n == nd.n && nd'.matchIndex == nd.matchIndex
    && nd'.commitIndex == nd.commitIndex && nd'.term == nd.term && nd'.log == nd.log
  }

  lemma MessageNotScanned(nd: NodeState, from: NodeId, msg: Message)
    requires Shape(nd) && from < nd.n && from != nd.id && msg.term <= nd.term
    requires Scanned(nd, Receive(from, msg)).None? && OnMessage(nd, from, msg).node.role == Leader
    ensures nd.role == Leader && SameToScan(nd, OnMessage(nd, from, msg).node)
  {
  }

  lemma DeposedNotLeader(nd: NodeState, from: NodeId, msg: Message)
    requires Shape(nd) && from < nd.n && nd.role == Follower
    ensures OnMessage(nd, from, msg).node.role != Leader
  {
  }

  lemma NotScanned(nd: NodeState, input: Input)
    requires Shape(nd) && Scanned(nd, input).None? && Step(nd, input).node.role == Leader
    ensures nd.role == Leader && SameToScan(nd, Step(nd, input).node)
  {
    if input.Receive? && input.from < nd.n && input.from != nd.id {
      if input.message.term <= nd.term {
        MessageNotScanned(nd, input.from, input.message);
      } else {
        DeposedNotLeader(StepDown(nd, input.message.term).node, input.from, input.message);
      }
    }
  }

  ghost predicate Sorted(nd: NodeState) {
    forall i, j :: 0 <= i <= j < |nd.log| ==> nd.log[i].term <= nd.log[j].term <= nd.term
  }

  lemma PushSorted(log: seq<Entry>, e: Entry, t: Term)
    requires forall i, j :: 0 <= i <= j < |log| ==> log[i].term <= log[j].term <= t
    requires t <= e.term
    ensures forall i, j :: 0 <= i <= j < |log + [e]| ==> (log + [e])[i].term <= (log + [e])[j].term <= e.term
  {
    forall i, j | 0 <= i <= j < |log + [e]| ensures (log + [e])[i].term <= (log + [e])[j].term <= e.term {
      if j < |log| {
        assert log[i].term <= log[j].term <= t;
      } else if i < |log| {
        assert log[i].term <= log[i].term <= t;
      }
    }
  }

  lemma ScannedSorted(nd: NodeState, input: Input)
    requires Shape(nd) && Sorted(nd) && Scanned(nd, input).Some?
    ensures Sorted(Scanned(nd, input).value)
  {
    match input
    case Tick(_) => PushSorted(nd.log, Entry(nd.term + 1, []), nd.term);
    case Propose(command) => PushSorted(nd.log, Entry(nd.term, command), nd.term);
    case Receive(_, _) => PushSorted(nd.log, Entry(nd.term, []), nd.term);
  }

  lemma NodeSorted(run: seq<System>, k: nat, u: NodeId)
    requires IsRun(run) && k < |run| && IsUp(run[k], u)
    ensures Shape(NodeAt(run[k], u)) && Sorted(NodeAt(run[k], u))
  {
    var nd := NodeAt(run[k], u);
    NothingOutOfRange(run, k, u);
    forall i, j | 0 <= i <= j < |nd.log| ensures nd.log[i].term <= nd.log[j].term <= nd.term {
      TermsInOrder(run, k, u, i, j);
    }
  }

  /** In every reachable state and for every call that scans, the node scanned has its terms in order, so
      the commit index the call leaves is the greatest one that node could commit. Every other call, but
      an append, leaves the commit index alone. */
  lemma {:induction false} CallCommitsGreatest(run: seq<System>, k: nat, u: NodeId, input: Input)
    requires IsRun(run) && k < |run| && IsUp(run[k], u)
    ensures var nd := NodeAt(run[k], u);
            Shape(nd) && (Scanned(nd, input).Some? ==>
              var scanned := Scanned(nd, input).value;
              && Sorted(scanned) && |scanned.matchIndex| == scanned.n
              && Step(nd, input).node == AdvanceCommit(scanned)
              && Greatest(scanned, Step(nd, input).node.commitIndex))
    ensures Scanned(NodeAt(run[k], u), input).None? && !(input.Receive? && input.message.AppendEntries?) ==>
              Step(NodeAt(run[k], u), input).node.commitIndex == NodeAt(run[k], u).commitIndex
  {
    var nd := NodeAt(run[k], u);
    NodeSorted(run, k, u);
    if Scanned(nd, input).Some? {
      var scanned := Scanned(nd, input).value;
      ScannedIs(nd, input);
      ScannedSorted(nd, input);
      ScanIsGreatest(scanned, |scanned.log|);
    } else if !(input.Receive? && input.message.AppendEntries?) {
      UnscannedKeeps(nd, input);
    }
  }

  /** Nothing that could be committed. */
  ghost predicate Exhausted(nd: NodeState) {
    |nd.matchIndex| == nd.n && forall k: Index :: !Eligible(nd, k)
  }

  lemma GreatestExhausts(nd: NodeState)
    requires |nd.matchIndex| == nd.n && Greatest(nd, AdvanceCommit(nd).commitIndex)
    ensures Exhausted(AdvanceCommit(nd))
  {
    var nd' := AdvanceCommit(nd);
    forall k: Index ensures !Eligible(nd', k) {
      StoredSame(nd, nd', k);
      if Eligible(nd', k) {
        CommitScanFinds(nd, |nd.log|);
        assert Eligible(nd, k);
      }
    }
  }

  lemma StoredSame(nd: NodeState, nd': NodeState, k: Index)
    requires |nd.matchIndex| == nd.n && nd'.n == nd.n && nd'.id == nd.id && nd'.matchIndex == nd.matchIndex
    ensures Replicas(nd', k) == Replicas(nd, k)
  {
    assert Stored(nd', k) == Stored(nd, k);
  }

  lemma SameExhausted(nd: NodeState, nd': NodeState)
    requires Exhausted(nd) && SameToScan(nd, nd')
    ensures Exhausted(nd')
  {
    forall k: Index ensures !Eligible(nd', k) {
      StoredSame(nd, nd', k);
      assert !Eligible(nd, k);
    }
  }

  ghost predicate LeaderExhausted(s: System, u: NodeId) {
    IsUp(s, u) && NodeAt(s, u).role == Leader ==> Exhausted(NodeAt(s, u))
  }

  lemma CallExhausts(run: seq<System>, k: nat, u: NodeId, input: Input)
    requires IsRun(run) && k < |run| && IsUp(run[k], u) && LeaderExhausted(run[k], u)
    ensures Shape(NodeAt(run[k], u))
    ensures Step(NodeAt(run[k], u), input).node.role == Leader ==> Exhausted(Step(NodeAt(run[k], u), input).node)
  {
    var nd := NodeAt(run[k], u);
    CallCommitsGreatest(run, k, u, input);
    if Scanned(nd, input).Some? {
      GreatestExhausts(Scanned(nd, input).value);
    } else if Step(nd, input).node.role == Leader {
      NotScanned(nd, input);
      SameExhausted(nd, Step(nd, input).node);
    }
  }

  lemma StepExhausts(run: seq<System>, k: nat, u: NodeId, act: Action)
    requires IsRun(run) && k + 1 < |run| && LeaderExhausted(run[k], u)
    requires Enabled(run[k], act) && run[k + 1] == Next(run[k], act)
    ensures LeaderExhausted(run[k + 1], u)
  {
    match act
    case Run(i, input) =>
      if i == u {
        CallExhausts(run, k, u, input);
      }
    case Deliver(i) =>
      if i == u {
        DeliveredExhausted(run[k], run[k + 1], u);
      }
    case _ =>
  }

  /** In every reachable state no leader has an index left that it could commit. */
  lemma {:induction false} NothingLeftToCommit(run: seq<System>, k: nat, u: NodeId)
    requires IsRun(run) && k < |run|
    ensures LeaderExhausted(run[k], u)
  {
    if k > 0 {
      NothingLeftToCommit(run, k - 1, u);
      assert StepAt(run, k - 1);
      var act :| Enabled(run[k - 1], act) && run[k] == Next(run[k - 1], act);
      StepExhausts(run, k - 1, u, act);
    }
  }

  lemma DeliveredExhausted(s: System, s': System, u: NodeId)
    requires Enabled(s, Deliver(u)) && s' == Next(s, Deliver(u)) && LeaderExhausted(s, u)
    ensures LeaderExhausted(s', u)
  {
    if IsUp(s, u) && NodeAt(s, u).role == Leader {
      SameExhausted(NodeAt(s, u), Delivered(NodeAt(s, u)));
    }
  }

  // ---------------------------------------------------------------- the commit index can move back

  /** An append that fits, from a leader that has committed further than this node, but whose own
      entries end before what this node has already committed. */
  predicate Regressive(nd: NodeState, input: Input) {
    && input.Receive? && input.from != nd.id && input.from < nd.n
    && input.message.AppendEntries?
    && var m := input.message;
    && m.term >= nd.term && Fits(nd.log, Piece(m.prevIndex, m.prevTerm, m.entries))
    && m.leaderCommit > nd.commitIndex
    && m.prevIndex + |m.entries| < nd.commitIndex
  }

  /** The commit index of a node moves back exactly on a regressive append, whatever the input. */
  lemma CommitMovesBack(nd: NodeState, input: Input)
    requires Shape(nd)
    ensures Step(nd, input).node.commitIndex < nd.commitIndex <==> Regressive(nd, input)
  {
    if input.Receive? && input.from < nd.n {
      if input.message.term <= nd.term {
        MessageCommit(nd, input.from, input.message);
      } else {
        MessageCommit(StepDown(nd, input.message.term).node, input.from, input.message);
      }
    } else {
      ScanStays(nd, input);
    }
  }

  lemma ScanStays(nd: NodeState, input: Input)
    requires Shape(nd) && !(input.Receive? && input.from < nd.n)
    ensures Step(nd, input).node.commitIndex >= nd.commitIndex
  {
    match input
    case Tick(_) => CommitScanFinds(Crowned(Candidacy(nd)), |nd.log| + 1);
    case Propose(command) =>
      CommitScanFinds(Lengthened(nd, command), |nd.log| + 1);
    case Receive(_, _) =>
  }

  lemma MessageCommit(nd: NodeState, from: NodeId, msg: Message)
    requires Shape(nd) && from < nd.n && msg.term <= nd.term
    ensures OnMessage(nd, from, msg).node.commitIndex < nd.commitIndex <==>
            && msg.AppendEntries? && msg.term == nd.term
            && Fits(nd.log, Piece(msg.prevIndex, msg.prevTerm, msg.entries))
            && msg.leaderCommit > nd.commitIndex && msg.prevIndex + |msg.entries| < nd.commitIndex
  {
    match msg
    case VoteResponse(_, granted) =>
      CommitScanFinds(Crowned(nd.(votes := nd.votes[from := true])), |nd.log| + 1);
    case AppendResponse(_, success, index) =>
      if nd.role == Leader {
        CommitScanFinds(Noted(nd, from, success, index), |nd.log|);
      }
    case _ =>
  }
}
