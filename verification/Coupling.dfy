/** Every call into the node is a sequence of durable steps of `LedgerSteps`. This module relates a
    node in memory and the messages in flight to the history, and shows that each call keeps the
    relation, whether it completes or the node crashes after any of its storage writes. */
module Coupling {
  import opened Types
  import opened Quorum
  import opened Ledger
  import opened LedgerSteps
  import opened NodeSpec
  import opened Cluster

  // ---------------------------------------------------------------- the relation

  ghost predicate LeaderOk(h: History, nd: NodeState)
    requires Shape(nd)
  {
    && nd.term in h.reigns && nd.term in h.ledger && h.reigns[nd.term].node == nd.id
    && forall p: NodeId :: p < nd.n ==> MatchOk(h, nd, p)
  }

  /** What the leader believes about a peer, the peer really acknowledged. */
  ghost predicate MatchOk(h: History, nd: NodeState, p: NodeId)
    requires p < |nd.matchIndex|
  {
    nd.matchIndex[p] > 0 ==> nd.matchIndex[p] <= |nd.log| && Acked(h, nd.term, p, nd.log[..nd.matchIndex[p]])
  }

  ghost predicate CandidateOk(h: History, nd: NodeState)
    requires Shape(nd)
  {
    && BallotFor(h, nd.term, nd.id, nd.id)
    && h.ballots[Slot(nd.term, nd.id)].log == nd.log
    && forall v: NodeId :: v < nd.n && nd.votes[v] ==> BallotFor(h, nd.term, v, nd.id)
  }

  ghost predicate NodeOk(h: History, d: Persistent, nd: NodeState, i: NodeId) {
    && Shape(nd) && nd.id == i && nd.n == h.n
    && Disk(nd) == d
    && nd.commitIndex <= |nd.log|
    && Settled(h, nd.term, nd.log[..nd.commitIndex])
    && (nd.role == Leader ==> LeaderOk(h, nd))
    && (nd.role == Candidate ==> CandidateOk(h, nd))
  }

  /** What a message promises about its sender. */
  ghost predicate PacketOk(h: History, m: Packet) {
    match m.message
    case RequestVote(t, index, last) =>
      BallotFor(h, t, m.from, m.from) &&
      index == |h.ballots[Slot(t, m.from)].log| && last == LastTerm(h.ballots[Slot(t, m.from)].log)
    case VoteResponse(t, granted) =>
      granted ==> BallotFor(h, t, m.from, m.to)
    case AppendEntries(t, prev, prevTerm, entries, commit) =>
      && t in h.reigns && t in h.ledger && h.reigns[t].node == m.from
      && AppendOk(h.ledger[t], prev, prevTerm, entries)
      && commit <= |h.ledger[t]| && Settled(h, t, h.ledger[t][..commit])
    case AppendResponse(t, success, index) =>
      success ==> t in h.ledger && index <= |h.ledger[t]| && Acked(h, t, m.from, h.ledger[t][..index])
  }

  /** The entries of an append are a stretch of the leader's log, and its prev pair is right. */
  ghost predicate AppendOk(l: seq<Entry>, prev: Index, prevTerm: Term, entries: seq<Entry>) {
    && prev + |entries| <= |l| && prevTerm == TermAt(l, prev)
    && forall i: nat {:trigger SameEntry(l, prev, entries, i)} :: i < |entries| ==> SameEntry(l, prev, entries, i)
  }

  ghost predicate SameEntry(l: seq<Entry>, prev: Index, entries: seq<Entry>, i: nat)
    requires i < |entries| && prev + |entries| <= |l|
  {
    entries[i] == l[prev + i]
  }

  ghost predicate OutOk(h: History, i: NodeId, out: seq<Outgoing>) {
    forall o :: o in out ==> PacketOk(h, Packet(i, o.to, o.message))
  }

  ghost function After(a: Durable, i: NodeId, ws: seq<Write>, h: History): Durable
    requires i < |a.disks|
  {
    Durable(a.disks[i := ApplyWrites(a.disks[i], ws)], h)
  }

  /** A call that completes. */
  ghost predicate Good(a: Durable, i: NodeId, step: StepOut, h: History)
    requires i < |a.disks|
  {
    var a' := After(a, i, step.writes, h);
    && Inv(a') && Grows(a, a')
    && NodeOk(h, a'.disks[i], step.node, i)
    && OutOk(h, i, step.out)
  }

  /** A call cut short after the writes `ws`. */
  ghost predicate Survives(a: Durable, i: NodeId, ws: seq<Write>)
    requires i < |a.disks|
  {
    exists h :: Recovers(a, After(a, i, ws, h))
  }

  ghost predicate Recovers(a: Durable, a': Durable) {
    Inv(a') && Grows(a, a')
  }

  /** A crash between any two of the writes is survived. */
  ghost predicate Atomic(a: Durable, i: NodeId, ws: seq<Write>)
    requires i < |a.disks|
  {
    forall k: nat :: k <= |ws| ==> Survives(a, i, ws[..k])
  }

  /** A call that may complete or be cut short: either way the cluster stays sound. */
  ghost predicate Handled(a: Durable, i: NodeId, step: StepOut)
    requires i < |a.disks|
  {
    && (exists h :: Good(a, i, step, h))
    && Atomic(a, i, step.writes)
  }

  lemma Unchanged(a: Durable, i: NodeId, step: StepOut)
    requires Inv(a) && i < |a.disks| && step.writes == []
    requires NodeOk(a.h, a.disks[i], step.node, i) && OutOk(a.h, i, step.out)
    ensures Handled(a, i, step)
  {
    AtomicNone(a, i);
    assert After(a, i, [], a.h) == a;
    assert Good(a, i, step, a.h);
  }

  // ---------------------------------------------------------------- composing writes

  lemma AtomicNone(a: Durable, i: NodeId)
    requires Inv(a) && i < |a.disks|
    ensures Atomic(a, i, [])
  {
    var none: seq<Write> := [];
    forall k: nat | k <= |none| ensures Survives(a, i, none[..k]) {
      assert none[..k] == [];
      assert After(a, i, [], a.h) == a;
      assert Recovers(a, After(a, i, [], a.h));
    }
  }

  lemma AtomicFirst(a: Durable, i: NodeId, w: Write, h: History, ws: seq<Write>)
    requires Inv(a) && i < |a.disks| && Recovers(a, Durable(a.disks[i := ApplyWrite(a.disks[i], w)], h))
    requires Atomic(Durable(a.disks[i := ApplyWrite(a.disks[i], w)], h), i, ws)
    ensures Atomic(a, i, [w] + ws)
  {
    var b := Durable(a.disks[i := ApplyWrite(a.disks[i], w)], h);
    forall k: nat | k <= |[w] + ws| ensures Survives(a, i, ([w] + ws)[..k]) {
      if k == 0 {
        AtomicNone(a, i);
        var none: seq<Write> := [];
        assert Survives(a, i, none[..0]);
        assert ([w] + ws)[..0] == none[..0];
      } else {
        var rest := ws[..k - 1];
        assert Survives(b, i, rest);
        var h' :| Recovers(b, After(b, i, rest, h'));
        assert ([w] + ws)[..k] == [w] + rest;
        ApplyWritesConcat(a.disks[i], [w], rest);
        ApplyOne(a.disks[i], w);
        assert After(a, i, [w] + rest, h') == After(b, i, rest, h');
        GrowsTransitive(a, b, After(b, i, rest, h'));
        assert Recovers(a, After(a, i, [w] + rest, h'));
      }
    }
  }

  lemma AtomicOne(a: Durable, i: NodeId, w: Write, h: History)
    requires Inv(a) && i < |a.disks| && Recovers(a, Durable(a.disks[i := ApplyWrite(a.disks[i], w)], h))
    ensures Atomic(a, i, [w])
  {
    AtomicNone(Durable(a.disks[i := ApplyWrite(a.disks[i], w)], h), i);
    AtomicFirst(a, i, w, h, []);
    assert [w] + [] == [w];
  }

  // ---------------------------------------------------------------- growth of the relation

  lemma NodeOkGrows(h: History, h': History, d: Persistent, nd: NodeState, i: NodeId)
    requires Extends(h, h') && NodeOk(h, d, nd, i)
    ensures NodeOk(h', d, nd, i)
  {
    var p := nd.log[..nd.commitIndex];
    SettledGrows(h, h', nd.term, nd.term, p, p);
    if nd.role == Leader {
      forall q: NodeId | q < nd.n ensures MatchOk(h', nd, q) {
        assert MatchOk(h, nd, q);
      }
    }
  }

  lemma PacketOkGrows(h: History, h': History, m: Packet)
    requires Extends(h, h') && PacketOk(h, m)
    ensures PacketOk(h', m)
  {
    if m.message.AppendEntries? {
      var t, c := m.message.term, m.message.leaderCommit;
      SettledGrows(h, h', t, t, h.ledger[t][..c], h.ledger[t][..c]);
      assert h'.ledger[t][..c] == h.ledger[t][..c];
      forall i: nat | i < |m.message.entries|
        ensures SameEntry(h'.ledger[t], m.message.prevIndex, m.message.entries, i)
      {
        assert SameEntry(h.ledger[t], m.message.prevIndex, m.message.entries, i);
      }
    }
  }

  // ---------------------------------------------------------------- sending as leader

  lemma LeaderLog(a: Durable, i: NodeId, nd: NodeState)
    requires Inv(a) && i < |a.disks| && NodeOk(a.h, a.disks[i], nd, i) && nd.role == Leader
    ensures nd.log == a.h.ledger[nd.term]
  {
    assert DiskOk(a, i);
  }

  lemma AppendForOk(a: Durable, i: NodeId, nd: NodeState, p: NodeId)
    requires Inv(a) && i < |a.disks| && NodeOk(a.h, a.disks[i], nd, i) && nd.role == Leader && p < nd.n
    ensures PacketOk(a.h, Packet(i, p, AppendFor(nd, p).message))
  {
    LeaderLog(a, i, nd);
    var m := AppendFor(nd, p).message;
    assert forall i: nat :: i < |m.entries| ==> SameEntry(nd.log, m.prevIndex, m.entries, i);
  }

  lemma {:induction false} BroadcastOk(a: Durable, i: NodeId, nd: NodeState)
    requires Inv(a) && i < |a.disks| && NodeOk(a.h, a.disks[i], nd, i) && nd.role == Leader
    ensures OutOk(a.h, i, BroadcastAppend(nd, nd.n))
  {
    BroadcastIsAll(nd, nd.n);
    forall o | o in BroadcastAppend(nd, nd.n) ensures PacketOk(a.h, Packet(i, o.to, o.message)) {
      AppendForOk(a, i, nd, o.to);
    }
  }

  // ---------------------------------------------------------------- committing as leader

  lemma {:induction false} CommitScanFinds(nd: NodeState, k: Index)
    requires |nd.matchIndex| == nd.n && k <= |nd.log|
    ensures var c := CommitScan(nd, k);
            c == nd.commitIndex ||
            (nd.commitIndex < c <= k && TermAt(nd.log, c) == nd.term && Replicas(nd, c) >= QuorumSize(nd.n))
  {
    if !(k <= nd.commitIndex || TermAt(nd.log, k) != nd.term || Replicas(nd, k) >= QuorumSize(nd.n)) {
      CommitScanFinds(nd, k - 1);
    }
  }

  /** An index the scan accepts is chosen, once the leader counts itself. */
  lemma CountedIsChosen(h: History, nd: NodeState, c: Index)
    requires Shape(nd) && nd.n == h.n && LeaderOk(h, nd)
    requires 0 < c <= |nd.log| && TermAt(nd.log, c) == nd.term && Replicas(nd, c) >= QuorumSize(nd.n)
    requires Acked(h, nd.term, nd.id, nd.log[..c])
    ensures Chosen(h, nd.term, nd.log[..c])
  {
    var bits := Stored(nd, c);
    var q := Trues(bits) + {nd.id};
    CountIsSize(bits);
    assert |q| == |Trues(bits)| + 1;
    forall v | v in q ensures Acked(h, nd.term, v, nd.log[..c]) {
      if v != nd.id {
        assert MatchOk(h, nd, v);
      }
    }
    assert ChosenBy(h, nd.term, nd.log[..c], q);
  }

  lemma AdvanceCommitOk(a: Durable, i: NodeId, nd: NodeState) returns (h: History)
    requires Inv(a) && i < |a.disks| && NodeOk(a.h, a.disks[i], nd, i) && nd.role == Leader
    ensures Recovers(a, Durable(a.disks, h)) && NodeOk(h, a.disks[i], AdvanceCommit(nd), i)
  {
    var c := CommitScan(nd, |nd.log|);
    CommitScanFinds(nd, |nd.log|);
    h := a.h;
    if c != nd.commitIndex {
      LeaderLog(a, i, nd);
      assert a.h.ledger[nd.term][..c] <= a.disks[i].log;
      AckKeeps(a, i, c);
      h := AckedTo(a, i, c).h;
      NodeOkGrows(a.h, h, a.disks[i], nd, i);
      CountedIsChosen(h, nd, c);
      assert SettledBy(h, nd.log[..c], nd.term, nd.log[..c]);
      forall p: NodeId | p < nd.n ensures MatchOk(h, AdvanceCommit(nd), p) {
        assert MatchOk(h, nd, p);
      }
    } else {
      assert AdvanceCommit(nd) == nd;
    }
  }

  // ---------------------------------------------------------------- elections

  lemma StepDownOk(a: Durable, i: NodeId, nd: NodeState, t: Term)
    requires Inv(a) && i < |a.disks| && NodeOk(a.h, a.disks[i], nd, i) && t > nd.term
    ensures Recovers(a, Bumped(a, i, t))
    ensures NodeOk(a.h, Bumped(a, i, t).disks[i], StepDown(nd, t).node, i)
  {
    BumpKeeps(a, i, t);
    var p := nd.log[..nd.commitIndex];
    SettledGrows(a.h, a.h, nd.term, t, p, p);
  }

  lemma BecomeLeaderOk(a: Durable, i: NodeId, nd: NodeState)
    requires Inv(a) && i < |a.disks| && NodeOk(a.h, a.disks[i], nd, i)
    requires nd.role == Candidate && CountTrue(nd.votes) >= QuorumSize(nd.n)
    ensures Handled(a, i, BecomeLeader(nd))
  {
    var voters, noop := Trues(nd.votes), Noop(nd);
    CountedQuorum(nd.n, nd.votes);
    ElectKeeps(a, i, voters, noop);
    var b, crowned := Elected(a, i, voters, noop), Crowned(nd);
    CrownedOk(a, i, nd);
    var h := AdvanceCommitOk(b, i, crowned);
    var c := Durable(b.disks, h);
    GrowsTransitive(a, b, c);
    BroadcastOk(c, i, AdvanceCommit(crowned));
    ApplyOne(a.disks[i], Append([noop]));
    assert After(a, i, [Append([noop])], h) == c;
    assert Good(a, i, BecomeLeader(nd), h);
    AtomicOne(a, i, Append([noop]), b.h);
  }

  lemma CrownedOk(a: Durable, i: NodeId, nd: NodeState)
    requires Inv(a) && i < |a.disks| && NodeOk(a.h, a.disks[i], nd, i)
    requires nd.role == Candidate && MayLead(a, i, Trues(nd.votes))
    requires Grows(a, Elected(a, i, Trues(nd.votes), Noop(nd)))
    ensures var b := Elected(a, i, Trues(nd.votes), Noop(nd)); NodeOk(b.h, b.disks[i], Crowned(nd), i)
  {
    var b, crowned := Elected(a, i, Trues(nd.votes), Noop(nd)), Crowned(nd);
    var p := nd.log[..nd.commitIndex];
    SettledGrows(a.h, b.h, nd.term, nd.term, p, p);
    assert crowned.log[..nd.commitIndex] == p;
    forall q: NodeId | q < nd.n ensures MatchOk(b.h, crowned, q) {
    }
  }

  lemma CandidacyOk(a: Durable, i: NodeId, nd: NodeState) returns (h: History)
    requires Inv(a) && i < |a.disks| && NodeOk(a.h, a.disks[i], nd, i)
    ensures var d := ApplyWrite(a.disks[i], SaveHardState(nd.term + 1, Some(i)));
            Recovers(a, Durable(a.disks[i := d], h)) && NodeOk(h, d, Candidacy(nd), i)
    ensures h.reigns == a.h.reigns
  {
    var nd' := Candidacy(nd);
    var b := Bumped(a, i, nd.term + 1);
    BumpKeeps(a, i, nd.term + 1);
    assert DiskOk(a, i);
    VoteKeeps(b, i, i);
    var c := Voted(b, i, i);
    h := c.h;
    GrowsTransitive(a, b, c);
    assert a.disks[i := ApplyWrite(a.disks[i], SaveHardState(nd.term + 1, Some(i)))] == c.disks;
    var p := nd.log[..nd.commitIndex];
    SettledGrows(a.h, h, nd.term, nd'.term, p, p);
  }

  lemma StartElectionOk(a: Durable, i: NodeId, nd: NodeState)
    requires Inv(a) && i < |a.disks| && NodeOk(a.h, a.disks[i], nd, i)
    ensures Handled(a, i, StartElection(nd))
  {
    var nd', save := Candidacy(nd), SaveHardState(nd.term + 1, Some(i));
    var h := CandidacyOk(a, i, nd);
    var b := Durable(a.disks[i := ApplyWrite(a.disks[i], save)], h);
    if CountTrue(nd'.votes) >= QuorumSize(nd.n) {
      BecomeLeaderOk(b, i, nd');
      HandledAfter(a, b, i, save, BecomeLeader(nd'), StartElection(nd));
    } else {
      ApplyOne(a.disks[i], save);
      VoteBroadcastIsAll(nd', nd.n);
      assert Good(a, i, StartElection(nd), h);
      AtomicOne(a, i, save, h);
    }
  }

  /** A call that makes one write and then goes on as another call would. */
  lemma HandledAfter(a: Durable, b: Durable, i: NodeId, w: Write, rest: StepOut, step: StepOut)
    requires Inv(a) && i < |a.disks| && Recovers(a, b)
    requires b.disks == a.disks[i := ApplyWrite(a.disks[i], w)]
    requires Handled(b, i, rest) && step == rest.(writes := [w] + rest.writes)
    ensures Handled(a, i, step)
  {
    var h :| Good(b, i, rest, h);
    ApplyWritesConcat(a.disks[i], [w], rest.writes);
    ApplyOne(a.disks[i], w);
    assert After(a, i, step.writes, h) == After(b, i, rest.writes, h);
    GrowsTransitive(a, b, After(b, i, rest.writes, h));
    assert Good(a, i, step, h);
    AtomicFirst(a, i, w, b.h, rest.writes);
  }

  lemma RequestVoteOk(a: Durable, i: NodeId, nd: NodeState, from: NodeId, msg: Message)
    requires Inv(a) && i < |a.disks| && NodeOk(a.h, a.disks[i], nd, i)
    requires msg.RequestVote? && msg.term <= nd.term && from != i && PacketOk(a.h, Packet(from, i, msg))
    ensures Handled(a, i, OnRequestVote(nd, from, msg.term, msg.lastLogIndex, msg.lastLogTerm))
  {
    var step := OnRequestVote(nd, from, msg.term, msg.lastLogIndex, msg.lastLogTerm);
    if step.writes == [] {
      Unchanged(a, i, step);
    } else if nd.votedFor.None? {
      VoteKeeps(a, i, from);
      NodeOkGrows(a.h, Voted(a, i, from).h, a.disks[i], nd, i);
      GrantOk(a, Voted(a, i, from), i, nd, from, step);
    } else {
      assert DiskOk(a, i);
      GrantOk(a, a, i, nd, from, step);
    }
  }

  lemma GrantOk(a: Durable, b: Durable, i: NodeId, nd: NodeState, from: NodeId, step: StepOut)
    requires Inv(a) && i < |a.disks| && Recovers(a, b)
    requires NodeOk(b.h, a.disks[i], nd, i) && BallotFor(b.h, nd.term, i, from)
    requires b.disks == a.disks[i := a.disks[i].(votedFor := Some(from))]
    requires step.node == nd.(votedFor := Some(from)) && step.writes == [SaveHardState(nd.term, Some(from))]
    requires step.out == [Outgoing(from, VoteResponse(nd.term, true))]
    ensures Handled(a, i, step)
  {
    var save := SaveHardState(nd.term, Some(from));
    ApplyOne(a.disks[i], save);
    if nd.role == Leader {
      forall p: NodeId | p < nd.n ensures MatchOk(b.h, step.node, p) {
        assert MatchOk(b.h, nd, p);
      }
    }
    assert After(a, i, step.writes, b.h) == b;
    assert Good(a, i, step, b.h);
    AtomicOne(a, i, save, b.h);
  }

  lemma VoteResponseOk(a: Durable, i: NodeId, nd: NodeState, from: NodeId, msg: Message)
    requires Inv(a) && i < |a.disks| && NodeOk(a.h, a.disks[i], nd, i) && from < nd.n
    requires msg.VoteResponse? && PacketOk(a.h, Packet(from, i, msg))
    ensures Handled(a, i, OnVoteResponse(nd, from, msg.term, msg.granted))
  {
    var step := OnVoteResponse(nd, from, msg.term, msg.granted);
    if nd.role == Candidate && msg.term == nd.term && msg.granted {
      var nd' := nd.(votes := nd.votes[from := true]);
      assert NodeOk(a.h, a.disks[i], nd', i);
      if CountTrue(nd'.votes) >= QuorumSize(nd.n) {
        BecomeLeaderOk(a, i, nd');
      } else {
        Unchanged(a, i, step);
      }
    } else {
      Unchanged(a, i, step);
    }
  }

  // ---------------------------------------------------------------- replication

  ghost predicate Sound(a: Durable, i: NodeId, nd: NodeState)
    requires i < |a.disks|
  {
    exists d :: d == a.disks[i] && NodeOk(a.h, d, nd, i)
  }

  /** The writes can be cut off anywhere, and all of them together need no change of the history. */
  ghost predicate SafeWrites(a: Durable, i: NodeId, ws: seq<Write>)
    requires i < |a.disks|
  {
    exists b :: b == After(a, i, ws, a.h) && Recovers(a, b) && Atomic(a, i, ws)
  }

  /** Once the prev pair matches, everything the append finds already in place is the leader's. */
  lemma KeptIsLeaders(ledger: map<Term, seq<Entry>>, log: seq<Entry>, l: seq<Entry>,
                      prev: Index, prevTerm: Term, entries: seq<Entry>, k: nat)
    requires LogOk(ledger, log) && LogOk(ledger, l) && AppendOk(l, prev, prevTerm, entries)
    requires prev <= |log| && TermAt(log, prev) == prevTerm
    requires k <= |entries| && prev + k <= |log|
    requires k > 0 ==> log[prev + (k - 1)].term == entries[k - 1].term
    requires k < |entries| && prev + k < |log| ==> log[prev + k].term != entries[k].term
    ensures log[..prev + k] == l[..prev + k]
    ensures k < |entries| && prev + k < |log| ==> log[prev + k] != l[prev + k]
  {
    assert k < |entries| ==> SameEntry(l, prev, entries, k);
    if k > 0 {
      assert SameEntry(l, prev, entries, k - 1);
      LogMatching(ledger, log, l, prev + (k - 1));
    } else if prev > 0 {
      LogMatching(ledger, log, l, prev - 1);
    }
  }

  /** Splicing the rest in gives the leader's log up to the last entry sent. */
  lemma Spliced(log: seq<Entry>, l: seq<Entry>, prev: Index, prevTerm: Term, entries: seq<Entry>, k: nat)
    requires AppendOk(l, prev, prevTerm, entries)
    requires k <= |entries| && prev + k <= |log| && log[..prev + k] == l[..prev + k]
    ensures log[..prev + k] + entries[k..] == l[..prev + |entries|]
  {
    forall i | prev + k <= i < prev + |entries| ensures entries[i - prev] == l[i] {
      assert SameEntry(l, prev, entries, i - prev);
    }
  }

  /** The merge leaves the follower with the leader's log up to the last entry sent; it replaces the
      log only where it conflicts, and each storage write on the way is safe to crash after. */
  lemma MergeOk(a: Durable, i: NodeId, nd: NodeState, prev: Index, prevTerm: Term, entries: seq<Entry>)
    requires Inv(a) && i < |a.disks| && Disk(nd) == a.disks[i] && nd.term in a.h.ledger
    requires AppendOk(a.h.ledger[nd.term], prev, prevTerm, entries)
    requires prev <= |nd.log| && TermAt(nd.log, prev) == prevTerm
    ensures a.h.ledger[nd.term][..prev + |entries|] <= Merge(nd.log, prev, entries)
    ensures ApplyWrites(a.disks[i], MergeWrites(nd.log, prev, entries))
         == a.disks[i].(log := Merge(nd.log, prev, entries))
    ensures SafeWrites(a, i, MergeWrites(nd.log, prev, entries))
  {
    KeptEdges(nd.log, prev, entries);
    SpliceOk(a, i, prev, prevTerm, entries, Kept(nd.log, prev, entries),
             MergeWrites(nd.log, prev, entries), Merge(nd.log, prev, entries));
    MergeMirrored(a.disks[i], prev, entries);
  }

  lemma SpliceOk(a: Durable, i: NodeId, prev: Index, prevTerm: Term, entries: seq<Entry>, k: nat,
                 ws: seq<Write>, log': seq<Entry>)
    requires Inv(a) && i < |a.disks| && a.disks[i].term in a.h.ledger
    requires AppendOk(a.h.ledger[a.disks[i].term], prev, prevTerm, entries)
    requires k <= |entries| && prev + k <= |a.disks[i].log| && TermAt(a.disks[i].log, prev) == prevTerm
    requires k > 0 ==> a.disks[i].log[prev + (k - 1)].term == entries[k - 1].term
    requires k < |entries| && prev + k < |a.disks[i].log| ==> a.disks[i].log[prev + k].term != entries[k].term
    requires log' == if k == |entries| then a.disks[i].log else a.disks[i].log[..prev + k] + entries[k..]
    requires ws == if k == |entries| then []
                   else if prev + k < |a.disks[i].log| then [TruncateFrom(prev + k + 1), Append(entries[k..])]
                   else [Append(entries[k..])]
    ensures a.h.ledger[a.disks[i].term][..prev + |entries|] <= log' && SafeWrites(a, i, ws)
  {
    var log, l, m := a.disks[i].log, a.h.ledger[a.disks[i].term], prev + |entries|;
    LogsOk(a, i);
    KeptIsLeaders(a.h.ledger, log, l, prev, prevTerm, entries, k);
    Spliced(log, l, prev, prevTerm, entries, k);
    if k == |entries| {
      AtomicNone(a, i);
      assert After(a, i, [], a.h) == a && Recovers(a, a);
      assert entries[k..] == [];
    } else {
      var app := Append(entries[k..]);
      if prev + k < |log| {
        assert ConflictsAt(a, i, prev + k);
        CutAndExtendOk(a, i, prev + k, m, app);
      } else {
        assert log[..prev + k] == log;
        ExtendAfterOk(a, i, prev + k, m, app);
      }
    }
  }

  lemma LogsOk(a: Durable, i: NodeId)
    requires Inv(a) && i < |a.disks| && a.disks[i].term in a.h.ledger
    ensures a.disks[i].term in a.h.reigns
    ensures LogOk(a.h.ledger, a.disks[i].log) && LogOk(a.h.ledger, a.h.ledger[a.disks[i].term])
  {
    assert DiskOk(a, i) && ReignOk(a.h, a.disks[i].term);
  }

  /** The two writes of a conflicting append, with a possible crash before, between or after. */
  lemma CutAndExtendOk(a: Durable, i: NodeId, j: nat, m: nat, app: Write)
    requires Inv(a) && ConflictsAt(a, i, j) && app.Append?
    requires j <= m <= |a.h.ledger[a.disks[i].term]|
    requires a.disks[i].log[..j] + app.entries == a.h.ledger[a.disks[i].term][..m]
    ensures SafeWrites(a, i, [TruncateFrom(j + 1), app])
  {
    var cut := TruncateFrom(j + 1);
    TruncateKeeps(a, i, j);
    var b := Replaced(a, i, a.disks[i].log[..j]);
    assert b == Durable(a.disks[i := ApplyWrite(a.disks[i], cut)], a.h);
    ExtendToOk(b, i, j, m, app);
    ApplyTwo(a.disks[i], cut, app);
    GrowsTransitive(a, b, Durable(b.disks[i := ApplyWrite(b.disks[i], app)], a.h));
    AtomicFirst(a, i, cut, a.h, [app]);
    assert [cut] + [app] == [cut, app];
    assert After(a, i, [cut, app], a.h) == Durable(b.disks[i := ApplyWrite(b.disks[i], app)], a.h);
    assert Recovers(a, Durable(b.disks[i := ApplyWrite(b.disks[i], app)], a.h));
  }

  lemma ExtendToOk(a: Durable, i: NodeId, j: nat, m: nat, app: Write)
    requires Inv(a) && i < |a.disks| && a.disks[i].term in a.h.ledger && app.Append?
    requires j <= m <= |a.h.ledger[a.disks[i].term]|
    requires a.disks[i].log == a.h.ledger[a.disks[i].term][..j]
    requires a.disks[i].log + app.entries == a.h.ledger[a.disks[i].term][..m]
    ensures Recovers(a, Durable(a.disks[i := ApplyWrite(a.disks[i], app)], a.h)) && Atomic(a, i, [app])
  {
    ExtendKeeps(a, i, m);
    assert a.disks[i := ApplyWrite(a.disks[i], app)] == Replaced(a, i, a.h.ledger[a.disks[i].term][..m]).disks;
    AtomicOne(a, i, app, a.h);
  }

  lemma ExtendAfterOk(a: Durable, i: NodeId, j: nat, m: nat, app: Write)
    requires Inv(a) && i < |a.disks| && a.disks[i].term in a.h.ledger && app.Append?
    requires j <= m <= |a.h.ledger[a.disks[i].term]|
    requires a.disks[i].log == a.h.ledger[a.disks[i].term][..j]
    requires a.disks[i].log + app.entries == a.h.ledger[a.disks[i].term][..m]
    ensures SafeWrites(a, i, [app])
  {
    ExtendToOk(a, i, j, m, app);
    ApplyOne(a.disks[i], app);
    assert After(a, i, [app], a.h) == Durable(a.disks[i := ApplyWrite(a.disks[i], app)], a.h);
  }

  lemma AppendEntriesOk(a: Durable, i: NodeId, nd: NodeState, from: NodeId, msg: Message)
    requires Inv(a) && i < |a.disks| && NodeOk(a.h, a.disks[i], nd, i)
    requires msg.AppendEntries? && msg.term <= nd.term && PacketOk(a.h, Packet(from, i, msg))
    ensures Handled(a, i, OnAppendEntries(nd, from, msg.term, msg.prevIndex, msg.prevTerm,
                                          msg.entries, msg.leaderCommit))
  {
    var prev, entries := msg.prevIndex, msg.entries;
    if msg.term < nd.term || prev > |nd.log| || TermAt(nd.log, prev) != msg.prevTerm {
      Unchanged(a, i, OnAppendEntries(nd, from, msg.term, prev, msg.prevTerm, entries, msg.leaderCommit));
    } else {
      AcceptedOk(a, i, nd, from, prev, msg.prevTerm, entries, msg.leaderCommit);
    }
  }

  lemma AcceptedOk(a: Durable, i: NodeId, nd: NodeState, from: NodeId, prev: Index, prevTerm: Term,
                   entries: seq<Entry>, leaderCommit: Index)
    requires Inv(a) && i < |a.disks| && NodeOk(a.h, a.disks[i], nd, i) && nd.term in a.h.ledger
    requires AppendOk(a.h.ledger[nd.term], prev, prevTerm, entries)
    requires leaderCommit <= |a.h.ledger[nd.term]| && Settled(a.h, nd.term, a.h.ledger[nd.term][..leaderCommit])
    requires prev <= |nd.log| && TermAt(nd.log, prev) == prevTerm
    ensures Handled(a, i, Accepted(nd, from, prev, entries, leaderCommit))
  {
    MergeOk(a, i, nd, prev, prevTerm, entries);
    MergedOk(a, i, nd, from, leaderCommit, prev + |entries|, Merge(nd.log, prev, entries),
             MergeWrites(nd.log, prev, entries));
  }

  lemma {:induction false} MergedOk(a: Durable, i: NodeId, nd: NodeState, from: NodeId, leaderCommit: Index, m: Index,
                 log': seq<Entry>, ws: seq<Write>)
    requires i < |a.disks| && Sound(a, i, nd) && nd.term in a.h.ledger
    requires m <= |a.h.ledger[nd.term]| && leaderCommit <= |a.h.ledger[nd.term]|
    requires Settled(a.h, nd.term, a.h.ledger[nd.term][..leaderCommit])
    requires ApplyWrites(a.disks[i], ws) == a.disks[i].(log := log')
    requires a.h.ledger[nd.term][..m] <= log' && SafeWrites(a, i, ws)
    ensures Handled(a, i, Acknowledge(nd, from, leaderCommit, m, log', ws))
  {
    var step := Acknowledge(nd, from, leaderCommit, m, log', ws);
    var b :| b == After(a, i, ws, a.h) && Recovers(a, b) && Atomic(a, i, ws);
    var h := AckedAfter(a, b, i, m);
    assert After(a, i, ws, h) == Durable(b.disks, h);
    FollowerOk(a, b, h, i, nd, leaderCommit, m, from);
    ReplyOk(h, i, from, AppendResponse(nd.term, true, m));
    assert Good(a, i, step, h);
  }

  lemma FollowerOk(a: Durable, b: Durable, h: History, i: NodeId, nd: NodeState,
                   leaderCommit: Index, m: Index, from: NodeId)
    requires i < |a.disks| && NodeOk(a.h, a.disks[i], nd, i) && nd.term in a.h.ledger
    requires m <= |a.h.ledger[nd.term]| && leaderCommit <= |a.h.ledger[nd.term]|
    requires Settled(a.h, nd.term, a.h.ledger[nd.term][..leaderCommit])
    requires Grows(a, b) && Extends(b.h, h) && b.disks[i] == a.disks[i].(log := b.disks[i].log)
    requires a.h.ledger[nd.term][..m] <= b.disks[i].log
    ensures var commit := if leaderCommit > nd.commitIndex then Min(leaderCommit, m) else nd.commitIndex;
            NodeOk(h, b.disks[i],
                   nd.(role := Follower, leaderId := Some(from), log := b.disks[i].log, commitIndex := commit), i)
  {
    FollowerCommitOk(a, b, i, nd, leaderCommit, m);
    var commit := if leaderCommit > nd.commitIndex then Min(leaderCommit, m) else nd.commitIndex;
    var p := b.disks[i].log[..commit];
    SettledGrows(b.h, h, nd.term, nd.term, p, p);
  }

  lemma ReplyOk(h: History, i: NodeId, to: NodeId, message: Message)
    requires PacketOk(h, Packet(i, to, message))
    ensures OutOk(h, i, [Outgoing(to, message)])
  {
  }

  lemma AckedAfter(a: Durable, b: Durable, i: NodeId, m: nat) returns (h: History)
    requires Recovers(a, b) && b.h == a.h && i < |b.disks| && b.disks[i].term in b.h.ledger
    requires m <= |b.h.ledger[b.disks[i].term]| && b.h.ledger[b.disks[i].term][..m] <= b.disks[i].log
    ensures Recovers(a, Durable(b.disks, h)) && Extends(b.h, h) && h.ledger == b.h.ledger
    ensures Acked(h, b.disks[i].term, i, h.ledger[b.disks[i].term][..m])
  {
    AckKeeps(b, i, m);
    h := AckedTo(b, i, m).h;
    GrowsTransitive(a, b, AckedTo(b, i, m));
  }

  /** `min(leader_commit, matched)` never passes what the leader committed, and the entries below the
      old commit index are still there. */
  lemma FollowerCommitOk(a: Durable, b: Durable, i: NodeId, nd: NodeState, leaderCommit: Index, m: Index)
    requires i < |a.disks| && NodeOk(a.h, a.disks[i], nd, i) && nd.term in a.h.ledger
    requires m <= |a.h.ledger[nd.term]| && leaderCommit <= |a.h.ledger[nd.term]|
    requires Settled(a.h, nd.term, a.h.ledger[nd.term][..leaderCommit])
    requires Grows(a, b) && b.disks[i].term == nd.term && a.h.ledger[nd.term][..m] <= b.disks[i].log
    ensures var c := if leaderCommit > nd.commitIndex then Min(leaderCommit, m) else nd.commitIndex;
            c <= |b.disks[i].log| && Settled(b.h, nd.term, b.disks[i].log[..c])
  {
    var l, log' := a.h.ledger[nd.term], b.disks[i].log;
    if leaderCommit > nd.commitIndex {
      var c := Min(leaderCommit, m);
      assert log'[..c] == l[..c];
      SettledGrows(a.h, b.h, nd.term, nd.term, l[..leaderCommit], l[..c]);
    } else {
      assert Holds(a, i, nd.log[..nd.commitIndex]);
      assert Holds(b, i, nd.log[..nd.commitIndex]);
      assert log'[..nd.commitIndex] == nd.log[..nd.commitIndex];
    }
  }

  lemma AppendResponseOk(a: Durable, i: NodeId, nd: NodeState, from: NodeId, msg: Message)
    requires Inv(a) && i < |a.disks| && NodeOk(a.h, a.disks[i], nd, i) && from < nd.n
    requires msg.AppendResponse? && PacketOk(a.h, Packet(from, i, msg))
    ensures Handled(a, i, OnAppendResponse(nd, from, msg.term, msg.success, msg.matchIndex))
  {
    var step := OnAppendResponse(nd, from, msg.term, msg.success, msg.matchIndex);
    if nd.role == Leader && msg.term == nd.term {
      var nd' := Noted(nd, from, msg.success, msg.matchIndex);
      NotedOk(a, i, nd, from, msg);
      if msg.success {
        var h := AdvanceCommitOk(a, i, nd');
        var b := Durable(a.disks, h);
        AppendForOk(b, i, AdvanceCommit(nd'), from);
        AtomicNone(a, i);
        assert After(a, i, [], h) == b;
        assert Good(a, i, step, h);
      } else {
        AppendForOk(a, i, nd', from);
        Unchanged(a, i, step);
      }
    } else {
      Unchanged(a, i, step);
    }
  }

  lemma NotedOk(a: Durable, i: NodeId, nd: NodeState, from: NodeId, msg: Message)
    requires Inv(a) && i < |a.disks| && NodeOk(a.h, a.disks[i], nd, i) && from < nd.n
    requires msg.AppendResponse? && PacketOk(a.h, Packet(from, i, msg)) && nd.role == Leader && msg.term == nd.term
    ensures NodeOk(a.h, a.disks[i], Noted(nd, from, msg.success, msg.matchIndex), i)
  {
    LeaderLog(a, i, nd);
    forall p: NodeId | p < nd.n ensures MatchOk(a.h, Noted(nd, from, msg.success, msg.matchIndex), p) {
      assert MatchOk(a.h, nd, p);
    }
  }

  lemma ProposeOk(a: Durable, i: NodeId, nd: NodeState, command: seq<byte>)
    requires Inv(a) && i < |a.disks| && NodeOk(a.h, a.disks[i], nd, i)
    ensures Handled(a, i, OnPropose(nd, command))
  {
    if nd.role != Leader {
      Unchanged(a, i, OnPropose(nd, command));
    } else {
      var e := Entry(nd.term, command);
      AppendKeeps(a, i, e);
      var b, nd' := Appended(a, i, e), Lengthened(nd, command);
      LengthenedOk(a, i, nd, command);
      var h := AdvanceCommitOk(b, i, nd');
      var c := Durable(b.disks, h);
      GrowsTransitive(a, b, c);
      BroadcastOk(c, i, AdvanceCommit(nd'));
      ApplyOne(a.disks[i], Append([e]));
      assert After(a, i, [Append([e])], h) == c;
      assert Good(a, i, OnPropose(nd, command), h);
      AtomicOne(a, i, Append([e]), b.h);
    }
  }

  lemma LengthenedOk(a: Durable, i: NodeId, nd: NodeState, command: seq<byte>)
    requires Inv(a) && i < |a.disks| && NodeOk(a.h, a.disks[i], nd, i) && nd.role == Leader
    requires Grows(a, Appended(a, i, Entry(nd.term, command)))
    ensures var b := Appended(a, i, Entry(nd.term, command)); NodeOk(b.h, b.disks[i], Lengthened(nd, command), i)
  {
    var b, nd' := Appended(a, i, Entry(nd.term, command)), Lengthened(nd, command);
    var p := nd.log[..nd.commitIndex];
    SettledGrows(a.h, b.h, nd.term, nd.term, p, p);
    assert nd'.log[..nd.commitIndex] == p;
    forall q: NodeId | q < nd.n ensures MatchOk(b.h, nd', q) {
      assert MatchOk(a.h, nd, q);
      if nd.matchIndex[q] > 0 {
        assert nd'.log[..nd.matchIndex[q]] == nd.log[..nd.matchIndex[q]];
      }
    }
  }

  // ---------------------------------------------------------------- any call

  lemma TickOk(a: Durable, i: NodeId, nd: NodeState, due: bool)
    requires Inv(a) && i < |a.disks| && NodeOk(a.h, a.disks[i], nd, i)
    ensures Handled(a, i, OnTick(nd, due))
  {
    if due && nd.role != Leader {
      StartElectionOk(a, i, nd);
    } else {
      if due {
        BroadcastOk(a, i, nd);
      }
      Unchanged(a, i, OnTick(nd, due));
    }
  }

  lemma OnMessageOk(a: Durable, i: NodeId, nd: NodeState, from: NodeId, msg: Message)
    requires Inv(a) && i < |a.disks| && NodeOk(a.h, a.disks[i], nd, i) && from < nd.n && from != i
    requires msg.term <= nd.term && PacketOk(a.h, Packet(from, i, msg))
    ensures Handled(a, i, OnMessage(nd, from, msg))
  {
    match msg
    case RequestVote(_, _, _) => RequestVoteOk(a, i, nd, from, msg);
    case VoteResponse(_, _) => VoteResponseOk(a, i, nd, from, msg);
    case AppendEntries(_, _, _, _, _) => AppendEntriesOk(a, i, nd, from, msg);
    case AppendResponse(_, _, _) => AppendResponseOk(a, i, nd, from, msg);
  }

  lemma HandleOk(a: Durable, i: NodeId, nd: NodeState, from: NodeId, msg: Message)
    requires Inv(a) && i < |a.disks| && NodeOk(a.h, a.disks[i], nd, i) && PacketOk(a.h, Packet(from, i, msg))
    ensures Handled(a, i, Handle(nd, from, msg))
  {
    if from == nd.id || from >= nd.n {
      Unchanged(a, i, Handle(nd, from, msg));
    } else if msg.term > nd.term {
      StepDownOk(a, i, nd, msg.term);
      var b, down := Bumped(a, i, msg.term), StepDown(nd, msg.term).node;
      OnMessageOk(b, i, down, from, msg);
      HandledAfter(a, b, i, SaveHardState(msg.term, None), OnMessage(down, from, msg), Handle(nd, from, msg));
    } else {
      OnMessageOk(a, i, nd, from, msg);
    }
  }

  /** Any call on a node of a sound cluster: completed, it keeps everything; cut short after any of
      its writes, it leaves a disk the cluster can recover from. */
  lemma StepOk(a: Durable, i: NodeId, nd: NodeState, input: Input)
    requires Inv(a) && i < |a.disks| && NodeOk(a.h, a.disks[i], nd, i)
    requires input.Receive? ==> PacketOk(a.h, Packet(input.from, i, input.message))
    ensures Handled(a, i, Step(nd, input))
  {
    match input
    case Tick(due) => TickOk(a, i, nd, due);
    case Receive(from, msg) => HandleOk(a, i, nd, from, msg);
    case Propose(command) => ProposeOk(a, i, nd, command);
  }

  // ---------------------------------------------------------------- one tenure per term

  lemma ElectedAlone(a: Durable, i: NodeId, nd: NodeState)
    requires Inv(a) && i < |a.disks| && NodeOk(a.h, a.disks[i], nd, i)
    requires CountTrue(Candidacy(nd).votes) >= QuorumSize(nd.n)
    ensures nd.term + 1 !in a.h.reigns
  {
    var h := CandidacyOk(a, i, nd);
    var b := Durable(a.disks[i := ApplyWrite(a.disks[i], SaveHardState(nd.term + 1, Some(i)))], h);
    CountedQuorum(nd.n, Candidacy(nd).votes);
    TermIsFree(b, i, Trues(Candidacy(nd).votes));
  }

  lemma ElectedByVote(a: Durable, i: NodeId, nd: NodeState, from: NodeId, msg: Message)
    requires Inv(a) && i < |a.disks| && NodeOk(a.h, a.disks[i], nd, i)
    requires PacketOk(a.h, Packet(from, i, msg)) && from < nd.n
    requires msg.VoteResponse? && nd.role == Candidate && msg.term == nd.term && msg.granted
    requires CountTrue(nd.votes[from := true]) >= QuorumSize(nd.n)
    ensures nd.term !in a.h.reigns
  {
    CountedQuorum(nd.n, nd.votes[from := true]);
    TermIsFree(a, i, Trues(nd.votes[from := true]));
  }

  /** A node that was not leading a term starts to lead it only if nobody ever did. */
  ghost predicate WinsAlone(nd: NodeState, input: Input)
    requires Shape(nd)
  {
    input == Tick(true) && CountTrue(Candidacy(nd).votes) >= QuorumSize(nd.n)
  }

  ghost predicate WinsByVote(nd: NodeState, input: Input)
    requires Shape(nd)
  {
    && input.Receive? && input.from < nd.n && input.message.VoteResponse? && nd.role == Candidate
    && input.message.term == nd.term && input.message.granted
    && CountTrue(nd.votes[input.from := true]) >= QuorumSize(nd.n)
  }

  lemma OnlyWaysToLead(nd: NodeState, input: Input)
    requires Shape(nd)
    ensures var nd' := Step(nd, input).node;
            nd'.role == Leader && !(nd.role == Leader && nd.term == nd'.term) ==>
              (WinsAlone(nd, input) && nd'.term == nd.term + 1) || (WinsByVote(nd, input) && nd'.term == nd.term)
  {
  }

  lemma NewLeaderFresh(a: Durable, i: NodeId, nd: NodeState, input: Input)
    requires Inv(a) && i < |a.disks| && NodeOk(a.h, a.disks[i], nd, i)
    requires input.Receive? ==> PacketOk(a.h, Packet(input.from, i, input.message))
    ensures var nd' := Step(nd, input).node;
            nd'.role == Leader && !(nd.role == Leader && nd.term == nd'.term) ==> nd'.term !in a.h.reigns
  {
    OnlyWaysToLead(nd, input);
    if WinsAlone(nd, input) {
      ElectedAlone(a, i, nd);
    } else if WinsByVote(nd, input) {
      ElectedByVote(a, i, nd, input.from, input.message);
    }
  }
}
