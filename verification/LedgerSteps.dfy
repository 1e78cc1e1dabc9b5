/** The durable steps the code can take, each with its effect on the history, and the proof that
    each keeps the invariant and forgets nothing. A handler of the node is a short sequence of
    these (see `Coupling`); a crash can come between any two. */
module LedgerSteps {
  import opened Types
  import opened Quorum
  import opened Ledger

  // ---------------------------------------------------------------- adopting a newer term

  ghost function Bumped(a: Durable, v: NodeId, t: Term): Durable
    requires v < |a.disks|
  {
    a.(disks := a.disks[v := a.disks[v].(term := t, votedFor := None)])
  }

  lemma BumpKeeps(a: Durable, v: NodeId, t: Term)
    requires Inv(a) && v < |a.disks| && t > a.disks[v].term
    ensures Inv(Bumped(a, v, t)) && Grows(a, Bumped(a, v, t))
  {
    var a' := Bumped(a, v, t);
    forall u: NodeId | u < |a'.disks| ensures DiskOk(a', u) {
      assert DiskOk(a, u);
      if u == v && t in a.h.reigns && a.h.reigns[t].node == v {
        LeaderReachedTerm(a, t);
      }
    }
    forall k | k in a'.h.ballots ensures BallotOk(a', k) {
      assert BallotOk(a, k);
    }
    KeepsAcks(a, a', v);
    KeepsHolds(a, a', v);
  }

  lemma LeaderReachedTerm(a: Durable, t: Term)
    requires Inv(a) && t in a.h.reigns
    ensures a.h.reigns[t].node < |a.disks| && t <= a.disks[a.h.reigns[t].node].term
  {
    assert ReignOk(a.h, t);
    assert BallotOk(a, Slot(t, a.h.reigns[t].node));
  }

  /** Acknowledged prefixes survive a step that changes only node `v`'s disk without shortening
      its log, whatever it adds to the history besides acks. */
  lemma KeepsAcks(a: Durable, a': Durable, v: NodeId)
    requires Inv(a) && Extends(a.h, a'.h) && a'.h.acks == a.h.acks
    requires v < |a.disks| && |a'.disks| == |a.disks|
    requires forall u :: 0 <= u < |a.disks| && u != v ==> a'.disks[u] == a.disks[u]
    requires a.disks[v].term <= a'.disks[v].term && a.disks[v].log <= a'.disks[v].log
    ensures AcksOk(a')
  {
    forall t: Term, u: NodeId, p: seq<Entry> | Acked(a'.h, t, u, p) ensures AckOk(a', t, u, p) {
      assert Acked(a.h, t, u, p);
      assert AckOk(a, t, u, p);
      if !(p <= a'.disks[u].log) {
        LostGrows(a.h, a'.h, t, p, a.disks[u].term, a'.disks[u].term);
      }
    }
  }

  /** So do committed prefixes. */
  lemma KeepsHolds(a: Durable, a': Durable, v: NodeId)
    requires Extends(a.h, a'.h)
    requires v < |a.disks| && |a'.disks| == |a.disks|
    requires forall u :: 0 <= u < |a.disks| && u != v ==> a'.disks[u] == a.disks[u]
    requires a.disks[v].term <= a'.disks[v].term && a.disks[v].log <= a'.disks[v].log
    ensures Grows(a, a')
  {
    forall u: NodeId, p: seq<Entry> | Holds(a, u, p) ensures Holds(a', u, p) {
      SettledGrows(a.h, a'.h, a.disks[u].term, a'.disks[u].term, p, p);
    }
  }

  lemma KeepsBallotsKeep(h: History, h': History)
    requires BallotsKeep(h) && Extends(h, h') && h'.acks == h.acks && h'.ballots == h.ballots
    ensures BallotsKeep(h')
  {
    forall k: Slot, t: Term, p: seq<Entry> | k in h'.ballots && t < k.term && Acked(h', t, k.node, p)
      ensures BallotKeeps(h', k, t, p)
    {
      assert Acked(h, t, k.node, p);
      assert BallotKeeps(h, k, t, p);
      if !(p <= h'.ballots[k].log) {
        LostGrows(h, h', t, p, k.term, k.term);
      }
    }
  }

  // ---------------------------------------------------------------- voting

  ghost function Voted(a: Durable, v: NodeId, c: NodeId): Durable
    requires v < |a.disks|
  {
    var d := a.disks[v];
    Durable(a.disks[v := d.(votedFor := Some(c))],
            a.h.(ballots := a.h.ballots[Slot(d.term, v) := Ballot(c, d.log)]))
  }

  /** A node that has not voted in its term votes: for itself when its log has no entry of this
      term, or for a candidate whose log (recorded with the candidate's own vote) is up to date. */
  lemma VoteKeeps(a: Durable, v: NodeId, c: NodeId)
    requires Inv(a) && v < |a.disks| && a.disks[v].votedFor.None?
    requires if c == v then TermsBelow(a.disks[v].log, a.disks[v].term)
             else BallotFor(a.h, a.disks[v].term, c, c) &&
                  LogUpToDate(a.h.ballots[Slot(a.disks[v].term, c)].log, a.disks[v].log)
    ensures Inv(Voted(a, v, c)) && Grows(a, Voted(a, v, c))
  {
    var a', t := Voted(a, v, c), a.disks[v].term;
    var s := Slot(t, v);
    if s in a.h.ballots {
      BallotSpent(a, s);
    }
    assert DiskOk(a, v);
    forall t' | t' in a'.h.reigns ensures ReignOk(a'.h, t') {
      assert ReignOk(a.h, t');
    }
    forall u: NodeId | u < |a'.disks| ensures DiskOk(a', u) {
      assert DiskOk(a, u);
    }
    forall k | k in a'.h.ballots ensures BallotOk(a', k) {
      if k != s {
        assert BallotOk(a, k);
      }
    }
    KeepsAcks(a, a', v);
    KeepsHolds(a, a', v);
    VoteKeepsAcked(a, v, c);
    KeepsReignsKeep(a.h, a'.h);
  }

  lemma BallotSpent(a: Durable, s: Slot)
    requires Inv(a) && s in a.h.ballots
    ensures s.node < |a.disks| && s.term <= a.disks[s.node].term
    ensures s.term == a.disks[s.node].term ==> a.disks[s.node].votedFor == Some(a.h.ballots[s].candidate)
  {
    assert BallotOk(a, s);
  }

  lemma VoteKeepsAcked(a: Durable, v: NodeId, c: NodeId)
    requires Inv(a) && v < |a.disks| && Slot(a.disks[v].term, v) !in a.h.ballots
    ensures BallotsKeep(Voted(a, v, c).h)
  {
    var h, h' := a.h, Voted(a, v, c).h;
    forall k: Slot, t: Term, p: seq<Entry> | k in h'.ballots && t < k.term && Acked(h', t, k.node, p)
      ensures BallotKeeps(h', k, t, p)
    {
      assert Acked(h, t, k.node, p);
      if k == Slot(a.disks[v].term, v) {
        assert AckOk(a, t, v, p);
      } else {
        assert BallotKeeps(h, k, t, p);
      }
      if !(p <= h'.ballots[k].log) {
        LostGrows(h, h', t, p, k.term, k.term);
      }
    }
  }

  // ---------------------------------------------------------------- winning an election

  ghost function Elected(a: Durable, c: NodeId, voters: set<NodeId>, noop: Entry): Durable
    requires c < |a.disks|
  {
    var d := a.disks[c];
    Durable(a.disks[c := d.(log := d.log + [noop])],
            a.h.(reigns := a.h.reigns[d.term := Reign(c, voters, d.log)],
                 ledger := a.h.ledger[d.term := d.log + [noop]]))
  }

  /** The guard of an election: a majority voted for `c` in its current term, and `c`'s log is
      still the one it voted for itself with. */
  ghost predicate MayLead(a: Durable, c: NodeId, voters: set<NodeId>) {
    && c < |a.disks|
    && IsQuorum(a.h.n, voters)
    && (forall v :: v in voters ==> BallotFor(a.h, a.disks[c].term, v, c))
    && BallotFor(a.h, a.disks[c].term, c, c)
    && a.h.ballots[Slot(a.disks[c].term, c)].log == a.disks[c].log
  }

  /** Election safety: nobody else has led this term. */
  lemma TermIsFree(a: Durable, c: NodeId, voters: set<NodeId>)
    requires Inv(a) && MayLead(a, c, voters)
    ensures a.disks[c].term !in a.h.reigns
  {
    var t := a.disks[c].term;
    if t in a.h.reigns {
      assert ReignOk(a.h, t);
      var v := QuorumsMeet(a.h.n, voters, a.h.reigns[t].voters);
      LeaderLogGrew(a, t);
    }
  }

  /** A leader that is still in its term has at least its no-op beyond the log it started from. */
  lemma LeaderLogGrew(a: Durable, t: Term)
    requires Inv(a) && t in a.h.reigns
    ensures a.h.reigns[t].node < |a.disks|
    ensures a.disks[a.h.reigns[t].node].term == t ==>
              a.disks[a.h.reigns[t].node].log == a.h.ledger[t] && a.h.reigns[t].start < a.h.ledger[t]
  {
    LeaderReachedTerm(a, t);
    assert ReignOk(a.h, t) && DiskOk(a, a.h.reigns[t].node);
  }

  lemma ElectKeeps(a: Durable, c: NodeId, voters: set<NodeId>, noop: Entry)
    requires Inv(a) && MayLead(a, c, voters) && noop.term == a.disks[c].term
    ensures Inv(Elected(a, c, voters, noop)) && Grows(a, Elected(a, c, voters, noop))
  {
    var a', t := Elected(a, c, voters, noop), a.disks[c].term;
    TermIsFree(a, c, voters);
    assert Extends(a.h, a'.h);
    ElectKeepsHistory(a, c, voters, noop);
    forall u: NodeId | u < |a'.disks| ensures DiskOk(a', u) {
      assert DiskOk(a, u);
      LogOkGrows(a.h, a'.h, a.disks[u].log);
      assert ReignOk(a'.h, t);
    }
    forall k | k in a'.h.ballots ensures BallotOk(a', k) {
      assert BallotOk(a, k);
      LogOkGrows(a.h, a'.h, a.h.ballots[k].log);
    }
    KeepsAcks(a, a', c);
    KeepsHolds(a, a', c);
    KeepsBallotsKeep(a.h, a'.h);
    ElectKeepsReigns(a, c, voters, noop);
  }

  lemma ElectKeepsReigns(a: Durable, c: NodeId, voters: set<NodeId>, noop: Entry)
    requires Inv(a) && MayLead(a, c, voters) && noop.term == a.disks[c].term && noop.term !in a.h.reigns
    requires Extends(a.h, Elected(a, c, voters, noop).h)
    ensures ReignsKeep(Elected(a, c, voters, noop).h)
  {
    var a', t := Elected(a, c, voters, noop), a.disks[c].term;
    forall t': Term, v: NodeId, t0: Term, p: seq<Entry>
      | t' in a'.h.reigns && v in a'.h.reigns[t'].voters && t0 < t'
        && Acked(a'.h, t0, v, p) && p != [] && LastTerm(p) == t0
      ensures ReignKeeps(a'.h, t', t0, p)
    {
      assert Acked(a.h, t0, v, p);
      if t' == t {
        WinnerHasIt(a, c, voters, v, t0, p);
      } else {
        assert ReignKeeps(a.h, t', t0, p);
      }
      if !(p <= a'.h.reigns[t'].start) {
        LostGrows(a.h, a'.h, t0, p, t' - 1, t' - 1);
      }
    }
  }

  lemma ElectKeepsHistory(a: Durable, c: NodeId, voters: set<NodeId>, noop: Entry)
    requires Inv(a) && MayLead(a, c, voters) && noop.term == a.disks[c].term && noop.term !in a.h.reigns
    ensures HistoryOk(Elected(a, c, voters, noop).h)
  {
    var h, h' := a.h, Elected(a, c, voters, noop).h;
    assert Extends(h, h');
    assert DiskOk(a, c) && BallotOk(a, Slot(noop.term, c));
    forall t | t in h'.reigns ensures ReignOk(h', t) {
      if t == noop.term {
        var log := a.disks[c].log;
        LogOkGrows(h, h', log);
        LogOkPush(h'.ledger, log, noop);
      } else {
        assert ReignOk(h, t);
        LogOkGrows(h, h', h.ledger[t]);
      }
    }
  }

  lemma LogOkPush(ledger: map<Term, seq<Entry>>, log: seq<Entry>, e: Entry)
    requires LogOk(ledger, log) && e.term in ledger && log + [e] <= ledger[e.term]
    ensures LogOk(ledger, log + [e])
  {
    forall i: nat | i < |log + [e]| ensures Traced(ledger, log + [e], i) {
      if i < |log| {
        assert Traced(ledger, log, i);
        assert (log + [e])[..i + 1] == log[..i + 1];
      } else {
        assert (log + [e])[..i + 1] == log + [e];
      }
    }
  }

  /** The vote rule at work (section 5.4.1): whatever a voter acknowledged in an earlier term is in
      the winner's log, or some leader in between was already without it. */
  lemma WinnerHasIt(a: Durable, c: NodeId, voters: set<NodeId>, v: NodeId, t: Term, p: seq<Entry>)
    requires Inv(a) && MayLead(a, c, voters) && a.disks[c].term !in a.h.reigns
    requires v in voters && t < a.disks[c].term && Acked(a.h, t, v, p) && p != [] && LastTerm(p) == t
    ensures p <= a.disks[c].log || Lost(a.h, t, p, a.disks[c].term - 1)
  {
    var h, top := a.h, a.disks[c].term;
    var b := h.ballots[Slot(top, v)];
    var log := a.disks[c].log;
    assert BallotOk(a, Slot(top, v)) && BallotOk(a, Slot(top, c));
    assert BallotKeeps(h, Slot(top, v), t, p);
    assert AckOk(a, t, v, p);
    if p <= b.log {
      TermsSorted(h, b.log, |p| - 1, |b.log| - 1);
      var lt := LastTerm(log);
      assert lt >= t;
      assert |log| > 0;
      assert Traced(h.ledger, log, |log| - 1);
      assert log[..|log|] == log;
      assert ReignOk(h, lt);
      if t < lt {
        var start := h.reigns[lt].start;
        assert start <= log by {
          assert log[|log| - 1] == h.ledger[lt][|log| - 1];
        }
        if !(p <= start) {
          assert lt <= top - 1;
          assert Lost(h, t, p, top - 1);
        }
      }
    } else {
      var t' :| t < t' <= top && t' in h.reigns && !(p <= h.reigns[t'].start);
      assert t' <= top - 1;
    }
  }

  // ---------------------------------------------------------------- the leader's log

  ghost function Appended(a: Durable, c: NodeId, e: Entry): Durable
    requires c < |a.disks|
  {
    var d := a.disks[c];
    Durable(a.disks[c := d.(log := d.log + [e])],
            a.h.(ledger := a.h.ledger[d.term := d.log + [e]]))
  }

  lemma AppendKeeps(a: Durable, c: NodeId, e: Entry)
    requires Inv(a) && c < |a.disks| && e.term == a.disks[c].term
    requires e.term in a.h.reigns && a.h.reigns[e.term].node == c
    ensures Inv(Appended(a, c, e)) && Grows(a, Appended(a, c, e))
  {
    var a', t := Appended(a, c, e), e.term;
    assert DiskOk(a, c) && ReignOk(a.h, t);
    assert Extends(a.h, a'.h);
    AppendKeepsHistory(a, c, e);
    forall u: NodeId | u < |a'.disks| ensures DiskOk(a', u) {
      assert DiskOk(a, u);
      LogOkGrows(a.h, a'.h, a.disks[u].log);
      assert ReignOk(a'.h, t);
    }
    forall k | k in a'.h.ballots ensures BallotOk(a', k) {
      assert BallotOk(a, k);
      LogOkGrows(a.h, a'.h, a.h.ballots[k].log);
    }
    KeepsAcks(a, a', c);
    KeepsHolds(a, a', c);
    KeepsBallotsKeep(a.h, a'.h);
    KeepsReignsKeep(a.h, a'.h);
  }

  lemma AppendKeepsHistory(a: Durable, c: NodeId, e: Entry)
    requires Inv(a) && c < |a.disks| && e.term == a.disks[c].term
    requires e.term in a.h.reigns && a.h.reigns[e.term].node == c
    ensures HistoryOk(Appended(a, c, e).h)
  {
    var h, h' := a.h, Appended(a, c, e).h;
    assert DiskOk(a, c) && ReignOk(h, e.term);
    assert Extends(h, h');
    forall t | t in h'.reigns ensures ReignOk(h', t) {
      assert ReignOk(h, t);
      LogOkGrows(h, h', h.ledger[t]);
      if t == e.term {
        LogOkPush(h'.ledger, a.disks[c].log, e);
      }
    }
  }

  lemma KeepsReignsKeep(h: History, h': History)
    requires ReignsKeep(h) && Extends(h, h') && h'.acks == h.acks && h'.reigns == h.reigns
    ensures ReignsKeep(h')
  {
    forall t': Term, u: NodeId, t: Term, p: seq<Entry>
      | t' in h'.reigns && u in h'.reigns[t'].voters && t < t' && Acked(h', t, u, p) && p != [] && LastTerm(p) == t
      ensures ReignKeeps(h', t', t, p)
    {
      assert Acked(h, t, u, p);
      assert ReignKeeps(h, t', t, p);
      if !(p <= h.reigns[t'].start) {
        LostGrows(h, h', t, p, t' - 1, t' - 1);
      }
    }
  }

  // ---------------------------------------------------------------- a follower's log

  ghost function Replaced(a: Durable, v: NodeId, log: seq<Entry>): Durable
    requires v < |a.disks|
  {
    a.(disks := a.disks[v := a.disks[v].(log := log)])
  }

  /** The log of node `v` first departs from the ledger of its term after `j` entries. */
  ghost predicate ConflictsAt(a: Durable, v: NodeId, j: nat) {
    && v < |a.disks| && a.disks[v].term in a.h.reigns && a.disks[v].term in a.h.ledger
    && j < |a.disks[v].log| && j < |a.h.ledger[a.disks[v].term]|
    && a.disks[v].log[..j] <= a.h.ledger[a.disks[v].term]
    && a.disks[v].log[j] != a.h.ledger[a.disks[v].term][j]
  }

  /** Truncating at a genuine conflict removes nothing that anyone may still rely on: no committed
      prefix, and no acknowledged prefix that a later leader started with. */
  lemma TruncateKeeps(a: Durable, v: NodeId, j: nat)
    requires Inv(a) && ConflictsAt(a, v, j)
    ensures Inv(Replaced(a, v, a.disks[v].log[..j])) && Grows(a, Replaced(a, v, a.disks[v].log[..j]))
  {
    var d := a.disks[v];
    var a' := Replaced(a, v, d.log[..j]);
    var l := a.h.ledger[d.term];
    assert DiskOk(a, v) && ReignOk(a.h, d.term);
    LogOkPrefix(a.h.ledger, d.log, d.log[..j]);
    OneDiskChanged(a, a', v);
    forall t: Term, u: NodeId, p: seq<Entry> | Acked(a'.h, t, u, p) ensures AckOk(a', t, u, p) {
      assert AckOk(a, t, u, p);
      if u == v && p <= d.log && !(p <= d.log[..j]) {
        assert p[j] == d.log[j];
        assert !(p <= a.h.reigns[d.term].start);
        assert t < d.term;
        assert Lost(a'.h, t, p, d.term);
      }
    }
    forall u: NodeId, p: seq<Entry> | Holds(a, u, p) ensures Holds(a', u, p) {
      if u == v {
        SettledInLedger(a, d.term, p, d.term);
        if j < |p| {
          PrefixesAgreeAt(d.log, l, p, j);
        }
      }
    }
  }

  lemma PrefixesAgreeAt<T>(x: seq<T>, y: seq<T>, p: seq<T>, j: nat)
    requires p <= x && p <= y && j < |p|
    ensures x[j] == y[j]
  {
    assert p[j] == x[j] && p[j] == y[j];
  }

  lemma OneDiskChanged(a: Durable, a': Durable, v: NodeId)
    requires Inv(a) && a'.h == a.h && v < |a.disks| && |a'.disks| == |a.disks|
    requires forall u :: 0 <= u < |a.disks| && u != v ==> a'.disks[u] == a.disks[u]
    requires a'.disks[v].term == a.disks[v].term && a'.disks[v].votedFor == a.disks[v].votedFor
    requires DiskOk(a', v)
    ensures DisksOk(a') && BallotsOk(a')
  {
    forall u: NodeId | u < |a'.disks| ensures DiskOk(a', u) {
      assert DiskOk(a, u);
    }
    forall k | k in a'.h.ballots ensures BallotOk(a', k) {
      assert BallotOk(a, k);
    }
  }

  /** Extending a log that agrees with the ledger of the node's term, up to `m` entries of it. */
  lemma ExtendKeeps(a: Durable, v: NodeId, m: nat)
    requires Inv(a) && v < |a.disks| && a.disks[v].term in a.h.reigns
    requires a.disks[v].term in a.h.ledger && m <= |a.h.ledger[a.disks[v].term]|
    requires a.disks[v].log <= a.h.ledger[a.disks[v].term][..m]
    ensures Inv(Replaced(a, v, a.h.ledger[a.disks[v].term][..m]))
    ensures Grows(a, Replaced(a, v, a.h.ledger[a.disks[v].term][..m]))
  {
    var t := a.disks[v].term;
    var l := a.h.ledger[t];
    var a' := Replaced(a, v, l[..m]);
    assert DiskOk(a, v) && ReignOk(a.h, t);
    LogOkPrefix(a.h.ledger, l, l[..m]);
    assert a.h.reigns[t].node == v ==> l[..m] == l;
    OneDiskChanged(a, a', v);
    KeepsAcks(a, a', v);
    KeepsHolds(a, a', v);
  }

  // ---------------------------------------------------------------- acknowledging

  function Longer(x: seq<Entry>, y: seq<Entry>): seq<Entry> {
    if |x| >= |y| then x else y
  }

  ghost function AckedTo(a: Durable, v: NodeId, m: nat): Durable
    requires v < |a.disks| && a.disks[v].term in a.h.ledger && m <= |a.h.ledger[a.disks[v].term]|
  {
    var s := Slot(a.disks[v].term, v);
    var p := a.h.ledger[s.term][..m];
    a.(h := a.h.(acks := a.h.acks[s := if s in a.h.acks then Longer(a.h.acks[s], p) else p]))
  }

  /** A node that holds the first `m` entries of its term's ledger acknowledges them. */
  lemma AckKeeps(a: Durable, v: NodeId, m: nat)
    requires Inv(a) && v < |a.disks| && a.disks[v].term in a.h.ledger
    requires m <= |a.h.ledger[a.disks[v].term]| && a.h.ledger[a.disks[v].term][..m] <= a.disks[v].log
    ensures Inv(AckedTo(a, v, m)) && Grows(a, AckedTo(a, v, m))
    ensures Acked(AckedTo(a, v, m).h, a.disks[v].term, v, a.h.ledger[a.disks[v].term][..m])
  {
    var a' := AckedTo(a, v, m);
    AckExtends(a, v, m);
    forall t | t in a'.h.reigns ensures ReignOk(a'.h, t) {
      assert ReignOk(a.h, t);
    }
    forall u: NodeId | u < |a'.disks| ensures DiskOk(a', u) {
      assert DiskOk(a, u);
    }
    forall k | k in a'.h.ballots ensures BallotOk(a', k) {
      assert BallotOk(a, k);
    }
    KeepsHolds(a, a', v);
    AckKeepsPromises(a, v, m);
  }

  lemma AckExtends(a: Durable, v: NodeId, m: nat)
    requires Inv(a) && v < |a.disks| && a.disks[v].term in a.h.ledger
    requires m <= |a.h.ledger[a.disks[v].term]| && a.h.ledger[a.disks[v].term][..m] <= a.disks[v].log
    ensures Extends(a.h, AckedTo(a, v, m).h) && AcksOk(AckedTo(a, v, m))
    ensures Acked(AckedTo(a, v, m).h, a.disks[v].term, v, a.h.ledger[a.disks[v].term][..m])
  {
    var a', s := AckedTo(a, v, m), Slot(a.disks[v].term, v);
    var l := a.h.ledger[s.term];
    if s in a.h.acks {
      assert Acked(a.h, s.term, v, a.h.acks[s]);
      assert AckOk(a, s.term, v, a.h.acks[s]);
    }
    assert Extends(a.h, a'.h);
    forall t: Term, u: NodeId, q: seq<Entry> | Acked(a'.h, t, u, q) ensures AckOk(a', t, u, q) {
      if Acked(a.h, t, u, q) {
        assert AckOk(a, t, u, q);
        if !(q <= a.disks[u].log) {
          LostGrows(a.h, a'.h, t, q, a.disks[u].term, a.disks[u].term);
        }
      } else {
        assert q <= l[..m];
      }
    }
  }

  /** A new acknowledgement cannot contradict an old vote: the voter has not voted in a later term. */
  lemma AckKeepsPromises(a: Durable, v: NodeId, m: nat)
    requires Inv(a) && v < |a.disks| && a.disks[v].term in a.h.ledger && m <= |a.h.ledger[a.disks[v].term]|
    ensures BallotsKeep(AckedTo(a, v, m).h) && ReignsKeep(AckedTo(a, v, m).h)
  {
    var h, h' := a.h, AckedTo(a, v, m).h;
    forall k: Slot, t: Term, p: seq<Entry> | k in h'.ballots && t < k.term && Acked(h', t, k.node, p)
      ensures BallotKeeps(h', k, t, p)
    {
      assert BallotOk(a, k);
      assert Acked(h, t, k.node, p);
      assert BallotKeeps(h, k, t, p);
    }
    forall t': Term, u: NodeId, t: Term, p: seq<Entry>
      | t' in h'.reigns && u in h'.reigns[t'].voters && t < t' && Acked(h', t, u, p) && p != [] && LastTerm(p) == t
      ensures ReignKeeps(h', t', t, p)
    {
      assert ReignOk(h, t');
      assert BallotOk(a, Slot(t', u));
      assert Acked(h, t, u, p);
      assert ReignKeeps(h, t', t, p);
    }
  }
}
