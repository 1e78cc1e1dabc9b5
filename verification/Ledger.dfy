/** The argument for safety, at the level of what is durable: the disks of all nodes plus a
    history of what they promised. The history is proof material only; no statement about a run
    of the cluster mentions it (see `Safety`). */
module Ledger {
  import opened Types
  import opened Quorum

  datatype Slot = Slot(term: Term, node: NodeId)

  /** Who led a term, who elected it, and the log it started from (before its no-op). */
  datatype Reign = Reign(node: NodeId, voters: set<NodeId>, start: seq<Entry>)

  /** A recorded vote: for whom, and the voter's log when it voted. */
  datatype Ballot = Ballot(candidate: NodeId, log: seq<Entry>)

  /** `ledger[T]` is the log of the leader of term T as far as it ever got; `acks[(T, v)]` is the
      longest prefix of it that node v acknowledged holding while in term T. */
  datatype History = History(
    n: nat,
    reigns: map<Term, Reign>,
    ledger: map<Term, seq<Entry>>,
    ballots: map<Slot, Ballot>,
    acks: map<Slot, seq<Entry>>)

  datatype Durable = Durable(disks: seq<Persistent>, h: History)

  // ---------------------------------------------------------------- vocabulary

  ghost predicate TermsAtMost(log: seq<Entry>, t: Term) {
    forall i :: 0 <= i < |log| ==> log[i].term <= t
  }

  ghost predicate TermsBelow(log: seq<Entry>, t: Term) {
    forall i :: 0 <= i < |log| ==> log[i].term < t
  }

  /** Entry `i` of `log`, and everything before it, was written by the leader of its term. */
  ghost predicate Traced(ledger: map<Term, seq<Entry>>, log: seq<Entry>, i: nat)
    requires i < |log|
  {
    log[i].term in ledger && log[..i + 1] <= ledger[log[i].term]
  }

  ghost predicate LogOk(ledger: map<Term, seq<Entry>>, log: seq<Entry>) {
    forall i: nat :: i < |log| ==> Traced(ledger, log, i)
  }

  ghost predicate Acked(h: History, t: Term, v: NodeId, p: seq<Entry>) {
    Slot(t, v) in h.acks && p <= h.acks[Slot(t, v)]
  }

  /** Some leader after term `t`, up to term `hi`, started without `p`. */
  ghost predicate Lost(h: History, t: Term, p: seq<Entry>, hi: int) {
    exists t' :: t < t' <= hi && t' in h.reigns && !(p <= h.reigns[t'].start)
  }

  /** `p` ends in an entry of term `t` and a majority acknowledged it in term `t`: the code's
      condition for a leader to commit by counting. */
  ghost predicate Chosen(h: History, t: Term, p: seq<Entry>) {
    p != [] && LastTerm(p) == t && exists q: set<nat> :: ChosenBy(h, t, p, q)
  }

  ghost predicate ChosenBy(h: History, t: Term, p: seq<Entry>, q: set<nat>) {
    IsQuorum(h.n, q) && forall v :: v in q ==> Acked(h, t, v, p)
  }

  ghost predicate SettledBy(h: History, p: seq<Entry>, t: Term, whole: seq<Entry>) {
    Chosen(h, t, whole) && p <= whole
  }

  /** `p` is committed, directly or indirectly, by a leader of a term no later than `hi`. */
  ghost predicate Settled(h: History, hi: Term, p: seq<Entry>) {
    p == [] || exists t: Term, whole: seq<Entry> :: t <= hi && SettledBy(h, p, t, whole)
  }

  /** Node `v` durably holds the committed prefix `p`. */
  ghost predicate Holds(a: Durable, v: NodeId, p: seq<Entry>) {
    v < |a.disks| && p <= a.disks[v].log && Settled(a.h, a.disks[v].term, p)
  }

  // ---------------------------------------------------------------- the invariant

  ghost predicate BallotFor(h: History, t: Term, v: NodeId, c: NodeId) {
    Slot(t, v) in h.ballots && h.ballots[Slot(t, v)].candidate == c
  }

  ghost predicate ReignOk(h: History, t: Term)
    requires t in h.reigns && t in h.ledger
  {
    var r, log := h.reigns[t], h.ledger[t];
    && r.start < log
    && TermsBelow(r.start, t)
    && (forall i :: |r.start| <= i < |log| ==> log[i].term == t)
    && LogOk(h.ledger, log)
    && IsQuorum(h.n, r.voters)
    && (forall v :: v in r.voters ==> BallotFor(h, t, v, r.node))
    && BallotFor(h, t, r.node, r.node)
    && r.start == h.ballots[Slot(t, r.node)].log
  }

  ghost predicate HistoryOk(h: History) {
    && h.reigns.Keys == h.ledger.Keys
    && forall t: Term {:trigger ReignOk(h, t)} :: t in h.reigns ==> ReignOk(h, t)
  }

  ghost predicate DiskOk(a: Durable, v: NodeId)
    requires v < |a.disks|
  {
    var h, d := a.h, a.disks[v];
    && LogOk(h.ledger, d.log)
    && TermsAtMost(d.log, d.term)
    && (d.term in h.reigns && d.term in h.ledger && h.reigns[d.term].node == v ==> d.log == h.ledger[d.term])
    && (d.votedFor.Some? ==> BallotFor(h, d.term, v, d.votedFor.value))
  }

  ghost predicate DisksOk(a: Durable) {
    && |a.disks| == a.h.n
    && forall v: NodeId {:trigger DiskOk(a, v)} :: v < |a.disks| ==> DiskOk(a, v)
  }

  ghost predicate BallotOk(a: Durable, k: Slot)
    requires k in a.h.ballots
  {
    var b := a.h.ballots[k];
    && k.node < |a.disks|
    && k.term <= a.disks[k.node].term
    && (k.term == a.disks[k.node].term ==> a.disks[k.node].votedFor == Some(b.candidate))
    && LogOk(a.h.ledger, b.log)
    && TermsAtMost(b.log, k.term)
    && (b.candidate == k.node ==> TermsBelow(b.log, k.term))
    && BallotFor(a.h, k.term, b.candidate, b.candidate)
    && LogUpToDate(a.h.ballots[Slot(k.term, b.candidate)].log, b.log)
  }

  ghost predicate BallotsOk(a: Durable) {
    forall k {:trigger BallotOk(a, k)} :: k in a.h.ballots ==> BallotOk(a, k)
  }

  /** An acknowledged prefix came from the leader, and is still on the acknowledger's disk unless
      a later leader already started without it. */
  ghost predicate AckOk(a: Durable, t: Term, v: NodeId, p: seq<Entry>) {
    && v < |a.disks|
    && t in a.h.ledger && p <= a.h.ledger[t]
    && t <= a.disks[v].term
    && (p <= a.disks[v].log || Lost(a.h, t, p, a.disks[v].term))
  }

  ghost predicate AcksOk(a: Durable) {
    forall t: Term, v: NodeId, p: seq<Entry> {:trigger AckOk(a, t, v, p)} ::
      Acked(a.h, t, v, p) ==> AckOk(a, t, v, p)
  }

  /** A voter's log at vote time held everything it had acknowledged, or a leader was already
      elected without it. */
  ghost predicate BallotKeeps(h: History, k: Slot, t: Term, p: seq<Entry>)
    requires k in h.ballots
  {
    p <= h.ballots[k].log || Lost(h, t, p, k.term)
  }

  ghost predicate BallotsKeep(h: History) {
    forall k: Slot, t: Term, p: seq<Entry> {:trigger BallotKeeps(h, k, t, p)} ::
      k in h.ballots && t < k.term && Acked(h, t, k.node, p) ==> BallotKeeps(h, k, t, p)
  }

  /** The same for the log the winner of an election starts from. */
  ghost predicate ReignKeeps(h: History, t': Term, t: Term, p: seq<Entry>)
    requires t' in h.reigns
  {
    p <= h.reigns[t'].start || Lost(h, t, p, t' - 1)
  }

  ghost predicate ReignsKeep(h: History) {
    forall t': Term, v: NodeId, t: Term, p: seq<Entry> {:trigger ReignKeeps(h, t', t, p), Acked(h, t, v, p)} ::
      t' in h.reigns && v in h.reigns[t'].voters && t < t' && Acked(h, t, v, p) && p != [] && LastTerm(p) == t ==>
        ReignKeeps(h, t', t, p)
  }

  ghost predicate Inv(a: Durable) {
    && HistoryOk(a.h)
    && DisksOk(a)
    && BallotsOk(a)
    && AcksOk(a)
    && BallotsKeep(a.h)
    && ReignsKeep(a.h)
  }

  // ---------------------------------------------------------------- growth

  ghost predicate Extends(h: History, h': History) {
    && h'.n == h.n
    && (forall t :: t in h.reigns ==> t in h'.reigns && h'.reigns[t] == h.reigns[t])
    && (forall t :: t in h.ledger ==> t in h'.ledger && h.ledger[t] <= h'.ledger[t])
    && (forall k :: k in h.ballots ==> k in h'.ballots && h'.ballots[k] == h.ballots[k])
    && (forall k :: k in h.acks ==> k in h'.acks && h.acks[k] <= h'.acks[k])
  }

  /** What every step keeps, besides the invariant: nothing promised is forgotten, terms never go
      back, and no node ever loses a committed prefix it held. */
  ghost predicate Grows(a: Durable, a': Durable) {
    && Extends(a.h, a'.h)
    && |a'.disks| == |a.disks|
    && (forall v :: 0 <= v < |a.disks| ==> a.disks[v].term <= a'.disks[v].term)
    && (forall v: NodeId, p: seq<Entry> :: Holds(a, v, p) ==> Holds(a', v, p))
  }

  lemma GrowsTransitive(a: Durable, b: Durable, c: Durable)
    requires Grows(a, b) && Grows(b, c)
    ensures Grows(a, c)
  {
  }

  lemma LogOkGrows(h: History, h': History, log: seq<Entry>)
    requires Extends(h, h') && LogOk(h.ledger, log)
    ensures LogOk(h'.ledger, log)
  {
    forall i: nat | i < |log| ensures Traced(h'.ledger, log, i) {
      assert Traced(h.ledger, log, i);
    }
  }

  lemma LostGrows(h: History, h': History, t: Term, p: seq<Entry>, hi: int, hi': int)
    requires Extends(h, h') && Lost(h, t, p, hi) && hi <= hi'
    ensures Lost(h', t, p, hi')
  {
    var t' :| t < t' <= hi && t' in h.reigns && !(p <= h.reigns[t'].start);
    assert t' in h'.reigns;
  }

  lemma ChosenGrows(h: History, h': History, t: Term, p: seq<Entry>)
    requires Extends(h, h') && Chosen(h, t, p)
    ensures Chosen(h', t, p)
  {
    var q :| ChosenBy(h, t, p, q);
    forall v | v in q ensures Acked(h', t, v, p) {
      assert Acked(h, t, v, p);
    }
    assert ChosenBy(h', t, p, q);
  }

  lemma SettledGrows(h: History, h': History, hi: Term, hi': Term, p: seq<Entry>, p': seq<Entry>)
    requires Extends(h, h') && Settled(h, hi, p) && hi <= hi' && p' <= p
    ensures Settled(h', hi', p')
  {
    if p' != [] {
      var t: Term, whole :| t <= hi && SettledBy(h, p, t, whole);
      ChosenGrows(h, h', t, whole);
      assert SettledBy(h', p', t, whole);
    }
  }

  // ---------------------------------------------------------------- log matching

  /** Log matching (section 5.3 of the Raft paper): logs that agree on the term at an index agree
      on everything up to it. */
  lemma LogMatching(ledger: map<Term, seq<Entry>>, x: seq<Entry>, y: seq<Entry>, i: nat)
    requires LogOk(ledger, x) && LogOk(ledger, y)
    requires i < |x| && i < |y| && x[i].term == y[i].term
    ensures x[..i + 1] == y[..i + 1]
  {
    assert Traced(ledger, x, i) && Traced(ledger, y, i);
    var l := ledger[x[i].term];
    assert x[..i + 1] == l[..i + 1] == y[..i + 1];
  }

  /** Terms never decrease along a log. */
  lemma TermsSorted(h: History, log: seq<Entry>, i: nat, j: nat)
    requires HistoryOk(h) && LogOk(h.ledger, log) && i <= j < |log|
    ensures log[i].term <= log[j].term
  {
    assert Traced(h.ledger, log, j);
    var t := log[j].term;
    assert ReignOk(h, t);
    assert log[i] == log[..j + 1][i] == h.ledger[t][i];
  }

  /** A prefix of a traced log is traced. */
  lemma LogOkPrefix(ledger: map<Term, seq<Entry>>, log: seq<Entry>, p: seq<Entry>)
    requires LogOk(ledger, log) && p <= log
    ensures LogOk(ledger, p)
  {
    forall i: nat | i < |p| ensures Traced(ledger, p, i) {
      assert Traced(ledger, log, i);
      assert p[..i + 1] == log[..i + 1];
    }
  }

  // ---------------------------------------------------------------- leader completeness

  /** Every leader of a later term starts from a log that has what an earlier term committed.
      By strong induction on the later term. */
  lemma {:induction false} LeaderCompleteness(a: Durable, t: Term, p: seq<Entry>, t': Term)
    requires Inv(a) && Chosen(a.h, t, p) && t < t' && t' in a.h.reigns
    ensures p <= a.h.reigns[t'].start
    decreases t'
  {
    var q :| ChosenBy(a.h, t, p, q);
    assert ReignOk(a.h, t');
    var v := QuorumsMeet(a.h.n, q, a.h.reigns[t'].voters);
    assert Acked(a.h, t, v, p);
    assert ReignKeeps(a.h, t', t, p);
    if Lost(a.h, t, p, t' - 1) {
      var t'' :| t < t'' <= t' - 1 && t'' in a.h.reigns && !(p <= a.h.reigns[t''].start);
      LeaderCompleteness(a, t, p, t'');
    }
  }

  /** A chosen log is a prefix of the ledger of its own term and of every later term. */
  lemma ChosenInLedger(a: Durable, t: Term, p: seq<Entry>, t': Term)
    requires Inv(a) && Chosen(a.h, t, p) && t <= t' && t' in a.h.reigns
    ensures p <= a.h.ledger[t']
  {
    assert ReignOk(a.h, t');
    if t < t' {
      LeaderCompleteness(a, t, p, t');
    } else {
      var q :| ChosenBy(a.h, t, p, q);
      var v := QuorumsMeet(a.h.n, q, q);
      assert Acked(a.h, t, v, p);
      assert AckOk(a, t, v, p);
    }
  }

  lemma SettledInLedger(a: Durable, hi: Term, p: seq<Entry>, t': Term)
    requires Inv(a) && Settled(a.h, hi, p) && hi <= t' && t' in a.h.reigns
    ensures p <= a.h.ledger[t']
  {
    if p != [] {
      var t: Term, whole :| t <= hi && SettledBy(a.h, p, t, whole);
      ChosenInLedger(a, t, whole, t');
    }
  }

  /** State machine safety: any two committed prefixes agree as far as both go. */
  lemma SettledComparable(a: Durable, hi: Term, p: seq<Entry>, hi': Term, p': seq<Entry>)
    requires Inv(a) && Settled(a.h, hi, p) && Settled(a.h, hi', p')
    ensures p <= p' || p' <= p
  {
    if p != [] && p' != [] {
      var t: Term, whole :| t <= hi && SettledBy(a.h, p, t, whole);
      var t': Term, whole' :| t' <= hi' && SettledBy(a.h, p', t', whole');
      ChosenHasReign(a, t, whole);
      ChosenHasReign(a, t', whole');
      var top := if t < t' then t' else t;
      ChosenInLedger(a, t, whole, top);
      ChosenInLedger(a, t', whole', top);
    }
  }

  lemma ChosenHasReign(a: Durable, t: Term, p: seq<Entry>)
    requires Inv(a) && Chosen(a.h, t, p)
    ensures t in a.h.reigns
  {
    var q :| ChosenBy(a.h, t, p, q);
    var v := QuorumsMeet(a.h.n, q, q);
    assert Acked(a.h, t, v, p);
    assert AckOk(a, t, v, p);
  }
}
