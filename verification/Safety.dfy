/** What the protocol promises, stated on runs of the cluster alone. Every statement is for all runs,
    all states of the run (earlier or later, before or after crashes), and all nodes. */
module Safety {
  import opened Types
  import opened Ledger
  import opened NodeSpec
  import opened Cluster
  import opened Coupling
  import opened Runs
  import Kv

  ghost predicate IsUp(s: System, u: NodeId) {
    u < |s.servers| && s.servers[u].Up?
  }

  ghost function NodeAt(s: System, u: NodeId): NodeState
    requires IsUp(s, u)
  {
    s.servers[u].node
  }

  ghost predicate Leads(s: System, u: NodeId, t: Term) {
    IsUp(s, u) && NodeAt(s, u).role == Leader && NodeAt(s, u).term == t
  }

  /** The prefix of node `u`'s log that it believes committed. */
  ghost function Committed(s: System, u: NodeId): seq<Entry>
    requires IsUp(s, u)
  {
    Truncate(NodeAt(s, u).log, NodeAt(s, u).commitIndex)
  }

  // ---------------------------------------------------------------- what every state satisfies

  /** Nothing the model guards against ever happens: in every state of every run, each live node's
      disk equals its memory, its bookkeeping is in range, and its commit index is within its log. */
  lemma {:induction false} NothingOutOfRange(run: seq<System>, k: nat, u: NodeId)
    requires IsRun(run) && k < |run| && IsUp(run[k], u)
    ensures u < |run[k].disks| && run[k].disks[u] == Disk(NodeAt(run[k], u))
    ensures Shape(NodeAt(run[k], u)) && NodeAt(run[k], u).id == u
    ensures NodeAt(run[k], u).commitIndex <= |NodeAt(run[k], u).log|
  {
    var hs := RunWitnessed(run);
    assert ServerAt(run[k], hs[k], u);
  }

  /** Terms along a log never decrease and never exceed the term of the node that holds it. */
  lemma {:induction false} TermsInOrder(run: seq<System>, k: nat, u: NodeId, i: nat, j: nat)
    requires IsRun(run) && k < |run| && u < |run[k].disks| && i <= j < |run[k].disks[u].log|
    ensures run[k].disks[u].log[i].term <= run[k].disks[u].log[j].term <= run[k].disks[u].term
  {
    var hs := RunWitnessed(run);
    var a := DurableOf(run[k], hs[k]);
    assert SystemOk(run[k], hs[k]);
    assert DiskOk(a, u);
    TermsSorted(a.h, a.disks[u].log, i, j);
  }

  // ---------------------------------------------------------------- the last history knows everything

  /** What a state of the run looks like to the last history of the run. */
  ghost predicate Recorded(s: System, u: NodeId, h: History)
    requires u < |s.disks|
  {
    && LogOk(h.ledger, s.disks[u].log)
    && (IsUp(s, u) ==>
      var nd := NodeAt(s, u);
      && nd.commitIndex <= |nd.log| && nd.log == s.disks[u].log
      && Settled(h, nd.term, nd.log[..nd.commitIndex])
      && s.servers[u].high <= |nd.log| && Settled(h, nd.term, nd.log[..s.servers[u].high])
      && (nd.role == Leader ==>
        && nd.term in h.reigns && nd.term in h.ledger && h.reigns[nd.term].node == u
        && h.reigns[nd.term].start <= nd.log <= h.ledger[nd.term]))
  }

  lemma Record(s: System, h: History, h': History, u: NodeId)
    requires SystemOk(s, h) && Extends(h, h') && u < |s.disks|
    ensures Recorded(s, u, h')
  {
    var a := DurableOf(s, h);
    assert ServerAt(s, h, u);
    assert DiskOk(a, u);
    LogOkGrows(h, h', s.disks[u].log);
    if IsUp(s, u) {
      var nd := NodeAt(s, u);
      var p := nd.log[..nd.commitIndex];
      SettledGrows(h, h', nd.term, nd.term, p, p);
      var q := nd.log[..s.servers[u].high];
      SettledGrows(h, h', nd.term, nd.term, q, q);
      if nd.role == Leader {
        LeaderLog(a, u, nd);
        assert ReignOk(h, nd.term);
      }
    }
  }

  /** One sound durable state that accounts for two states of a run. */
  lemma Account(run: seq<System>, j: nat, k: nat, u: NodeId, v: NodeId) returns (a: Durable)
    requires IsRun(run) && j < |run| && k < |run| && u < |run[j].disks| && v < |run[k].disks|
    ensures Inv(a) && Recorded(run[j], u, a.h) && Recorded(run[k], v, a.h)
  {
    var hs := RunWitnessed(run);
    var last := |run| - 1;
    a := DurableOf(run[last], hs[last]);
    assert SystemOk(run[last], hs[last]) && SystemOk(run[j], hs[j]) && SystemOk(run[k], hs[k]);
    assert GrowsFrom(run[j], hs[j], run[last], hs[last]);
    assert GrowsFrom(run[k], hs[k], run[last], hs[last]);
    Record(run[j], hs[j], a.h, u);
    Record(run[k], hs[k], a.h, v);
  }

  lemma {:induction false} UpHasDisk(run: seq<System>, k: nat, u: NodeId)
    requires IsRun(run) && k < |run| && IsUp(run[k], u)
    ensures u < |run[k].disks|
  {
    NothingOutOfRange(run, k, u);
  }

  // ---------------------------------------------------------------- the main theorems

  /** Election safety: at most one node ever leads a term. */
  lemma {:induction false} ElectionSafety(run: seq<System>, j: nat, k: nat, u: NodeId, v: NodeId, t: Term)
    requires IsRun(run) && j < |run| && k < |run| && Leads(run[j], u, t) && Leads(run[k], v, t)
    ensures u == v
  {
    UpHasDisk(run, j, u);
    UpHasDisk(run, k, v);
    var a := Account(run, j, k, u, v);
  }

  /** Log matching, across nodes and across time: two logs that agree on the term of an entry agree
      on everything up to it. */
  lemma {:induction false} LogsMatch(run: seq<System>, j: nat, k: nat, u: NodeId, v: NodeId, i: nat)
    requires IsRun(run) && j < |run| && k < |run| && u < |run[j].disks| && v < |run[k].disks|
    requires i < |run[j].disks[u].log| && i < |run[k].disks[v].log|
    requires run[j].disks[u].log[i].term == run[k].disks[v].log[i].term
    ensures run[j].disks[u].log[..i + 1] == run[k].disks[v].log[..i + 1]
  {
    var a := Account(run, j, k, u, v);
    LogMatching(a.h.ledger, run[j].disks[u].log, run[k].disks[v].log, i);
  }

  lemma PacketAtEnd(run: seq<System>, hs: seq<History>, k: nat, m: Packet)
    requires Witnessed(run, hs) && k < |run| && m in run[k].sent
    ensures PacketOk(hs[|run| - 1], m)
  {
    assert SystemOk(run[k], hs[k]) && PacketOk(hs[k], m);
    assert GrowsFrom(run[k], hs[k], run[|run| - 1], hs[|run| - 1]);
    PacketOkGrows(hs[k], hs[|run| - 1], m);
  }

  /** The term an append states for a position: that of its prev pair or of one of its entries. */
  function TermIn(m: Message, x: Index): Term
    requires m.AppendEntries? && m.prevIndex <= x <= m.prevIndex + |m.entries|
  {
    if x == m.prevIndex then m.prevTerm else m.entries[x - m.prevIndex - 1].term
  }

  lemma StretchOf(l: seq<Entry>, m: Message, x: Index)
    requires m.AppendEntries? && AppendOk(l, m.prevIndex, m.prevTerm, m.entries)
    requires m.prevIndex <= x <= m.prevIndex + |m.entries|
    ensures TermIn(m, x) == TermAt(l, x) && m.entries[..x - m.prevIndex] == l[m.prevIndex..x]
  {
    forall i: nat | i < |m.entries| ensures m.entries[i] == l[m.prevIndex + i] {
      assert SameEntry(l, m.prevIndex, m.entries, i);
    }
  }

  /** What the last history of a run says about an append sent in it: it is a stretch of a traced log. */
  ghost predicate SentFrom(h: History, m: Message)
    requires m.AppendEntries?
  {
    exists t :: IsSource(h, m, t)
  }

  ghost predicate IsSource(h: History, m: Message, t: Term)
    requires m.AppendEntries?
  {
    && t in h.ledger && LogOk(h.ledger, h.ledger[t])
    && AppendOk(h.ledger[t], m.prevIndex, m.prevTerm, m.entries)
  }

  lemma AppendAtEnd(run: seq<System>, hs: seq<History>, k: nat, m: Packet)
    requires Witnessed(run, hs) && k < |run| && m in run[k].sent && m.message.AppendEntries?
    ensures SentFrom(hs[|run| - 1], m.message)
  {
    PacketAtEnd(run, hs, k, m);
    var h, t := hs[|run| - 1], m.message.term;
    assert SystemOk(run[|run| - 1], h) && ReignOk(h, t);
    assert IsSource(h, m.message, t);
  }

  lemma DiskAtEnd(run: seq<System>, hs: seq<History>, j: nat, u: NodeId)
    requires Witnessed(run, hs) && j < |run| && u < |run[j].disks|
    ensures LogOk(hs[|run| - 1].ledger, run[j].disks[u].log)
  {
    assert SystemOk(run[j], hs[j]) && GrowsFrom(run[j], hs[j], run[|run| - 1], hs[|run| - 1]);
    assert DiskOk(DurableOf(run[j], hs[j]), u);
    LogOkGrows(hs[j], hs[|run| - 1], run[j].disks[u].log);
  }

  /** Log matching for an append in flight: if a log, at any time, has the term that the append states
      for a position, in its prev pair or its entries, then it has the prev pair and all the entries up
      to that position. */
  lemma {:induction false} AppendMatchesLog(run: seq<System>, j: nat, k: nat, u: NodeId, m: Packet, x: Index)
    requires IsRun(run) && j < |run| && k < |run| && u < |run[j].disks| && m in run[k].sent && m.message.AppendEntries?
    requires m.message.prevIndex <= x <= m.message.prevIndex + |m.message.entries| && 0 < x <= |run[j].disks[u].log|
    requires TermAt(run[j].disks[u].log, x) == TermIn(m.message, x)
    ensures var log, prev := run[j].disks[u].log, m.message.prevIndex;
            TermAt(log, prev) == m.message.prevTerm && log[prev..x] == m.message.entries[..x - prev]
  {
    var h := LogAndAppendAtEnd(run, j, k, u, m);
    StretchMatches(h, run[j].disks[u].log, m.message, x);
  }

  lemma LogAndAppendAtEnd(run: seq<System>, j: nat, k: nat, u: NodeId, m: Packet) returns (h: History)
    requires IsRun(run) && j < |run| && k < |run| && u < |run[j].disks| && m in run[k].sent && m.message.AppendEntries?
    ensures LogOk(h.ledger, run[j].disks[u].log) && SentFrom(h, m.message)
  {
    var hs := RunWitnessed(run);
    DiskAtEnd(run, hs, j, u);
    AppendAtEnd(run, hs, k, m);
    h := hs[|run| - 1];
  }

  lemma StretchMatches(h: History, log: seq<Entry>, m: Message, x: Index)
    requires m.AppendEntries? && LogOk(h.ledger, log) && SentFrom(h, m)
    requires m.prevIndex <= x <= m.prevIndex + |m.entries| && 0 < x <= |log| && TermAt(log, x) == TermIn(m, x)
    ensures TermAt(log, m.prevIndex) == m.prevTerm && log[m.prevIndex..x] == m.entries[..x - m.prevIndex]
  {
    var t :| IsSource(h, m, t);
    var l := h.ledger[t];
    StretchOf(l, m, x);
    LogMatching(h.ledger, log, l, x - 1);
    SamePrefix(log, l, m.prevIndex, x);
  }

  lemma SamePrefix(x: seq<Entry>, y: seq<Entry>, i: Index, j: Index)
    requires i <= j <= |x| && j <= |y| && x[..j] == y[..j]
    ensures TermAt(x, i) == TermAt(y, i) && x[i..j] == y[i..j]
  {
    assert x[i..j] == x[..j][i..] && y[i..j] == y[..j][i..];
    assert i > 0 ==> x[..j][i - 1] == y[..j][i - 1];
  }

  /** The entries of an append for the positions after `low`, up to `x`. */
  function Part(m: Message, low: Index, x: Index): seq<Entry>
    requires m.AppendEntries? && m.prevIndex <= low <= x <= m.prevIndex + |m.entries|
  {
    m.entries[low - m.prevIndex..x - m.prevIndex]
  }

  /** Two appends that both reach position `x` are the same from the first position both carry up to it. */
  predicate AgreeUpTo(m: Message, m': Message, x: Index)
    requires m.AppendEntries? && m'.AppendEntries?
    requires m.prevIndex <= x <= m.prevIndex + |m.entries| && m'.prevIndex <= x <= m'.prevIndex + |m'.entries|
  {
    var low := Max(m.prevIndex, m'.prevIndex);
    TermIn(m, low) == TermIn(m', low) && Part(m, low, x) == Part(m', low, x)
  }

  /** And for two appends, whoever sent them and whenever: if they state the same term for a position,
      they agree on everything both carry up to it. */
  lemma {:induction false} AppendsMatch(run: seq<System>, j: nat, k: nat, m: Packet, m': Packet, x: Index)
    requires IsRun(run) && j < |run| && k < |run| && m in run[j].sent && m' in run[k].sent
    requires m.message.AppendEntries? && m'.message.AppendEntries? && 0 < x
    requires m.message.prevIndex <= x <= m.message.prevIndex + |m.message.entries|
    requires m'.message.prevIndex <= x <= m'.message.prevIndex + |m'.message.entries|
    requires TermIn(m.message, x) == TermIn(m'.message, x)
    ensures AgreeUpTo(m.message, m'.message, x)
  {
    var h := AppendsAtEnd(run, j, k, m, m');
    StretchesMatch(h, m.message, m'.message, x);
  }

  lemma AppendsAtEnd(run: seq<System>, j: nat, k: nat, m: Packet, m': Packet) returns (h: History)
    requires IsRun(run) && j < |run| && k < |run| && m in run[j].sent && m' in run[k].sent
    requires m.message.AppendEntries? && m'.message.AppendEntries?
    ensures SentFrom(h, m.message) && SentFrom(h, m'.message)
  {
    var hs := RunWitnessed(run);
    AppendAtEnd(run, hs, j, m);
    AppendAtEnd(run, hs, k, m');
    h := hs[|run| - 1];
  }

  /** The part of an append from position `low` to `x` is that part of the log it was taken from. */
  lemma StretchFrom(l: seq<Entry>, m: Message, low: Index, x: Index)
    requires m.AppendEntries? && AppendOk(l, m.prevIndex, m.prevTerm, m.entries)
    requires m.prevIndex <= low <= x <= m.prevIndex + |m.entries|
    ensures TermIn(m, low) == TermAt(l, low) && Part(m, low, x) == l[low..x]
  {
    StretchOf(l, m, low);
    StretchOf(l, m, x);
    TailOfSlice(l, m.entries, m.prevIndex, low, x);
  }

  lemma TailOfSlice<T>(l: seq<T>, part: seq<T>, i: nat, low: nat, x: nat)
    requires i <= low <= x <= |l| && x - i <= |part| && part[..x - i] == l[i..x]
    ensures part[low - i..x - i] == l[low..x]
  {
    assert part[low - i..x - i] == part[..x - i][low - i..];
    assert l[i..x][low - i..] == l[low..x];
  }

  ghost predicate TakenFrom(h: History, m: Message, low: Index, x: Index, t: Term)
    requires m.AppendEntries? && m.prevIndex <= low <= x <= m.prevIndex + |m.entries|
  {
    && t in h.ledger && x <= |h.ledger[t]|
    && TermIn(m, low) == TermAt(h.ledger[t], low) && Part(m, low, x) == h.ledger[t][low..x]
  }

  lemma TakenFromSource(h: History, m: Message, low: Index, x: Index, t: Term)
    requires m.AppendEntries? && IsSource(h, m, t) && m.prevIndex <= low <= x <= m.prevIndex + |m.entries|
    ensures TakenFrom(h, m, low, x, t)
  {
    StretchFrom(h.ledger[t], m, low, x);
  }

  lemma SharedStretch(h: History, m: Message, m': Message, low: Index, x: Index, t: Term, t': Term)
    requires m.AppendEntries? && m.prevIndex <= low <= x <= m.prevIndex + |m.entries|
    requires m'.AppendEntries? && m'.prevIndex <= low <= x <= m'.prevIndex + |m'.entries|
    requires TakenFrom(h, m, low, x, t) && TakenFrom(h, m', low, x, t')
    requires h.ledger[t][..x] == h.ledger[t'][..x]
    ensures TermIn(m, low) == TermIn(m', low) && Part(m, low, x) == Part(m', low, x)
  {
    SamePrefix(h.ledger[t], h.ledger[t'], low, x);
  }

  lemma SourcesMatch(h: History, m: Message, m': Message, t: Term, t': Term, x: Index)
    requires m.AppendEntries? && m'.AppendEntries? && IsSource(h, m, t) && IsSource(h, m', t') && 0 < x
    requires m.prevIndex <= x <= m.prevIndex + |m.entries| && m'.prevIndex <= x <= m'.prevIndex + |m'.entries|
    requires TermIn(m, x) == TermIn(m', x)
    ensures h.ledger[t][..x] == h.ledger[t'][..x]
  {
    StretchOf(h.ledger[t], m, x);
    StretchOf(h.ledger[t'], m', x);
    LogMatching(h.ledger, h.ledger[t], h.ledger[t'], x - 1);
  }

  lemma StretchesMatch(h: History, m: Message, m': Message, x: Index)
    requires m.AppendEntries? && m'.AppendEntries? && SentFrom(h, m) && SentFrom(h, m') && 0 < x
    requires m.prevIndex <= x <= m.prevIndex + |m.entries| && m'.prevIndex <= x <= m'.prevIndex + |m'.entries|
    requires TermIn(m, x) == TermIn(m', x)
    ensures AgreeUpTo(m, m', x)
  {
    var t :| IsSource(h, m, t);
    var t' :| IsSource(h, m', t');
    var low := Max(m.prevIndex, m'.prevIndex);
    TakenFromSource(h, m, low, x, t);
    TakenFromSource(h, m', low, x, t');
    SourcesMatch(h, m, m', t, t', x);
    SharedStretch(h, m, m', low, x, t, t');
  }

  /** Leader completeness: what any node has committed in term `t` is in the log of every leader of
      every later term, at every moment of its leadership. */
  lemma {:induction false} LeaderIsComplete(run: seq<System>, j: nat, k: nat, u: NodeId, v: NodeId, t: Term)
    requires IsRun(run) && j < |run| && k < |run|
    requires IsUp(run[j], u) && Leads(run[k], v, t) && NodeAt(run[j], u).term < t
    ensures Committed(run[j], u) <= NodeAt(run[k], v).log
  {
    UpHasDisk(run, j, u);
    UpHasDisk(run, k, v);
    var a := Account(run, j, k, u, v);
    var p, t0 := Committed(run[j], u), NodeAt(run[j], u).term;
    assert p == NodeAt(run[j], u).log[..NodeAt(run[j], u).commitIndex];
    if p != [] {
      var t1: Term, whole :| t1 <= t0 && SettledBy(a.h, p, t1, whole);
      LeaderCompleteness(a, t1, whole, t);
    }
  }

  /** In the same term too, from the moment of the commit on. */
  lemma {:induction false} LeaderIsCurrent(run: seq<System>, j: nat, k: nat, u: NodeId, v: NodeId, t: Term)
    requires IsRun(run) && j <= k < |run|
    requires IsUp(run[j], u) && Leads(run[k], v, t) && NodeAt(run[j], u).term <= t
    ensures Committed(run[j], u) <= NodeAt(run[k], v).log
  {
    var hs := RunWitnessed(run);
    assert SystemOk(run[j], hs[j]) && SystemOk(run[k], hs[k]);
    HoldsCommitted(run[j], hs[j], u);
    assert GrowsFrom(run[j], hs[j], run[k], hs[k]);
    var p, t0 := Committed(run[j], u), NodeAt(run[j], u).term;
    SettledGrows(hs[j], hs[k], t0, t0, p, p);
    LeaderHasSettled(run[k], hs[k], v, p, t0);
  }

  lemma LeaderHasSettled(s: System, h: History, v: NodeId, p: seq<Entry>, t: Term)
    requires SystemOk(s, h) && IsUp(s, v) && NodeAt(s, v).role == Leader
    requires Settled(h, t, p) && t <= NodeAt(s, v).term
    ensures p <= NodeAt(s, v).log
  {
    assert ServerAt(s, h, v);
    LeaderLog(DurableOf(s, h), v, NodeAt(s, v));
    SettledInLedger(DurableOf(s, h), t, p, NodeAt(s, v).term);
  }

  /** State-machine safety: all prefixes ever committed, anywhere and at any time, are prefixes of
      one growing sequence. */
  lemma {:induction false} CommittedAgree(run: seq<System>, j: nat, k: nat, u: NodeId, v: NodeId)
    requires IsRun(run) && j < |run| && k < |run| && IsUp(run[j], u) && IsUp(run[k], v)
    ensures Committed(run[j], u) <= Committed(run[k], v) || Committed(run[k], v) <= Committed(run[j], u)
  {
    UpHasDisk(run, j, u);
    UpHasDisk(run, k, v);
    var a := Account(run, j, k, u, v);
    var x, y := NodeAt(run[j], u), NodeAt(run[k], v);
    assert Committed(run[j], u) == x.log[..x.commitIndex] && Committed(run[k], v) == y.log[..y.commitIndex];
    SettledComparable(a, x.term, Committed(run[j], u), y.term, Committed(run[k], v));
  }

  /** Committed entries are never lost: whatever a node once committed stays on its disk, through any
      later truncation, crash (also in the middle of a call) and restart; and its term never goes back. */
  lemma {:induction false} CommittedSurvives(run: seq<System>, j: nat, k: nat, u: NodeId)
    requires IsRun(run) && j <= k < |run| && IsUp(run[j], u)
    ensures u < |run[k].disks| && Committed(run[j], u) <= run[k].disks[u].log
    ensures NodeAt(run[j], u).term <= run[k].disks[u].term
  {
    var hs := RunWitnessed(run);
    assert SystemOk(run[j], hs[j]);
    HoldsCommitted(run[j], hs[j], u);
    assert GrowsFrom(run[j], hs[j], run[k], hs[k]);
    assert Holds(DurableOf(run[k], hs[k]), u, Committed(run[j], u));
  }

  lemma HoldsCommitted(s: System, h: History, u: NodeId)
    requires SystemOk(s, h) && IsUp(s, u)
    ensures Holds(DurableOf(s, h), u, Committed(s, u)) && NodeAt(s, u).term == s.disks[u].term
  {
    assert ServerAt(s, h, u);
    assert Committed(s, u) == NodeAt(s, u).log[..NodeAt(s, u).commitIndex];
  }

  /** A leader never meets an append of its own term from another node: the assertion guarding this
      in the code is unreachable. */
  lemma {:induction false} NoRivalAppend(run: seq<System>, k: nat, i: NodeId, m: Packet)
    requires IsRun(run) && k < |run| && m in run[k].sent && m.message.AppendEntries?
    requires Leads(run[k], i, m.message.term)
    ensures m.from == i
  {
    var hs := RunWitnessed(run);
    assert SystemOk(run[k], hs[k]) && ServerAt(run[k], hs[k], i) && PacketOk(hs[k], m);
  }

  // ---------------------------------------------------------------- single tenure

  lemma LeaderHasReign(s: System, h: History, u: NodeId)
    requires SystemOk(s, h) && IsUp(s, u) && NodeAt(s, u).role == Leader
    ensures NodeAt(s, u).term in h.reigns && h.reigns[NodeAt(s, u).term].node == u
  {
    assert ServerAt(s, h, u);
  }

  lemma NotAgain(s: System, h: History, s': System, u: NodeId, t: Term)
    requires SystemOk(s, h) && IsStep(s, s') && t in h.reigns && !Leads(s, u, t)
    ensures !Leads(s', u, t)
  {
    var act :| Enabled(s, act) && s' == Next(s, act);
    if act.Run? && act.i == u {
      assert ServerAt(s, h, u);
      if act.input.Receive? {
        assert PacketOk(h, Packet(act.input.from, u, act.input.message));
      }
      NewLeaderFresh(DurableOf(s, h), u, s.servers[u].node, act.input);
    }
  }

  /** Single tenure: leadership of a term is one contiguous interval. A node that led term `t` and is
      found not leading it (deposed or crashed) never leads `t` again, not even after a restart. */
  lemma {:induction false} SingleTenure(run: seq<System>, i: nat, j: nat, k: nat, u: NodeId, t: Term)
    requires IsRun(run) && i <= j <= k < |run| && Leads(run[i], u, t) && !Leads(run[j], u, t)
    ensures !Leads(run[k], u, t)
    decreases k - j
  {
    if j < k {
      DeposedStays(run, i, j, u, t);
      SingleTenure(run, i, j + 1, k, u, t);
    }
  }

  lemma {:induction false} DeposedStays(run: seq<System>, i: nat, j: nat, u: NodeId, t: Term)
    requires IsRun(run) && i <= j && j + 1 < |run| && Leads(run[i], u, t) && !Leads(run[j], u, t)
    ensures !Leads(run[j + 1], u, t)
  {
    var hs := RunWitnessed(run);
    assert SystemOk(run[i], hs[i]) && SystemOk(run[j], hs[j]);
    LeaderHasReign(run[i], hs[i], u);
    assert GrowsFrom(run[i], hs[i], run[j], hs[j]);
    assert StepAt(run, j);
    NotAgain(run[j], hs[j], run[j + 1], u, t);
  }

  lemma MatchKeptByStep(s: System, s': System, u: NodeId, t: Term)
    requires IsStep(s, s') && Leads(s, u, t) && Leads(s', u, t)
    ensures MatchKept(NodeAt(s, u), NodeAt(s', u))
  {
    var act :| Enabled(s, act) && s' == Next(s, act);
    if act.Run? && act.i == u {
      StepShape(NodeAt(s, u), act.input);
    }
  }

  /** Throughout a leadership no peer's match index ever goes down. */
  lemma {:induction false} MatchNeverDecreases(run: seq<System>, j: nat, k: nat, u: NodeId, t: Term, p: NodeId)
    requires IsRun(run) && j <= k < |run| && Leads(run[j], u, t) && Leads(run[k], u, t)
    requires p < |NodeAt(run[j], u).matchIndex|
    ensures p < |NodeAt(run[k], u).matchIndex|
    ensures NodeAt(run[j], u).matchIndex[p] <= NodeAt(run[k], u).matchIndex[p]
    decreases k - j
  {
    if j < k {
      if !Leads(run[k - 1], u, t) {
        SingleTenure(run, j, k - 1, k, u, t);
      }
      MatchNeverDecreases(run, j, k - 1, u, t, p);
      assert StepAt(run, k - 1);
      MatchKeptByStep(run[k - 1], run[k], u, t);
    }
  }

  // ---------------------------------------------------------------- replicas

  /** Replica agreement: for any two nodes at any times, the one that committed less is exactly one
      replay of the missing entries behind the other. */
  lemma {:induction false} ReplicasAgree(run: seq<System>, j: nat, k: nat, u: NodeId, v: NodeId)
    requires IsRun(run) && j < |run| && k < |run| && IsUp(run[j], u) && IsUp(run[k], v)
    requires |Committed(run[j], u)| <= |Committed(run[k], v)|
    ensures Kv.Replay(Committed(run[k], v)) ==
            Kv.ApplyEntries(Kv.Replay(Committed(run[j], u)), Committed(run[k], v)[|Committed(run[j], u)|..])
  {
    CommittedAgree(run, j, k, u, v);
    var x, y := Committed(run[j], u), Committed(run[k], v);
    assert x <= y;
    assert y == x + y[|x|..];
    Kv.ApplyConcat(map[], x, y[|x|..]);
  }

  /** Redelivery is absorbed: whatever the commit index did (it can move back), the store a node
      feeds is one replay of `log[applied..high]` away from the replay of all it was ever given, so
      it is right whenever the node has caught up with its high-water mark. */
  lemma {:induction false} StoreIsReplay(run: seq<System>, k: nat, u: NodeId)
    requires IsRun(run) && k < |run| && IsUp(run[k], u)
    ensures var up := run[k].servers[u];
            && Kv.Completes(up.store, up.node.log, up.node.appliedIndex, up.high)
            && (up.node.appliedIndex == up.high ==> up.store == Kv.Replay(up.node.log[..up.high]))
  {
    var hs := RunWitnessed(run);
    assert SystemOk(run[k], hs[k]) && ServerAt(run[k], hs[k], u);
    var up := run[k].servers[u];
    if up.node.appliedIndex == up.high {
      Kv.CaughtUp(up.store, up.node.log, up.high);
    }
  }

  /** So two nodes that have caught up with equally many delivered entries hold equal stores. */
  lemma {:induction false} StoresAgree(run: seq<System>, j: nat, k: nat, u: NodeId, v: NodeId)
    requires IsRun(run) && j < |run| && k < |run| && IsUp(run[j], u) && IsUp(run[k], v)
    requires run[j].servers[u].node.appliedIndex == run[j].servers[u].high
    requires run[k].servers[v].node.appliedIndex == run[k].servers[v].high
    requires run[j].servers[u].high == run[k].servers[v].high
    ensures run[j].servers[u].store == run[k].servers[v].store
  {
    StoreIsReplay(run, j, u);
    StoreIsReplay(run, k, v);
    DeliveredAgree(run, j, k, u, v);
  }

  lemma {:induction false} DeliveredAgree(run: seq<System>, j: nat, k: nat, u: NodeId, v: NodeId)
    requires IsRun(run) && j < |run| && k < |run| && IsUp(run[j], u) && IsUp(run[k], v)
    ensures run[j].servers[u].high <= |NodeAt(run[j], u).log| && run[k].servers[v].high <= |NodeAt(run[k], v).log|
    ensures run[j].servers[u].high == run[k].servers[v].high ==>
              NodeAt(run[j], u).log[..run[j].servers[u].high] == NodeAt(run[k], v).log[..run[k].servers[v].high]
  {
    UpHasDisk(run, j, u);
    UpHasDisk(run, k, v);
    var a := Account(run, j, k, u, v);
    var x, y := run[j].servers[u], run[k].servers[v];
    SettledComparable(a, x.node.term, x.node.log[..x.high], y.node.term, y.node.log[..y.high]);
  }
}
