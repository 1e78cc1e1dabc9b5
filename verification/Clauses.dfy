/** What the two clauses with a memory decide, for any nodes and any memory at all: exactly when each of them
    fires, that what it then reports is so, and exactly what it remembers when it does not. */
module Clauses {
  import opened Types
  import opened NodeSpec
  import opened Checker

  // ---------------------------------------------------------------- terms and leaders

  ghost predicate LiveLeader(nodes: Nodes, i: NodeId, t: Term) {
    i < |nodes| && nodes[i].Some? && nodes[i].value.role == Leader && nodes[i].value.term == t
  }

  ghost predicate Remembered(w: Watch, i: NodeId, t: Term) {
    t in w.leaders && w.leaders[t] == i
  }

  /** Live node `i` is in an earlier term than it was seen in. */
  ghost predicate WentBack(w: Watch, nodes: Nodes, i: NodeId) {
    i < |nodes| && i < |w.terms| && nodes[i].Some? && nodes[i].value.term < w.terms[i]
  }

  /** Live node `i` leads a term that another node leads, too, or is remembered to have led. */
  ghost predicate Rivals(w: Watch, nodes: Nodes, i: NodeId, j: NodeId, t: Term) {
    i != j && LiveLeader(nodes, i, t) && (LiveLeader(nodes, j, t) || Remembered(w, j, t))
  }

  /** There is something for the first clause to report. */
  ghost predicate TermTrouble(w: Watch, nodes: Nodes) {
    (exists i: NodeId :: WentBack(w, nodes, i)) || (exists i: NodeId, j: NodeId, t: Term :: Rivals(w, nodes, i, j, t))
  }

  ghost predicate TermReport(w: Watch, nodes: Nodes, v: Violation) {
    match v
    case TermWentBack(i) => WentBack(w, nodes, i)
    case TwoLeaders(i, j) => exists t: Term :: Rivals(w, nodes, i, j, t)
    case _ => false
  }

  /** The memory with every live node's term, every live leader, and nothing else changed. */
  ghost predicate TermsTaken(w: Watch, nodes: Nodes, w': Watch) {
    && w'.committed == w.committed && w'.commits == w.commits && |w'.terms| == |w.terms|
    && (forall i :: 0 <= i < |w.terms| ==>
          w'.terms[i] == if i < |nodes| && nodes[i].Some? then nodes[i].value.term else w.terms[i])
    && (forall i: NodeId, t: Term :: Remembered(w', i, t) <==> Remembered(w, i, t) || LiveLeader(nodes, i, t))
  }

  lemma LeaderAmong(nodes: Nodes, x: Option<NodeState>, i: NodeId, t: Term)
    ensures LiveLeader(nodes + [x], i, t) <==>
              LiveLeader(nodes, i, t) || (i == |nodes| && x.Some? && x.value.role == Leader && x.value.term == t)
  {
  }

  lemma TroubleStays(w: Watch, nodes: Nodes, x: Option<NodeState>)
    requires TermTrouble(w, nodes)
    ensures TermTrouble(w, nodes + [x])
  {
    if i: NodeId :| WentBack(w, nodes, i) {
      assert WentBack(w, nodes + [x], i);
    } else {
      var i: NodeId, j: NodeId, t: Term :| Rivals(w, nodes, i, j, t);
      LeaderAmong(nodes, x, i, t);
      LeaderAmong(nodes, x, j, t);
      assert Rivals(w, nodes + [x], i, j, t);
    }
  }

  ghost function Look(w: Watch, i: NodeId, x: Option<NodeState>): Result<Watch, Violation>
    requires i < |w.terms|
  {
    if x.None? then Success(w) else SeeTerm(w, i, x.value)
  }

  /** A node that makes the clause fire is trouble. */
  lemma LookReports(w: Watch, nodes: Nodes, w1: Watch, x: Option<NodeState>)
    requires |nodes| < |w.terms| && TermsTaken(w, nodes, w1) && Look(w1, |nodes|, x).Failure?
    ensures TermReport(w, nodes + [x], Look(w1, |nodes|, x).error) && TermTrouble(w, nodes + [x])
  {
    var i, all := |nodes|, nodes + [x];
    if x.value.term < w1.terms[i] {
      assert WentBack(w, all, i);
    } else {
      var t := x.value.term;
      var j := w1.leaders[t];
      assert Remembered(w1, j, t);
      LeaderAmong(nodes, x, i, t);
      LeaderAmong(nodes, x, j, t);
      assert Rivals(w, all, i, j, t);
    }
  }

  /** A node that does not is no trouble, if there was none before it. */
  lemma LookPasses(w: Watch, nodes: Nodes, w1: Watch, x: Option<NodeState>)
    requires |nodes| < |w.terms| && TermsTaken(w, nodes, w1) && Look(w1, |nodes|, x).Success?
    requires !TermTrouble(w, nodes)
    ensures !TermTrouble(w, nodes + [x])
  {
    var all := nodes + [x];
    forall i: NodeId ensures !WentBack(w, all, i) {
      assert !WentBack(w, nodes, i);
    }
    forall i: NodeId, j: NodeId, t: Term ensures !Rivals(w, all, i, j, t) {
      LeaderAmong(nodes, x, i, t);
      LeaderAmong(nodes, x, j, t);
      assert !Rivals(w, nodes, i, j, t);
      assert !Rivals(w, nodes, j, i, t);
    }
  }

  lemma LookTakes(w: Watch, nodes: Nodes, w1: Watch, x: Option<NodeState>)
    requires |nodes| < |w.terms| && TermsTaken(w, nodes, w1) && Look(w1, |nodes|, x).Success?
    ensures TermsTaken(w, nodes + [x], Look(w1, |nodes|, x).value)
  {
    var w' := Look(w1, |nodes|, x).value;
    forall i: NodeId, t: Term
      ensures Remembered(w', i, t) <==> Remembered(w, i, t) || LiveLeader(nodes + [x], i, t)
    {
      LeaderAmong(nodes, x, i, t);
      assert Remembered(w1, i, t) <==> Remembered(w, i, t) || LiveLeader(nodes, i, t);
    }
  }

  /** The first clause, for any nodes and any memory: it fires if and only if a live node is below the term it
      was seen in, or a live leader's term is led or was led by another node; the report then names such a
      node. When it does not fire, every live node's term and every live leader is remembered, everything
      remembered before of leaders is still, and the rest of the memory is untouched. */
  lemma {:induction false} TermsExactly(w: Watch, nodes: Nodes, k: nat)
    requires Sized(Success(w), |nodes|) && k <= |nodes|
    ensures TermsSeen(w, nodes, k).Failure? <==> TermTrouble(w, nodes[..k])
    ensures TermsSeen(w, nodes, k).Failure? ==> TermReport(w, nodes[..k], TermsSeen(w, nodes, k).error)
    ensures TermsSeen(w, nodes, k).Success? ==> TermsTaken(w, nodes[..k], TermsSeen(w, nodes, k).value)
  {
    if k > 0 {
      TermsExactly(w, nodes, k - 1);
      var front, x := nodes[..k - 1], nodes[k - 1];
      assert nodes[..k] == front + [x];
      var r := TermsSeen(w, nodes, k - 1);
      if r.Failure? {
        TroubleStays(w, front, x);
        ReportStays(w, front, x, r.error);
      } else {
        assert TermsSeen(w, nodes, k) == Look(r.value, k - 1, x);
        if Look(r.value, k - 1, x).Failure? {
          LookReports(w, front, r.value, x);
        } else {
          LookPasses(w, front, r.value, x);
          LookTakes(w, front, r.value, x);
        }
      }
    }
  }

  lemma ReportStays(w: Watch, nodes: Nodes, x: Option<NodeState>, v: Violation)
    requires TermReport(w, nodes, v)
    ensures TermReport(w, nodes + [x], v)
  {
    if v.TwoLeaders? {
      var t: Term :| Rivals(w, nodes, v.node, v.other, t);
      LeaderAmong(nodes, x, v.node, t);
      LeaderAmong(nodes, x, v.other, t);
      assert Rivals(w, nodes + [x], v.node, v.other, t);
    }
  }

  // ---------------------------------------------------------------- committed entries

  ghost predicate BeyondLog(nodes: Nodes, i: NodeId) {
    i < |nodes| && nodes[i].Some? && nodes[i].value.commitIndex > |nodes[i].value.log|
  }

  /** Two sequences in view that are not on one line. */
  ghost predicate Forked(record: seq<Entry>, nodes: Nodes, p: seq<Entry>, q: seq<Entry>) {
    InView(record, nodes, p) && InView(record, nodes, q) && !(p <= q) && !(q <= p)
  }

  /** There is something for the second clause to report. */
  ghost predicate CommitTrouble(record: seq<Entry>, nodes: Nodes) {
    (exists i: NodeId :: BeyondLog(nodes, i)) || (exists p, q :: Forked(record, nodes, p, q))
  }

  /** Node `i` has committed `p`, and the entry at `index` differs from that of a sequence in view. */
  ghost predicate DiffersAt(record: seq<Entry>, nodes: Nodes, i: NodeId, index: Index, p: seq<Entry>, q: seq<Entry>) {
    && IsCommitted(nodes, i, p) && InView(record, nodes, q)
    && 0 < index <= |p| && index <= |q| && p[index - 1] != q[index - 1]
  }

  ghost predicate CommitReport(record: seq<Entry>, nodes: Nodes, v: Violation) {
    match v
    case CommitBeyondLog(i) => BeyondLog(nodes, i)
    case DifferentCommit(i, index) => exists p, q :: DiffersAt(record, nodes, i, index, p, q)
    case _ => false
  }

  /** The memory with the longest sequence in view as the record, each live node's mark raised to its commit
      index, and nothing else changed. */
  ghost predicate CommitsTaken(w: Watch, nodes: Nodes, w': Watch) {
    && w'.leaders == w.leaders && w'.terms == w.terms && |w'.commits| == |w.commits|
    && InView(w.committed, nodes, w'.committed)
    && (forall p :: InView(w.committed, nodes, p) ==> p <= w'.committed)
    && forall i :: 0 <= i < |w.commits| ==>
         w'.commits[i] == if i < |nodes| && nodes[i].Some? && nodes[i].value.commitIndex > w.commits[i]
                          then nodes[i].value.commitIndex else w.commits[i]
  }

  lemma ViewAmong(record: seq<Entry>, nodes: Nodes, x: Option<NodeState>, p: seq<Entry>)
    ensures InView(record, nodes + [x], p) <==>
              || InView(record, nodes, p)
              || (x.Some? && x.value.commitIndex <= |x.value.log| && p == x.value.log[..x.value.commitIndex])
  {
    var all := nodes + [x];
    if i :| IsCommitted(nodes, i, p) {
      assert IsCommitted(all, i, p);
    }
    if i :| IsCommitted(all, i, p) {
      assert i < |nodes| ==> IsCommitted(nodes, i, p);
    }
    if x.Some? && x.value.commitIndex <= |x.value.log| && p == x.value.log[..x.value.commitIndex] {
      assert IsCommitted(all, |nodes|, p);
    }
  }

  ghost function LookCommit(w: Watch, i: NodeId, x: Option<NodeState>): Result<Watch, Violation>
    requires i < |w.commits|
  {
    if x.None? then Success(w) else SeeCommit(w, i, x.value)
  }

  /** Where two committed prefixes part, `Absorb` says so. */
  lemma {:induction false} AbsorbFails(seen: seq<Entry>, p: seq<Entry>)
    requires Absorb(seen, p).Failure?
    ensures var k := Absorb(seen, p).error; 0 < k <= |p| && k <= |seen| && p[k - 1] != seen[k - 1]
  {
    var front := p[..|p| - 1];
    AbsorbMeans(seen, front);
    if Absorb(seen, front).Failure? {
      AbsorbFails(seen, front);
    }
  }

  lemma CommitTroubleStays(record: seq<Entry>, nodes: Nodes, x: Option<NodeState>)
    requires CommitTrouble(record, nodes)
    ensures CommitTrouble(record, nodes + [x])
  {
    if i: NodeId :| BeyondLog(nodes, i) {
      assert BeyondLog(nodes + [x], i);
    } else {
      var p, q :| Forked(record, nodes, p, q);
      ViewAmong(record, nodes, x, p);
      ViewAmong(record, nodes, x, q);
      assert Forked(record, nodes + [x], p, q);
    }
  }

  lemma CommitReportStays(record: seq<Entry>, nodes: Nodes, x: Option<NodeState>, v: Violation)
    requires CommitReport(record, nodes, v)
    ensures CommitReport(record, nodes + [x], v)
  {
    if v.DifferentCommit? {
      var p, q :| DiffersAt(record, nodes, v.node, v.index, p, q);
      ViewAmong(record, nodes, x, q);
      assert DiffersAt(record, nodes + [x], v.node, v.index, p, q);
    }
  }

  lemma LookCommitReports(w: Watch, nodes: Nodes, w1: Watch, x: Option<NodeState>)
    requires |nodes| < |w.commits| && CommitsTaken(w, nodes, w1) && LookCommit(w1, |nodes|, x).Failure?
    ensures CommitReport(w.committed, nodes + [x], LookCommit(w1, |nodes|, x).error)
    ensures CommitTrouble(w.committed, nodes + [x])
  {
    var all := nodes + [x];
    if x.value.commitIndex > |x.value.log| {
      assert BeyondLog(all, |nodes|);
    } else {
      var p, q := x.value.log[..x.value.commitIndex], w1.committed;
      ViewAmong(w.committed, nodes, x, p);
      ViewAmong(w.committed, nodes, x, q);
      AbsorbFails(q, p);
      AbsorbMeans(q, p);
      assert Forked(w.committed, all, p, q);
      assert DiffersAt(w.committed, all, |nodes|, Absorb(q, p).error, p, q);
    }
  }

  lemma LookCommitPasses(w: Watch, nodes: Nodes, w1: Watch, x: Option<NodeState>)
    requires |nodes| < |w.commits| && CommitsTaken(w, nodes, w1) && LookCommit(w1, |nodes|, x).Success?
    requires forall i: NodeId :: !BeyondLog(nodes, i)
    ensures !CommitTrouble(w.committed, nodes + [x])
    ensures CommitsTaken(w, nodes + [x], LookCommit(w1, |nodes|, x).value)
  {
    var all, w' := nodes + [x], LookCommit(w1, |nodes|, x).value;
    if x.Some? {
      AbsorbMeans(w1.committed, x.value.log[..x.value.commitIndex]);
    }
    ViewAmong(w.committed, nodes, x, w'.committed);
    forall p | InView(w.committed, all, p) ensures p <= w'.committed {
      ViewAmong(w.committed, nodes, x, p);
      assert InView(w.committed, nodes, p) ==> p <= w1.committed;
    }
    forall i: NodeId ensures !BeyondLog(all, i) {
      assert !BeyondLog(nodes, i);
    }
    forall p, q ensures !Forked(w.committed, all, p, q) {
      if InView(w.committed, all, p) && InView(w.committed, all, q) {
        OnLine(p, q, w'.committed);
      }
    }
  }

  lemma OnLine<T>(p: seq<T>, q: seq<T>, whole: seq<T>)
    requires p <= whole && q <= whole
    ensures p <= q || q <= p
  {
  }

  /** The second clause, for any nodes and any memory: it fires if and only if a live node's commit index is
      beyond its log, or two of the sequences in view are not on one line; the report then names such a node
      and the index. When it does not fire, the record is the longest sequence in view, the mark of every live
      node is raised to its commit index and never lowered, and the rest of the memory is untouched. */
  lemma {:induction false} CommitsExactly(w: Watch, nodes: Nodes, k: nat)
    requires Sized(Success(w), |nodes|) && k <= |nodes|
    ensures CommitsSeen(w, nodes, k).Failure? <==> CommitTrouble(w.committed, nodes[..k])
    ensures CommitsSeen(w, nodes, k).Failure? ==>
              CommitReport(w.committed, nodes[..k], CommitsSeen(w, nodes, k).error)
    ensures CommitsSeen(w, nodes, k).Success? ==> CommitsTaken(w, nodes[..k], CommitsSeen(w, nodes, k).value)
  {
    if k > 0 {
      CommitsExactly(w, nodes, k - 1);
      var front, x := nodes[..k - 1], nodes[k - 1];
      assert nodes[..k] == front + [x];
      var r := CommitsSeen(w, nodes, k - 1);
      if r.Failure? {
        CommitTroubleStays(w.committed, front, x);
        CommitReportStays(w.committed, front, x, r.error);
      } else {
        assert CommitsSeen(w, nodes, k) == LookCommit(r.value, k - 1, x);
        if LookCommit(r.value, k - 1, x).Failure? {
          LookCommitReports(w, front, r.value, x);
        } else {
          LookCommitPasses(w, front, r.value, x);
        }
      }
    }
  }
}
