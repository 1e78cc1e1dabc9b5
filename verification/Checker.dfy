/** The simulator's executable specification of safety, as functions of what it has seen, and what it
    is worth: on a run of the cluster all its clauses but one can never fire, and that one fires only
    for a leader that has been overtaken. */
module Checker {
  import opened Types
  import opened NodeSpec
  import opened Cluster
  import opened Safety
  import opened Origins

  datatype Violation =
    | TermWentBack(node: NodeId)
    | TwoLeaders(node: NodeId, other: NodeId)
    | CommitBeyondLog(node: NodeId)
    | DifferentCommit(node: NodeId, index: Index)
    | LeaderLacks(node: NodeId, index: Index)
    | LogsDiffer(node: NodeId, other: NodeId, index: Index)
    | LostAcrossCrash(node: NodeId)

  /** The checker's memory. */
  datatype Watch = Watch(leaders: map<Term, NodeId>, committed: seq<Entry>, commits: seq<Index>, terms: seq<Term>)

  type Nodes = seq<Option<NodeState>>

  // ---------------------------------------------------------------- the clauses

  /** Terms never go backwards, and a term has one leader. */
  function SeeTerm(w: Watch, i: NodeId, nd: NodeState): (r: Result<Watch, Violation>)
    requires i < |w.terms|
    ensures r.Success? ==> |r.value.terms| == |w.terms| && |r.value.commits| == |w.commits|
  {
    if nd.term < w.terms[i] then Failure(TermWentBack(i))
    else
      var w' := w.(terms := w.terms[i := nd.term]);
      if nd.role != Leader then Success(w')
      else if nd.term in w.leaders && w.leaders[nd.term] != i then Failure(TwoLeaders(i, w.leaders[nd.term]))
      else if nd.term in w.leaders then Success(w')
      else Success(w'.(leaders := w.leaders[nd.term := i]))
  }

  /** The committed entries of one node, held against all those seen: compared where both have an
      entry, and adopted beyond. A failure names the index that differs. */
  function Absorb(seen: seq<Entry>, p: seq<Entry>): (r: Result<seq<Entry>, Index>)
  {
    if p == [] then Success(seen)
    else
      var k := |p| - 1;
      var c :- Absorb(seen, p[..k]);
      if k >= |c| then Success(c + [p[k]])
      else if c[k] == p[k] then Success(c)
      else Failure(k + 1)
  }

  /** It accepts exactly the prefixes that are on one line with what was seen, and keeps the longer. */
  lemma {:induction false} AbsorbMeans(seen: seq<Entry>, p: seq<Entry>)
    ensures Absorb(seen, p).Success? <==> p <= seen || seen <= p
    ensures Absorb(seen, p).Success? ==> Absorb(seen, p).value == if |p| <= |seen| then seen else p
  {
    if p != [] {
      var k := |p| - 1;
      AbsorbMeans(seen, p[..k]);
      assert p == p[..k] + [p[k]];
    }
  }

  function SeeCommit(w: Watch, i: NodeId, nd: NodeState): (r: Result<Watch, Violation>)
    requires i < |w.commits|
    ensures r.Success? ==> |r.value.terms| == |w.terms| && |r.value.commits| == |w.commits|
  {
    if nd.commitIndex > |nd.log| then Failure(CommitBeyondLog(i))
    else
      match Absorb(w.committed, nd.log[..nd.commitIndex])
      case Failure(k) => Failure(DifferentCommit(i, k))
      case Success(c) => Success(w.(committed := c, commits := w.commits[i := Max(w.commits[i], nd.commitIndex)]))
  }

  predicate Sized(r: Result<Watch, Violation>, n: nat) {
    r.Success? ==> |r.value.terms| == |r.value.commits| == n
  }

  /** One more node is looked at, unless it is down or a violation was found before it. */
  function ThenTerm(r: Result<Watch, Violation>, nodes: Nodes, u: NodeId): (r': Result<Watch, Violation>)
    requires Sized(r, |nodes|) && u < |nodes|
    ensures Sized(r', |nodes|)
  {
    if r.Failure? || nodes[u].None? then r else SeeTerm(r.value, u, nodes[u].value)
  }

  function ThenCommit(r: Result<Watch, Violation>, nodes: Nodes, u: NodeId): (r': Result<Watch, Violation>)
    requires Sized(r, |nodes|) && u < |nodes|
    ensures Sized(r', |nodes|)
  {
    if r.Failure? || nodes[u].None? then r else SeeCommit(r.value, u, nodes[u].value)
  }

  function TermsSeen(w: Watch, nodes: Nodes, k: nat): (r: Result<Watch, Violation>)
    requires Sized(Success(w), |nodes|) && k <= |nodes|
    ensures Sized(r, |nodes|)
  {
    if k == 0 then Success(w) else ThenTerm(TermsSeen(w, nodes, k - 1), nodes, k - 1)
  }

  function CommitsSeen(w: Watch, nodes: Nodes, k: nat): (r: Result<Watch, Violation>)
    requires Sized(Success(w), |nodes|) && k <= |nodes|
    ensures Sized(r, |nodes|)
  {
    if k == 0 then Success(w) else ThenCommit(CommitsSeen(w, nodes, k - 1), nodes, k - 1)
  }

  ghost predicate CommitsInside(nodes: Nodes, k: nat, committed: seq<Entry>)
    requires k <= |nodes|
  {
    forall i :: 0 <= i < k && nodes[i].Some? ==>
      && nodes[i].value.commitIndex <= |nodes[i].value.log|
      && nodes[i].value.log[..nodes[i].value.commitIndex] <= committed
  }

  /** The record of committed entries only ever grows, and covers every node looked at. */
  lemma {:induction false} CommitsRecorded(w: Watch, nodes: Nodes, k: nat)
    requires Sized(Success(w), |nodes|) && k <= |nodes| && CommitsSeen(w, nodes, k).Success?
    ensures w.committed <= CommitsSeen(w, nodes, k).value.committed
    ensures CommitsInside(nodes, k, CommitsSeen(w, nodes, k).value.committed)
  {
    if k > 0 {
      CommitsRecorded(w, nodes, k - 1);
      if nodes[k - 1].Some? {
        var nd := nodes[k - 1].value;
        AbsorbMeans(CommitsSeen(w, nodes, k - 1).value.committed, nd.log[..nd.commitIndex]);
      }
    }
  }

  /** The committed entries up to position `i` are all of terms before `t`. */
  ghost predicate AllBefore(committed: seq<Entry>, i: nat, t: Term)
    requires i < |committed|
  {
    forall j :: 0 <= j <= i ==> committed[j].term < t
  }

  ghost predicate HasEntry(log: seq<Entry>, i: nat, e: Entry) {
    i < |log| && log[i] == e
  }

  /** A leader holds the committed entries of terms before its own; the scan stops at the first
      committed entry of its term or a later one. */
  ghost predicate Complete(nd: NodeState, committed: seq<Entry>) {
    forall i: nat {:trigger HasEntry(nd.log, i, committed[i])} ::
      i < |committed| && AllBefore(committed, i, nd.term) ==> HasEntry(nd.log, i, committed[i])
  }

  /** The position at which the clause fires. */
  ghost predicate Lacks(nd: NodeState, committed: seq<Entry>, i: nat) {
    i < |committed| && AllBefore(committed, i, nd.term) && !HasEntry(nd.log, i, committed[i])
  }

  ghost predicate Matching(x: seq<Entry>, y: seq<Entry>) {
    forall i :: 0 <= i < |x| && i < |y| && x[i].term == y[i].term ==> x[..i + 1] == y[..i + 1]
  }

  /** The highest position below `m` where two logs agree on the term. */
  function TopMatch(x: seq<Entry>, y: seq<Entry>, m: nat): (r: Option<nat>)
    requires m <= |x| && m <= |y|
    ensures r.Some? ==> r.value < m
  {
    if m == 0 then None
    else if x[m - 1].term == y[m - 1].term then Some(m - 1)
    else TopMatch(x, y, m - 1)
  }

  ghost predicate TopAgrees(x: seq<Entry>, y: seq<Entry>) {
    var top := TopMatch(x, y, Min(|x|, |y|));
    top.Some? ==> x[..top.value + 1] == y[..top.value + 1]
  }

  lemma {:induction false} TopIsHighest(x: seq<Entry>, y: seq<Entry>, m: nat, i: nat)
    requires m <= |x| && m <= |y| && i < m && x[i].term == y[i].term
    ensures TopMatch(x, y, m).Some? && TopMatch(x, y, m).value >= i
  {
    if x[m - 1].term != y[m - 1].term {
      TopIsHighest(x, y, m - 1, i);
    }
  }

  lemma {:induction false} TopTerms(x: seq<Entry>, y: seq<Entry>, m: nat)
    requires m <= |x| && m <= |y| && TopMatch(x, y, m).Some?
    ensures x[TopMatch(x, y, m).value].term == y[TopMatch(x, y, m).value].term
  {
    if x[m - 1].term != y[m - 1].term {
      TopTerms(x, y, m - 1);
    }
  }

  /** Testing only the highest index with equal terms is testing log matching at every index. */
  lemma HighestSuffices(x: seq<Entry>, y: seq<Entry>)
    ensures TopAgrees(x, y) <==> Matching(x, y)
  {
    var m := Min(|x|, |y|);
    if TopAgrees(x, y) {
      forall i | 0 <= i < |x| && i < |y| && x[i].term == y[i].term ensures x[..i + 1] == y[..i + 1] {
        TopIsHighest(x, y, m, i);
        var top := TopMatch(x, y, m).value;
        assert x[..i + 1] == x[..top + 1][..i + 1] && y[..i + 1] == y[..top + 1][..i + 1];
      }
    }
    if Matching(x, y) && TopMatch(x, y, m).Some? {
      TopTerms(x, y, m);
    }
  }

  // ---------------------------------------------------------------- the whole audit

  ghost predicate Differ(nodes: Nodes, a: NodeId, b: NodeId, i: Index) {
    && a < b < |nodes| && nodes[a].Some? && nodes[b].Some?
    && 0 < i <= |nodes[a].value.log| && i <= |nodes[b].value.log|
    && nodes[a].value.log[i - 1].term == nodes[b].value.log[i - 1].term
    && nodes[a].value.log[..i] != nodes[b].value.log[..i]
  }

  ghost predicate AllComplete(nodes: Nodes, committed: seq<Entry>) {
    forall i :: 0 <= i < |nodes| && nodes[i].Some? && nodes[i].value.role == Leader ==>
      Complete(nodes[i].value, committed)
  }

  ghost predicate AllMatching(nodes: Nodes) {
    forall a, b :: 0 <= a < b < |nodes| && nodes[a].Some? && nodes[b].Some? ==>
      Matching(nodes[a].value.log, nodes[b].value.log)
  }

  /** The outcome of one audit: `w'` is the checker's memory afterwards (when the first two clauses
      pass) and `v` what it reports. */
  ghost predicate Audited(w: Watch, nodes: Nodes, w': Watch, v: Option<Violation>)
    requires Sized(Success(w), |nodes|)
  {
    match TermsSeen(w, nodes, |nodes|)
    case Failure(e) => v == Some(e)
    case Success(w1) =>
      match CommitsSeen(w1, nodes, |nodes|)
      case Failure(e) => v == Some(e)
      case Success(w2) => w' == w2 && LogsAudited(nodes, w2.committed, v)
  }

  ghost predicate LogsAudited(nodes: Nodes, committed: seq<Entry>, v: Option<Violation>) {
    match v
    case None => AllComplete(nodes, committed) && AllMatching(nodes)
    case Some(LeaderLacks(i, k)) =>
      k > 0 && i < |nodes| && nodes[i].Some? && nodes[i].value.role == Leader && Lacks(nodes[i].value, committed, k - 1)
    case Some(LogsDiffer(a, b, i)) => Differ(nodes, a, b, i)
    case Some(_) => false
  }

  // ---------------------------------------------------------------- what the memory stands for

  ghost predicate LeaderSeen(run: seq<System>, t: Term, u: NodeId) {
    exists k: nat :: k < |run| && Leads(run[k], u, t)
  }

  ghost predicate CommittedSeen(run: seq<System>, p: seq<Entry>) {
    p == [] || exists k: nat, u: NodeId :: k < |run| && IsUp(run[k], u) && p == Committed(run[k], u)
  }

  ghost predicate TermSeen(run: seq<System>, u: NodeId, t: Term) {
    t == 0 || exists k: nat :: k < |run| && IsUp(run[k], u) && NodeAt(run[k], u).term == t
  }

  ghost predicate CommitSeen(run: seq<System>, u: NodeId, c: Index) {
    c == 0 || exists k: nat :: k < |run| && IsUp(run[k], u) && NodeAt(run[k], u).commitIndex == c
  }

  /** Everything the checker remembers was really there in some state of the run. */
  ghost predicate Seen(run: seq<System>, w: Watch, n: nat) {
    && |w.terms| == |w.commits| == n
    && (forall t :: t in w.leaders ==> LeaderSeen(run, t, w.leaders[t]))
    && CommittedSeen(run, w.committed)
    && (forall i: NodeId :: i < n ==> TermSeen(run, i, w.terms[i]))
    && (forall i: NodeId :: i < n ==> CommitSeen(run, i, w.commits[i]) && w.commits[i] <= |w.committed|)
  }

  lemma SeenFromStart(run: seq<System>, n: nat)
    ensures Seen(run, Watch(map[], [], Filled(n, 0), Filled(n, 0)), n)
  {
  }

  lemma LeaderSeenLonger(run: seq<System>, s: System, t: Term, u: NodeId)
    requires LeaderSeen(run, t, u)
    ensures LeaderSeen(run + [s], t, u)
  {
    var k: nat :| k < |run| && Leads(run[k], u, t);
    assert Leads((run + [s])[k], u, t);
  }

  lemma CommittedSeenLonger(run: seq<System>, s: System, p: seq<Entry>)
    requires CommittedSeen(run, p)
    ensures CommittedSeen(run + [s], p)
  {
    if p != [] {
      var k: nat, u: NodeId :| k < |run| && IsUp(run[k], u) && p == Committed(run[k], u);
      assert (run + [s])[k] == run[k];
    }
  }

  lemma TermSeenLonger(run: seq<System>, s: System, u: NodeId, t: Term)
    requires TermSeen(run, u, t)
    ensures TermSeen(run + [s], u, t)
  {
    if t != 0 {
      var k: nat :| k < |run| && IsUp(run[k], u) && NodeAt(run[k], u).term == t;
      assert (run + [s])[k] == run[k];
    }
  }

  lemma CommitSeenLonger(run: seq<System>, s: System, u: NodeId, c: Index)
    requires CommitSeen(run, u, c)
    ensures CommitSeen(run + [s], u, c)
  {
    if c != 0 {
      var k: nat :| k < |run| && IsUp(run[k], u) && NodeAt(run[k], u).commitIndex == c;
      assert (run + [s])[k] == run[k];
    }
  }

  lemma SeenLonger(run: seq<System>, s: System, w: Watch, n: nat)
    requires Seen(run, w, n)
    ensures Seen(run + [s], w, n)
  {
    forall t | t in w.leaders ensures LeaderSeen(run + [s], t, w.leaders[t]) {
      LeaderSeenLonger(run, s, t, w.leaders[t]);
    }
    CommittedSeenLonger(run, s, w.committed);
    forall i: NodeId | i < n ensures TermSeen(run + [s], i, w.terms[i]) {
      TermSeenLonger(run, s, i, w.terms[i]);
    }
    forall i: NodeId | i < n ensures CommitSeen(run + [s], i, w.commits[i]) {
      CommitSeenLonger(run, s, i, w.commits[i]);
    }
  }

  // ---------------------------------------------------------------- no clause but one can fire

  /** `nodes` are the live nodes of state `s`. */
  ghost predicate NodesOf(s: System, nodes: Nodes) {
    && |s.servers| == |nodes|
    && forall i :: 0 <= i < |nodes| ==>
         (nodes[i].Some? <==> s.servers[i].Up?) && (nodes[i].Some? ==> nodes[i].value == s.servers[i].node)
  }

  lemma {:induction false} TermNotBack(run: seq<System>, u: NodeId, t: Term)
    requires IsRun(run) && IsUp(Last(run), u) && TermSeen(run, u, t)
    ensures t <= NodeAt(Last(run), u).term
  {
    if t != 0 {
      var k: nat :| k < |run| && IsUp(run[k], u) && NodeAt(run[k], u).term == t;
      CommittedSurvives(run, k, |run| - 1, u);
      NothingOutOfRange(run, |run| - 1, u);
    }
  }

  lemma {:induction false} OneLeader(run: seq<System>, u: NodeId, t: Term, v: NodeId)
    requires IsRun(run) && Leads(Last(run), u, t) && LeaderSeen(run, t, v)
    ensures u == v
  {
    var k: nat :| k < |run| && Leads(run[k], v, t);
    ElectionSafety(run, k, |run| - 1, v, u, t);
  }

  /** A clause passed, and what the checker remembers then is still from the run. */
  ghost predicate Passed(run: seq<System>, r: Result<Watch, Violation>, n: nat) {
    exists w :: r == Success(w) && Seen(run, w, n)
  }

  lemma {:induction false} SeeTermPasses(run: seq<System>, w: Watch, n: nat, u: NodeId)
    requires IsRun(run) && Seen(run, w, n) && u < n && IsUp(Last(run), u)
    ensures Passed(run, SeeTerm(w, u, NodeAt(Last(run), u)), n)
  {
    var nd := NodeAt(Last(run), u);
    TermNotBack(run, u, w.terms[u]);
    if nd.role == Leader {
      assert Leads(Last(run), u, nd.term);
      if nd.term in w.leaders {
        OneLeader(run, u, nd.term, w.leaders[nd.term]);
      }
      assert LeaderSeen(run, nd.term, u);
    }
    assert TermSeen(run, u, nd.term);
    assert Seen(run, SeeTerm(w, u, nd).value, n);
  }

  lemma {:induction false} OnOneLine(run: seq<System>, seen: seq<Entry>, u: NodeId)
    requires IsRun(run) && CommittedSeen(run, seen) && IsUp(Last(run), u)
    ensures Committed(Last(run), u) <= seen || seen <= Committed(Last(run), u)
  {
    if seen != [] {
      var k: nat, v: NodeId :| k < |run| && IsUp(run[k], v) && seen == Committed(run[k], v);
      CommittedAgree(run, k, |run| - 1, v, u);
    }
  }

  lemma {:induction false} CommittedIs(run: seq<System>, u: NodeId)
    requires IsRun(run) && IsUp(Last(run), u)
    ensures var nd := NodeAt(Last(run), u);
            nd.commitIndex <= |nd.log| && Committed(Last(run), u) == nd.log[..nd.commitIndex]
  {
    NothingOutOfRange(run, |run| - 1, u);
  }

  lemma SeenWithCommit(run: seq<System>, w: Watch, n: nat, u: NodeId, c: seq<Entry>, index: Index)
    requires Seen(run, w, n) && u < n
    requires CommittedSeen(run, c) && |w.committed| <= |c| && CommitSeen(run, u, index) && index <= |c|
    ensures Seen(run, w.(committed := c, commits := w.commits[u := Max(w.commits[u], index)]), n)
  {
  }

  lemma SeeCommitPasses(run: seq<System>, w: Watch, n: nat, u: NodeId)
    requires IsRun(run) && Seen(run, w, n) && u < n && IsUp(Last(run), u)
    ensures Passed(run, SeeCommit(w, u, NodeAt(Last(run), u)), n)
  {
    var p, nd := Committed(Last(run), u), NodeAt(Last(run), u);
    CommittedIs(run, u);
    OnOneLine(run, w.committed, u);
    AbsorbMeans(w.committed, p);
    LastSeen(run, u);
    var c := if |p| <= |w.committed| then w.committed else p;
    SeenWithCommit(run, w, n, u, c, nd.commitIndex);
    assert SeeCommit(w, u, nd)
        == Success(w.(committed := c, commits := w.commits[u := Max(w.commits[u], nd.commitIndex)]));
  }

  lemma LastSeen(run: seq<System>, u: NodeId)
    requires |run| > 0 && IsUp(Last(run), u)
    ensures CommittedSeen(run, Committed(Last(run), u)) && CommitSeen(run, u, NodeAt(Last(run), u).commitIndex)
  {
  }

  /** The first clause passes for one node of the last state. */
  lemma {:induction false} TermsPassOne(run: seq<System>, r: Result<Watch, Violation>, nodes: Nodes, u: NodeId)
    requires IsRun(run) && Passed(run, r, |nodes|) && NodesOf(Last(run), nodes) && u < |nodes|
    ensures Passed(run, ThenTerm(r, nodes, u), |nodes|)
  {
    if nodes[u].Some? {
      var w :| r == Success(w) && Seen(run, w, |nodes|);
      SeeTermPasses(run, w, |nodes|, u);
    }
  }

  ghost predicate TermsSteady(run: seq<System>, nodes: Nodes) {
    forall r, u: NodeId {:trigger ThenTerm(r, nodes, u)} ::
      Sized(r, |nodes|) && u < |nodes| && Passed(run, r, |nodes|) ==> Passed(run, ThenTerm(r, nodes, u), |nodes|)
  }

  lemma {:induction false} TermsPass(run: seq<System>, w: Watch, nodes: Nodes, k: nat)
    requires Passed(run, Success(w), |nodes|) && TermsSteady(run, nodes) && k <= |nodes|
    ensures Passed(run, TermsSeen(w, nodes, k), |nodes|)
  {
    if k > 0 {
      TermsPass(run, w, nodes, k - 1);
    }
  }

  /** And so does the second. */
  lemma {:induction false} CommitsPassOne(run: seq<System>, r: Result<Watch, Violation>, nodes: Nodes, u: NodeId)
    requires IsRun(run) && Passed(run, r, |nodes|) && NodesOf(Last(run), nodes) && u < |nodes|
    ensures Passed(run, ThenCommit(r, nodes, u), |nodes|)
  {
    if nodes[u].Some? {
      var w :| r == Success(w) && Seen(run, w, |nodes|);
      SeeCommitPasses(run, w, |nodes|, u);
    }
  }

  ghost predicate CommitsSteady(run: seq<System>, nodes: Nodes) {
    forall r, u: NodeId {:trigger ThenCommit(r, nodes, u)} ::
      Sized(r, |nodes|) && u < |nodes| && Passed(run, r, |nodes|) ==> Passed(run, ThenCommit(r, nodes, u), |nodes|)
  }

  lemma {:induction false} CommitsPass(run: seq<System>, w: Watch, nodes: Nodes, k: nat)
    requires Passed(run, Success(w), |nodes|) && CommitsSteady(run, nodes) && k <= |nodes|
    ensures Passed(run, CommitsSeen(w, nodes, k), |nodes|)
  {
    if k > 0 {
      CommitsPass(run, w, nodes, k - 1);
    }
  }

  lemma {:induction false} NoneDiffer(run: seq<System>, nodes: Nodes, a: NodeId, b: NodeId, i: Index)
    requires IsRun(run) && NodesOf(Last(run), nodes)
    ensures !Differ(nodes, a, b, i)
  {
    if Differ(nodes, a, b, i) {
      NothingOutOfRange(run, |run| - 1, a);
      NothingOutOfRange(run, |run| - 1, b);
      LogsMatch(run, |run| - 1, |run| - 1, a, b, i - 1);
    }
  }

  /** The leader has been overtaken: some leader of a later term has advanced its commit index. */
  ghost predicate Overtaken(run: seq<System>, t: Term) {
    exists j: nat, u: NodeId :: Advances(run, j, u) && AdvancesInTerm(run, j, u) > t
  }

  lemma {:induction false} LackingIsOvertaken(run: seq<System>, committed: seq<Entry>, u: NodeId, i: nat)
    requires IsRun(run) && CommittedSeen(run, committed) && IsUp(Last(run), u) && NodeAt(Last(run), u).role == Leader
    requires Lacks(NodeAt(Last(run), u), committed, i)
    ensures Overtaken(run, NodeAt(Last(run), u).term)
  {
    var t := NodeAt(Last(run), u).term;
    var k: nat, v: NodeId :| k < |run| && IsUp(run[k], v) && committed == Committed(run[k], v);
    if NoLaterAdvance(run, |run| - 1, t) {
      LeaderHoldsAllCommitted(run, k, |run| - 1, v, u, t);
    }
  }

  /** The report is about a live leader that a leader of a later term has overtaken. */
  ghost predicate Stale(run: seq<System>, nodes: Nodes, v: Violation) {
    && v.LeaderLacks? && v.node < |nodes| && nodes[v.node].Some? && nodes[v.node].value.role == Leader
    && Overtaken(run, nodes[v.node].value.term)
  }

  lemma {:induction false} ReportIsStale(run: seq<System>, committed: seq<Entry>, nodes: Nodes, v: Violation)
    requires IsRun(run) && CommittedSeen(run, committed) && NodesOf(Last(run), nodes)
    requires LogsAudited(nodes, committed, Some(v))
    ensures Stale(run, nodes, v)
  {
    if v.LogsDiffer? {
      NoneDiffer(run, nodes, v.node, v.other, v.index);
    } else {
      LackingIsOvertaken(run, committed, v.node, v.index - 1);
    }
  }

  /** What an audit after any run can report: nothing, or that a leader which some later leader has
      already overtaken lacks a committed entry. */
  lemma {:induction false} AuditOfRun(run: seq<System>, w: Watch, nodes: Nodes, w': Watch, v: Option<Violation>)
    requires IsRun(run) && Seen(run, w, |nodes|) && NodesOf(Last(run), nodes) && Audited(w, nodes, w', v)
    ensures Seen(run, w', |nodes|) && LogsAudited(nodes, w'.committed, v)
    ensures v.Some? ==> Stale(run, nodes, v.value)
  {
    var _, _ := ClausesPass(run, w, nodes);
    if v.Some? {
      ReportIsStale(run, w'.committed, nodes, v.value);
    }
  }

  /** The two recording clauses pass, and what they leave is again seen in the run. */
  lemma {:induction false} ClausesPass(run: seq<System>, w: Watch, nodes: Nodes) returns (w1: Watch, w2: Watch)
    requires IsRun(run) && Seen(run, w, |nodes|) && NodesOf(Last(run), nodes)
    ensures TermsSeen(w, nodes, |nodes|) == Success(w1) && Seen(run, w1, |nodes|)
    ensures CommitsSeen(w1, nodes, |nodes|) == Success(w2) && Seen(run, w2, |nodes|)
  {
    SteadyOfRun(run, nodes);
    assert Passed(run, Success(w), |nodes|);
    TermsPass(run, w, nodes, |nodes|);
    w1 :| TermsSeen(w, nodes, |nodes|) == Success(w1) && Seen(run, w1, |nodes|);
    assert Passed(run, Success(w1), |nodes|);
    CommitsPass(run, w1, nodes, |nodes|);
    w2 := CommitsSeen(w1, nodes, |nodes|).value;
  }

  lemma {:induction false} SteadyOfRun(run: seq<System>, nodes: Nodes)
    requires IsRun(run) && NodesOf(Last(run), nodes)
    ensures TermsSteady(run, nodes) && CommitsSteady(run, nodes)
  {
    forall r, u: NodeId | Sized(r, |nodes|) && u < |nodes| && Passed(run, r, |nodes|)
      ensures Passed(run, ThenTerm(r, nodes, u), |nodes|) && Passed(run, ThenCommit(r, nodes, u), |nodes|)
    {
      TermsPassOne(run, r, nodes, u);
      CommitsPassOne(run, r, nodes, u);
    }
  }

  /** A live leader lacks, at position `k`, a recorded entry of a term before its own. */
  ghost predicate Misses(nodes: Nodes, committed: seq<Entry>, i: NodeId, k: nat) {
    && i < |nodes| && nodes[i].Some? && nodes[i].value.role == Leader
    && k < |committed| && committed[k].term < nodes[i].value.term
    && !HasEntry(nodes[i].value.log, k, committed[k])
  }

  ghost predicate SomeoneMisses(nodes: Nodes, committed: seq<Entry>) {
    exists i: NodeId, k: nat :: Misses(nodes, committed, i, k)
  }

  lemma RecordSorted(run: seq<System>, committed: seq<Entry>, i: nat, j: nat)
    requires IsRun(run) && CommittedSeen(run, committed) && i <= j < |committed|
    ensures committed[i].term <= committed[j].term
  {
    var k: nat, u: NodeId :| k < |run| && IsUp(run[k], u) && committed == Committed(run[k], u);
    NothingOutOfRange(run, k, u);
    TermsInOrder(run, k, u, i, j);
  }

  lemma MissingIsSeen(run: seq<System>, nodes: Nodes, committed: seq<Entry>, i: NodeId, k: nat)
    requires IsRun(run) && CommittedSeen(run, committed) && Misses(nodes, committed, i, k)
    ensures !AllComplete(nodes, committed)
  {
    forall j | 0 <= j <= k ensures committed[j].term < nodes[i].value.term {
      RecordSorted(run, committed, j, k);
    }
    assert AllBefore(committed, k, nodes[i].value.term);
    assert !Complete(nodes[i].value, committed);
  }

  /** What an audit has in front of it: the record it starts with, and the committed prefix of each live
      node. */
  ghost predicate InView(record: seq<Entry>, nodes: Nodes, p: seq<Entry>) {
    p == record || exists i :: IsCommitted(nodes, i, p)
  }

  ghost predicate IsCommitted(nodes: Nodes, i: int, p: seq<Entry>) {
    && 0 <= i < |nodes| && nodes[i].Some? && nodes[i].value.commitIndex <= |nodes[i].value.log|
    && p == nodes[i].value.log[..nodes[i].value.commitIndex]
  }

  /** A live leader lacks an entry, of a term before its own, that is in view. */
  ghost predicate AnyoneMisses(record: seq<Entry>, nodes: Nodes) {
    exists p, i: NodeId, k: nat :: InView(record, nodes, p) && Misses(nodes, p, i, k)
  }

  lemma {:induction false} TermsKeepRecord(w: Watch, nodes: Nodes, k: nat)
    requires Sized(Success(w), |nodes|) && k <= |nodes|
    ensures TermsSeen(w, nodes, k).Success? ==> TermsSeen(w, nodes, k).value.committed == w.committed
  {
    if k > 0 {
      TermsKeepRecord(w, nodes, k - 1);
    }
  }

  /** The new record is one of the sequences in view. */
  lemma {:induction false} RecordInView(w: Watch, nodes: Nodes, k: nat)
    requires Sized(Success(w), |nodes|) && k <= |nodes| && CommitsSeen(w, nodes, k).Success?
    ensures InView(w.committed, nodes, CommitsSeen(w, nodes, k).value.committed)
  {
    if k > 0 {
      RecordInView(w, nodes, k - 1);
      if nodes[k - 1].Some? {
        var nd := nodes[k - 1].value;
        AbsorbMeans(CommitsSeen(w, nodes, k - 1).value.committed, nd.log[..nd.commitIndex]);
        assert IsCommitted(nodes, k - 1, nd.log[..nd.commitIndex]);
      }
    }
  }

  /** The new record extends every sequence in view. */
  lemma {:induction false} ViewInRecord(w: Watch, nodes: Nodes, p: seq<Entry>)
    requires Sized(Success(w), |nodes|) && CommitsSeen(w, nodes, |nodes|).Success? && InView(w.committed, nodes, p)
    ensures p <= CommitsSeen(w, nodes, |nodes|).value.committed
  {
    CommitsRecorded(w, nodes, |nodes|);
    if p != w.committed {
      var i :| IsCommitted(nodes, i, p);
    }
  }

  lemma MissesLonger(nodes: Nodes, p: seq<Entry>, committed: seq<Entry>, i: NodeId, k: nat)
    requires p <= committed && Misses(nodes, p, i, k)
    ensures Misses(nodes, committed, i, k)
  {
    assert committed[k] == p[k];
  }

  lemma {:induction false} ViewIsRecord(w: Watch, nodes: Nodes, w1: Watch, w2: Watch)
    requires Sized(Success(w), |nodes|) && TermsSeen(w, nodes, |nodes|) == Success(w1)
    requires Sized(Success(w1), |nodes|) && CommitsSeen(w1, nodes, |nodes|) == Success(w2)
    ensures AnyoneMisses(w.committed, nodes) <==> SomeoneMisses(nodes, w2.committed)
  {
    TermsKeepRecord(w, nodes, |nodes|);
    RecordInView(w1, nodes, |nodes|);
    if AnyoneMisses(w.committed, nodes) {
      var p, i: NodeId, k: nat :| InView(w.committed, nodes, p) && Misses(nodes, p, i, k);
      ViewInRecord(w1, nodes, p);
      MissesLonger(nodes, p, w2.committed, i, k);
    }
  }

  /** Exactly when an audit after a run reports, in terms of what it is given: some live leader lacks an
      entry, of a term before its own, that is in the record or in the committed prefix of some live node.
      The early end of the scan loses nothing, because the record is ordered by term. */
  lemma AuditExactly(run: seq<System>, w: Watch, nodes: Nodes, w': Watch, v: Option<Violation>)
    requires IsRun(run) && Seen(run, w, |nodes|) && NodesOf(Last(run), nodes) && Audited(w, nodes, w', v)
    ensures v.Some? <==> AnyoneMisses(w.committed, nodes)
    ensures v.Some? ==>
              && v.value.LeaderLacks? && v.value.index > 0
              && Misses(nodes, w'.committed, v.value.node, v.value.index - 1)
  {
    AuditOfRecord(run, w, nodes, w', v);
    var w1, w2 := ClausesPass(run, w, nodes);
    ViewIsRecord(w, nodes, w1, w2);
  }

  lemma AuditOfRecord(run: seq<System>, w: Watch, nodes: Nodes, w': Watch, v: Option<Violation>)
    requires IsRun(run) && Seen(run, w, |nodes|) && NodesOf(Last(run), nodes) && Audited(w, nodes, w', v)
    ensures v.Some? <==> SomeoneMisses(nodes, w'.committed)
    ensures v.Some? ==>
              && v.value.LeaderLacks? && v.value.index > 0
              && Misses(nodes, w'.committed, v.value.node, v.value.index - 1)
  {
    AuditOfRun(run, w, nodes, w', v);
    if SomeoneMisses(nodes, w'.committed) {
      var i: NodeId, k: nat :| Misses(nodes, w'.committed, i, k);
      MissingIsSeen(run, nodes, w'.committed, i, k);
    }
    if v.Some? {
      LackingMisses(nodes, w'.committed, v.value);
    }
  }

  lemma LackingMisses(nodes: Nodes, committed: seq<Entry>, v: Violation)
    requires v.LeaderLacks? && LogsAudited(nodes, committed, Some(v))
    ensures v.index > 0 && Misses(nodes, committed, v.node, v.index - 1)
  {
    assert AllBefore(committed, v.index - 1, nodes[v.node].value.term);
  }

  lemma CommitIsRecorded(run: seq<System>, w: Watch, n: nat, u: NodeId)
    returns (j: nat)
    requires IsRun(run) && Seen(run, w, n) && u < n && w.commits[u] > 0
    ensures j < |run| && IsUp(run[j], u) && Committed(run[j], u) == w.committed[..w.commits[u]]
  {
    var c := w.commits[u];
    assert CommitSeen(run, u, c);
    j :| 0 <= j < |run| && IsUp(run[j], u) && NodeAt(run[j], u).commitIndex == c;
    var k: nat, v: NodeId :| k < |run| && IsUp(run[k], v) && w.committed == Committed(run[k], v);
    CommittedAgree(run, j, k, u, v);
    NothingOutOfRange(run, j, u);
    assert |Committed(run[j], u)| == c;
  }

  /** The durability check on restart compares the recovered log with everything the node was ever
      seen to have committed, and always passes. */
  lemma RestartPasses(run: seq<System>, w: Watch, n: nat, u: NodeId)
    requires IsRun(run) && Seen(run, w, n) && u < n && u < |Last(run).disks|
    ensures w.commits[u] <= |w.committed|
    ensures w.committed[..w.commits[u]] <= Last(run).disks[u].log
  {
    if w.commits[u] > 0 {
      var j := CommitIsRecorded(run, w, n, u);
      CommittedSurvives(run, j, |run| - 1, u);
    }
  }
}
