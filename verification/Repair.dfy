/** Progress that is a theorem: from any reachable state, a leader and one follower that keep talking
    end with equal logs. How many exchanges that takes is counted, and rests on the hint in a rejection. */
module Repair {
  import opened Types
  import opened Ledger
  import opened NodeSpec
  import opened Cluster
  import opened Coupling
  import opened Effects
  import opened Runs
  import opened Safety

  /** Leader `i` of term `t` and another live node `p` that knows of no later term. */
  ghost predicate Pair(s: System, i: NodeId, p: NodeId, t: Term) {
    && s.maxBatch > 0 && i < s.n && p < s.n && i != p
    && Leads(s, i, t) && IsUp(s, p) && NodeAt(s, p).term <= t
    && Shape(NodeAt(s, i)) && NodeAt(s, i).n == s.n
  }

  /** The exchanges still to come, counted by what they are for: the rejections until the leader has found
      where the logs meet, then one for each batch the peer is not known to hold. */
  function Rounds(l: NodeState, f: NodeState, p: NodeId): nat
    requires p < |l.matchIndex| && p < |l.nextIndex|
  {
    RoundsOf(|l.log|, l.matchIndex[p], l.nextIndex[p], |f.log|, l.maxBatch)
  }

  function RoundsOf(len: nat, matched: Index, next: Index, end: nat, batch: nat): nat {
    if matched >= len then 0 else Rejections(matched, next, end) + Batches(len - matched, batch)
  }

  /** One rejection to come back to the end of the peer's log, however far beyond it the leader starts, and
      from there one for each position down to the match. */
  function Rejections(matched: Index, next: Index, end: nat): nat {
    if next > end + 1 then 1 + Ahead(end, matched) else Ahead(next, matched + 1)
  }

  function Ahead(x: nat, y: nat): nat {
    if x > y then x - y else 0
  }

  function Batches(left: nat, batch: nat): nat {
    if left == 0 || batch == 0 then 0 else 1 + Batches(Ahead(left, batch), batch)
  }

  /** `left` over `batch`, rounded up. */
  lemma {:induction false} BatchesMeans(left: nat, batch: nat)
    requires batch > 0
    ensures left <= Batches(left, batch) * batch
    ensures Batches(left, batch) > 0 ==> (Batches(left, batch) - 1) * batch < left
  {
    if left > batch {
      BatchesMeans(left - batch, batch);
    }
  }

  lemma {:induction false} BatchesGrow(x: nat, y: nat, batch: nat)
    requires x <= y
    ensures Batches(x, batch) <= Batches(y, batch)
  {
    if x > 0 && batch > 0 {
      BatchesGrow(Ahead(x, batch), Ahead(y, batch), batch);
    }
  }

  /** Against an empty log one rejection is enough, and then it is batches only. */
  lemma EmptyPeer(l: NodeState, f: NodeState, p: NodeId)
    requires p < |l.matchIndex| && p < |l.nextIndex| && f.log == []
    ensures Rounds(l, f, p) <= 1 + Batches(|l.log|, l.maxBatch)
  {
    BatchesGrow(Ahead(|l.log|, l.matchIndex[p]), |l.log|, l.maxBatch);
  }

  // ---------------------------------------------------------------- one exchange, at the nodes

  function AppendTo(l: NodeState, p: NodeId): Message
    requires Shape(l) && l.role == Leader && p < l.n
  {
    AppendFor(l, p).message
  }

  /** The follower's reply to the leader's append, and the leader after it. */
  function ReplyOf(f: NodeState, i: NodeId, msg: Message): Message
    requires Shape(f) && msg.AppendEntries? && i < f.n && i != f.id && msg.term >= f.term
  {
    Handle(f, i, msg).out[0].message
  }

  /** The peer holds what the leader knows it acknowledged: the part of the invariant that makes
      backing up stop in time. */
  ghost predicate PeerHolds(l: NodeState, f: NodeState, p: NodeId)
    requires p < |l.matchIndex|
  {
    l.matchIndex[p] <= |l.log| && l.log[..l.matchIndex[p]] <= f.log
  }

  /** What the reply to append `m` says, given the log it finds: where it was rejected and with which
      hint, or how far it was acknowledged. */
  ghost predicate RepliesTo(log: seq<Entry>, m: Message, r: Message)
    requires m.AppendEntries?
  {
    && r.AppendResponse? && r.term == m.term
    && (r.success <==> Attaches(log, m))
    && (r.success ==> r.matchIndex == m.prevIndex + |m.entries|)
    && (!r.success ==>
          r.matchIndex == if m.prevIndex > |log| then |log| else if m.prevIndex == 0 then 0 else m.prevIndex - 1)
  }

  lemma HandleReplied(f: NodeState, i: NodeId, m: Message)
    requires Shape(f) && m.AppendEntries? && i < f.n && i != f.id && m.term >= f.term
    ensures |Handle(f, i, m).out| == 1 && Handle(f, i, m).out[0].to == i
    ensures RepliesTo(f.log, m, ReplyOf(f, i, m))
    ensures var log', r := Step(f, Receive(i, m)).node.log, ReplyOf(f, i, m);
            if r.success then r.matchIndex <= |log'| else log' == f.log
  {
    if Attaches(f.log, m) {
      AppendAccepted(f, i, m);
    } else {
      AppendRefused(f, i, m);
    }
  }

  /** A rejected append makes the leader back up, by the hint; an accepted one moves the match forward, by a
      batch. */
  lemma ExchangeProgress(l: NodeState, f: NodeState, p: NodeId)
    requires Shape(l) && l.role == Leader && p < l.n && l.maxBatch > 0
    requires Shape(f) && f.id == p && f.n == l.n && l.id != p && f.term <= l.term
    requires PeerHolds(l, f, p) && l.matchIndex[p] < |l.log|
    ensures var r, f' := ReplyOf(f, l.id, AppendTo(l, p)), Step(f, Receive(l.id, AppendTo(l, p))).node;
            && r.AppendResponse? && r.term == l.term
            && Rounds(Noted(l, p, r.success, r.matchIndex), f', p) < Rounds(l, f, p)
  {
    HandleReplied(f, l.id, AppendTo(l, p));
    var f' := Step(f, Receive(l.id, AppendTo(l, p))).node;
    ReplyProgress(l, f.log, p, ReplyOf(f, l.id, AppendTo(l, p)), f'.log);
  }

  lemma ReplyProgress(l: NodeState, log: seq<Entry>, p: NodeId, r: Message, log': seq<Entry>)
    requires Shape(l) && l.role == Leader && p < l.n && l.maxBatch > 0
    requires l.matchIndex[p] < |l.log| && l.log[..l.matchIndex[p]] <= log
    requires RepliesTo(log, AppendTo(l, p), r) && if r.success then r.matchIndex <= |log'| else log' == log
    ensures r.term == l.term
    ensures var noted := Noted(l, p, r.success, r.matchIndex);
            RoundsOf(|l.log|, noted.matchIndex[p], noted.nextIndex[p], |log'|, l.maxBatch)
              < RoundsOf(|l.log|, l.matchIndex[p], l.nextIndex[p], |log|, l.maxBatch)
  {
    AppendCarries(l, p);
    if r.success {
      AcceptedProgress(|l.log|, l.matchIndex[p], l.nextIndex[p], |log|, r.matchIndex, |log'|, l.maxBatch);
    } else {
      RejectedProgress(l, log, p, r);
    }
  }

  lemma AcceptedProgress(len: nat, matched: nat, next: nat, end: nat, matched': nat, end': nat, batch: nat)
    requires matched < len && matched < next <= len + 1 && batch > 0 && matched' <= end'
    requires matched' == if len - (next - 1) < batch then len else next - 1 + batch
    ensures RoundsOf(len, matched', matched' + 1, end', batch) < RoundsOf(len, matched, next, end, batch)
  {
    BatchesGrow(Ahead(len, matched'), Ahead(len - matched, batch), batch);
  }

  lemma RejectedProgress(l: NodeState, log: seq<Entry>, p: NodeId, r: Message)
    requires Shape(l) && l.role == Leader && p < l.n
    requires l.matchIndex[p] < |l.log| && l.log[..l.matchIndex[p]] <= log
    requires RepliesTo(log, AppendTo(l, p), r) && !r.success
    ensures var noted := Noted(l, p, false, r.matchIndex);
            && noted.matchIndex == l.matchIndex
            && Rejections(l.matchIndex[p], noted.nextIndex[p], |log|)
                 < Rejections(l.matchIndex[p], l.nextIndex[p], |log|)
  {
    var prev := l.nextIndex[p] - 1;
    if prev == l.matchIndex[p] {
      SameTermAt(l.log, log, prev);
    }
  }

  lemma SameTermAt(x: seq<Entry>, y: seq<Entry>, i: Index)
    requires i <= |x| && x[..i] <= y
    ensures TermAt(x, i) == TermAt(y, i)
  {
    assert i > 0 ==> x[..i][i - 1] == y[i - 1];
  }

  // ---------------------------------------------------------------- one exchange, in the cluster

  lemma MatchedPeer(s: System, h: History, i: NodeId, p: NodeId, t: Term)
    requires SystemOk(s, h) && Pair(s, i, p, t)
    ensures Shape(NodeAt(s, i)) && Shape(NodeAt(s, p)) && NodeAt(s, i).id == i && NodeAt(s, p).id == p
    ensures NodeAt(s, i).n == s.n && NodeAt(s, p).n == s.n && NodeAt(s, i).maxBatch == s.maxBatch
    ensures PeerHolds(NodeAt(s, i), NodeAt(s, p), p)
  {
    assert ServerAt(s, h, i) && ServerAt(s, h, p);
    var nd := NodeAt(s, i);
    assert MatchOk(h, nd, p);
    if nd.matchIndex[p] > 0 {
      var q := nd.log[..nd.matchIndex[p]];
      assert AckOk(DurableOf(s, h), t, p, q);
    }
  }

  /** Once everything is matched the logs are equal: a longer stale tail cannot exist, because its
      first entry would have to be in the leader's own log. */
  lemma MatchedMeansEqual(s: System, h: History, i: NodeId, p: NodeId, t: Term)
    requires SystemOk(s, h) && Pair(s, i, p, t) && NodeAt(s, i).matchIndex[p] >= |NodeAt(s, i).log|
    ensures NodeAt(s, p).log == NodeAt(s, i).log
  {
    MatchedPeer(s, h, i, p, t);
    assert ServerAt(s, h, i) && ServerAt(s, h, p);
    LeaderLog(DurableOf(s, h), i, NodeAt(s, i));
    NoStaleTail(DurableOf(s, h), p, t);
  }

  lemma NoStaleTail(a: Durable, p: NodeId, t: Term)
    requires Inv(a) && p < |a.disks| && a.disks[p].term <= t && t in a.h.reigns
    requires a.h.ledger[t] <= a.disks[p].log
    ensures a.disks[p].log == a.h.ledger[t]
  {
    var l, f := a.h.ledger[t], a.disks[p].log;
    assert DiskOk(a, p) && ReignOk(a.h, t);
    if |f| > |l| {
      TermsSorted(a.h, f, |l| - 1, |l|);
      InLedger(a.h.ledger, f, |l|);
    }
  }

  lemma InLedger(ledger: map<Term, seq<Entry>>, log: seq<Entry>, i: nat)
    requires LogOk(ledger, log) && i < |log|
    ensures log[i].term in ledger && |ledger[log[i].term]| > i
  {
    assert Traced(ledger, log, i);
  }

  lemma PairSound(run: seq<System>, i: NodeId, p: NodeId, t: Term)
    requires IsRun(run) && Pair(Last(run), i, p, t)
    ensures var l, f := NodeAt(Last(run), i), NodeAt(Last(run), p);
            && Shape(l) && Shape(f) && l.id == i && f.id == p && l.n == f.n == Last(run).n
            && l.maxBatch == Last(run).maxBatch && PeerHolds(l, f, p)
            && (l.matchIndex[p] >= |l.log| ==> f.log == l.log)
    ensures |Last(run).disks| == Last(run).n
  {
    var hs := RunWitnessed(run);
    var s, h := Last(run), hs[|run| - 1];
    assert SystemOk(s, h);
    MatchedPeer(s, h, i, p, t);
    if NodeAt(s, i).matchIndex[p] >= |NodeAt(s, i).log| {
      MatchedMeansEqual(s, h, i, p, t);
    }
  }

  ghost predicate OnlyTwoMoved(s: System, s': System, i: NodeId, p: NodeId) {
    && s'.n == s.n && |s'.servers| == |s.servers| && |s'.disks| == |s.disks|
    && (forall q :: 0 <= q < |s.servers| && q != i && q != p ==> s'.servers[q] == s.servers[q])
    && (forall q :: 0 <= q < |s.disks| && q != i && q != p ==> s'.disks[q] == s.disks[q])
  }

  // ---------------------------------------------------------------- a conversation

  /** The step after state `k` is a completed call of node `x` with `input`. */
  ghost predicate Calls(run: seq<System>, k: nat, x: NodeId, input: Input) {
    k + 1 < |run| && Enabled(run[k], Run(x, input)) && run[k + 1] == Next(run[k], Run(x, input))
  }

  /** In the step after state `k`, `x` handles a message that `y` sent in the step before. */
  ghost predicate Answers(run: seq<System>, k: nat, x: NodeId, y: NodeId) {
    exists o: Outgoing :: SentAt(run, k, y, o) && o.to == x && Calls(run, k, x, Receive(y, o.message))
  }

  /** The step before state `k` was a call of `y`, and `o` is one of its messages. */
  ghost predicate SentAt(run: seq<System>, k: nat, y: NodeId, o: Outgoing) {
    exists input: Input :: SentBy(run, k, y, input, o)
  }

  ghost predicate SentBy(run: seq<System>, k: nat, y: NodeId, input: Input, o: Outgoing) {
    k > 0 && Calls(run, k - 1, y, input) && o in Step(NodeAt(run[k - 1], y), input).out
  }

  /** From state `start` on nothing happens but this: the leader's heartbeat, and then each of the two
      handles what the other sent in the step before. */
  ghost predicate SelfDriven(run: seq<System>, start: nat, i: NodeId, p: NodeId) {
    && (start + 1 < |run| ==> Calls(run, start, i, Tick(true)))
    && forall k: nat {:trigger Turn(run, k, i, p)} :: start < k && k + 1 < |run| ==> Turn(run, k, i, p)
  }

  ghost predicate Turn(run: seq<System>, k: nat, i: NodeId, p: NodeId) {
    Answers(run, k, p, i) || Answers(run, k, i, p)
  }

  lemma CallsLonger(run: seq<System>, s: System, k: nat, x: NodeId, input: Input)
    requires Calls(run, k, x, input)
    ensures Calls(run + [s], k, x, input)
  {
    assert (run + [s])[k] == run[k] && (run + [s])[k + 1] == run[k + 1];
  }

  lemma SentLonger(run: seq<System>, s: System, k: nat, y: NodeId, o: Outgoing)
    requires SentAt(run, k, y, o)
    ensures SentAt(run + [s], k, y, o)
  {
    var input: Input :| SentBy(run, k, y, input, o);
    CallsLonger(run, s, k - 1, y, input);
    assert (run + [s])[k - 1] == run[k - 1];
    assert SentBy(run + [s], k, y, input, o);
  }

  lemma AnswersLonger(run: seq<System>, s: System, k: nat, x: NodeId, y: NodeId)
    requires Answers(run, k, x, y)
    ensures Answers(run + [s], k, x, y)
  {
    var o :| SentAt(run, k, y, o) && o.to == x && Calls(run, k, x, Receive(y, o.message));
    SentLonger(run, s, k, y, o);
    CallsLonger(run, s, k, x, Receive(y, o.message));
  }

  lemma TurnLonger(run: seq<System>, s: System, k: nat, i: NodeId, p: NodeId)
    requires Turn(run, k, i, p)
    ensures Turn(run + [s], k, i, p)
  {
    if Answers(run, k, p, i) {
      AnswersLonger(run, s, k, p, i);
    } else {
      AnswersLonger(run, s, k, i, p);
    }
  }

  lemma TurnsLonger(run: seq<System>, s: System, k: nat, i: NodeId, p: NodeId)
    requires k < |run| && (k + 1 < |run| ==> Turn(run, k, i, p)) && Turn(run + [s], |run| - 1, i, p)
    ensures Turn(run + [s], k, i, p)
  {
    if k + 1 < |run| {
      TurnLonger(run, s, k, i, p);
    } else {
      assert k == |run| - 1;
    }
  }

  lemma SelfDrivenLonger(run: seq<System>, s: System, start: nat, i: NodeId, p: NodeId)
    requires start + 1 < |run| && SelfDriven(run, start, i, p) && Turn(run + [s], |run| - 1, i, p)
    ensures SelfDriven(run + [s], start, i, p)
  {
    CallsLonger(run, s, start, i, Tick(true));
    forall k: nat | start < k && k + 1 < |run + [s]| ensures Turn(run + [s], k, i, p) {
      TurnsLonger(run, s, k, i, p);
    }
  }

  /** A conversation under way. */
  ghost predicate Talking(run: seq<System>, start: nat, i: NodeId, p: NodeId, t: Term) {
    exists s :: Pair(s, i, p, t) && start + 1 < |run| && s == Last(run) && IsRun(run) && SelfDriven(run, start, i, p)
  }

  /** The next step answers a message of the last one. */
  lemma TalkGoesOn(run: seq<System>, start: nat, i: NodeId, p: NodeId, t: Term, s: System,
                   x: NodeId, y: NodeId, o: Outgoing)
    requires Talking(run, start, i, p, t) && Pair(s, i, p, t) && IsRun(run + [s])
    requires (x == p && y == i) || (x == i && y == p)
    requires SentAt(run, |run| - 1, y, o) && o.to == x && Calls(run + [s], |run| - 1, x, Receive(y, o.message))
    ensures Talking(run + [s], start, i, p, t)
  {
    TurnTaken(run, i, p, s, x, y, o);
    SelfDrivenLonger(run, s, start, i, p);
    assert Last(run + [s]) == s;
  }

  lemma TurnTaken(run: seq<System>, i: NodeId, p: NodeId, s: System, x: NodeId, y: NodeId, o: Outgoing)
    requires |run| > 0 && ((x == p && y == i) || (x == i && y == p))
    requires SentAt(run, |run| - 1, y, o) && o.to == x && Calls(run + [s], |run| - 1, x, Receive(y, o.message))
    ensures Turn(run + [s], |run| - 1, i, p)
  {
    SentLonger(run, s, |run| - 1, y, o);
    assert Answers(run + [s], |run| - 1, x, y);
  }

  /** Node `x` of the last state is called. */
  lemma CallStep(run: seq<System>, x: NodeId, input: Input) returns (s: System)
    requires IsRun(run) && Available(Last(run), x, input)
    ensures IsRun(run + [s]) && Calls(run + [s], |run| - 1, x, input)
    ensures s.n == Last(run).n && s.maxBatch == Last(run).maxBatch && OnlyTwoMoved(Last(run), s, x, x)
    ensures IsUp(Last(run), x) && IsUp(s, x) && NodeAt(s, x) == Step(NodeAt(Last(run), x), input).node
    ensures forall o :: o in Step(NodeAt(Last(run), x), input).out ==> Packet(x, o.to, o.message) in s.sent
  {
    s := Next(Last(run), Run(x, input));
    assert Enabled(Last(run), Run(x, input)) && IsStep(Last(run), s);
    Extend(run, s);
    assert (run + [s])[|run| - 1] == Last(run);
  }

  /** The last step was the leader's, and its messages include the append it now has for the peer. */
  ghost predicate Primed(run: seq<System>, i: NodeId, p: NodeId) {
    && |run| > 1 && IsUp(Last(run), i) && Shape(NodeAt(Last(run), i))
    && NodeAt(Last(run), i).role == Leader && p < NodeAt(Last(run), i).n
    && Packet(i, p, AppendTo(NodeAt(Last(run), i), p)) in Last(run).sent
    && SentAt(run, |run| - 1, i, AppendFor(NodeAt(Last(run), i), p))
  }

  lemma KickOff(run: seq<System>, i: NodeId, p: NodeId, t: Term) returns (s: System)
    requires IsRun(run) && Pair(Last(run), i, p, t)
    ensures IsRun(run + [s]) && Pair(s, i, p, t) && OnlyTwoMoved(Last(run), s, i, p)
    ensures NodeAt(s, i) == NodeAt(Last(run), i) && NodeAt(s, p) == NodeAt(Last(run), p)
    ensures Talking(run + [s], |run| - 1, i, p, t) && Primed(run + [s], i, p)
  {
    PairSound(run, i, p, t);
    var l := NodeAt(Last(run), i);
    s := CallStep(run, i, Tick(true));
    BroadcastIsAll(l, l.n);
    assert AppendFor(l, p) in Step(l, Tick(true)).out;
    assert (run + [s])[|run| - 1] == Last(run);
    assert SentBy(run + [s], |run|, i, Tick(true), AppendFor(l, p));
    assert Pair(s, i, p, t) && SelfDriven(run + [s], |run| - 1, i, p);
  }

  /** The peer handles the append, and its reply will bring the leader forward. */
  lemma PeerTurn(run: seq<System>, start: nat, i: NodeId, p: NodeId, t: Term) returns (s: System, r: Message)
    requires Talking(run, start, i, p, t) && Primed(run, i, p)
    requires NodeAt(Last(run), i).matchIndex[p] < |NodeAt(Last(run), i).log|
    ensures Talking(run + [s], start, i, p, t) && OnlyTwoMoved(Last(run), s, i, p)
    ensures IsUp(s, i) && NodeAt(s, i) == NodeAt(Last(run), i) && IsUp(s, p) && IsUp(Last(run), p)
    ensures r.AppendResponse? && r.term == t && Packet(p, i, r) in s.sent && SentAt(run + [s], |run|, p, Outgoing(i, r))
    ensures Rounds(Noted(NodeAt(s, i), p, r.success, r.matchIndex), NodeAt(s, p), p)
          < Rounds(NodeAt(s, i), NodeAt(Last(run), p), p)
  {
    PairSound(run, i, p, t);
    var l, f := NodeAt(Last(run), i), NodeAt(Last(run), p);
    ExchangeProgress(l, f, p);
    r := ReplyOf(f, i, AppendTo(l, p));
    s := PeerCalled(run, i, p, t, AppendTo(l, p));
    TalkGoesOn(run, start, i, p, t, s, p, i, AppendFor(l, p));
  }

  lemma PeerCalled(run: seq<System>, i: NodeId, p: NodeId, t: Term, m: Message) returns (s: System)
    requires IsRun(run) && Pair(Last(run), i, p, t)
    requires m.AppendEntries? && m.term == t && Packet(i, p, m) in Last(run).sent
    ensures IsRun(run + [s]) && Calls(run + [s], |run| - 1, p, Receive(i, m)) && Pair(s, i, p, t)
    ensures OnlyTwoMoved(Last(run), s, i, p) && NodeAt(s, i) == NodeAt(Last(run), i)
    ensures var f := NodeAt(Last(run), p);
            && Shape(f) && i < f.n && i != f.id && NodeAt(s, p) == Step(f, Receive(i, m)).node
            && Packet(p, i, ReplyOf(f, i, m)) in s.sent && SentAt(run + [s], |run|, p, Outgoing(i, ReplyOf(f, i, m)))
  {
    PairSound(run, i, p, t);
    var f := NodeAt(Last(run), p);
    s := CallStep(run, p, Receive(i, m));
    HandleReplied(f, i, m);
    PeerTermBound(f, i, m, t);
    assert (run + [s])[|run| - 1] == Last(run);
    assert SentBy(run + [s], |run|, p, Receive(i, m), Outgoing(i, ReplyOf(f, i, m)));
  }

  lemma PeerTermBound(f: NodeState, i: NodeId, m: Message, t: Term)
    requires Shape(f) && m.AppendEntries? && m.term == t && f.term <= t && i < f.n && i != f.id
    ensures Step(f, Receive(i, m)).node.term == t
  {
  }

  /** What the leader makes of a reply: it leads on with the same log, and sends on unless it is done. */
  lemma LeaderNotes(l: NodeState, p: NodeId, r: Message)
    requires Shape(l) && l.role == Leader && p < l.n && p != l.id && r.AppendResponse? && r.term == l.term
    ensures var step := Step(l, Receive(p, r)); var noted := Noted(l, p, r.success, r.matchIndex);
            && Shape(step.node) && step.node.role == Leader && step.node.n == l.n && Disk(step.node) == Disk(l)
            && step.node.maxBatch == l.maxBatch
            && step.node.matchIndex == noted.matchIndex && step.node.nextIndex == noted.nextIndex
            && (step.node.matchIndex[p] < |l.log| ==> AppendFor(step.node, p) in step.out)
  {
  }

  lemma LeaderTurn(run: seq<System>, start: nat, i: NodeId, p: NodeId, t: Term, r: Message) returns (s: System)
    requires Talking(run, start, i, p, t) && IsUp(Last(run), i) && Shape(NodeAt(Last(run), i))
    requires NodeAt(Last(run), i).role == Leader && p < NodeAt(Last(run), i).n
    requires r.AppendResponse? && r.term == t && Packet(p, i, r) in Last(run).sent
    requires SentAt(run, |run| - 1, p, Outgoing(i, r))
    ensures Talking(run + [s], start, i, p, t) && OnlyTwoMoved(Last(run), s, i, p)
    ensures IsUp(s, i) && NodeAt(s, i).log == NodeAt(Last(run), i).log
    ensures p < |NodeAt(s, i).matchIndex| && p < |NodeAt(s, i).nextIndex|
    ensures IsUp(s, p) && IsUp(Last(run), p) && NodeAt(s, p) == NodeAt(Last(run), p)
    ensures Rounds(NodeAt(s, i), NodeAt(s, p), p)
         == Rounds(Noted(NodeAt(Last(run), i), p, r.success, r.matchIndex), NodeAt(s, p), p)
    ensures NodeAt(s, i).matchIndex[p] < |NodeAt(s, i).log| ==> Primed(run + [s], i, p)
  {
    PairSound(run, i, p, t);
    s := LeaderCalled(run, i, p, t, r);
    TalkGoesOn(run, start, i, p, t, s, i, p, Outgoing(i, r));
  }

  lemma LeaderCalled(run: seq<System>, i: NodeId, p: NodeId, t: Term, r: Message) returns (s: System)
    requires IsRun(run) && Pair(Last(run), i, p, t)
    requires r.AppendResponse? && r.term == t && Packet(p, i, r) in Last(run).sent
    ensures IsRun(run + [s]) && Calls(run + [s], |run| - 1, i, Receive(p, r)) && Pair(s, i, p, t)
    ensures OnlyTwoMoved(Last(run), s, i, p) && NodeAt(s, i).log == NodeAt(Last(run), i).log
    ensures IsUp(s, p) && IsUp(Last(run), p) && NodeAt(s, p) == NodeAt(Last(run), p)
    ensures Rounds(NodeAt(s, i), NodeAt(s, p), p)
         == Rounds(Noted(NodeAt(Last(run), i), p, r.success, r.matchIndex), NodeAt(s, p), p)
    ensures NodeAt(s, i).matchIndex[p] < |NodeAt(s, i).log| ==> Primed(run + [s], i, p)
  {
    var l := NodeAt(Last(run), i);
    PairSound(run, i, p, t);
    s := CallStep(run, i, Receive(p, r));
    LeaderNotes(l, p, r);
    assert (run + [s])[|run| - 1] == Last(run);
    if NodeAt(s, i).matchIndex[p] < |NodeAt(s, i).log| {
      assert SentBy(run + [s], |run|, i, Receive(p, r), AppendFor(NodeAt(s, i), p));
    }
  }

  /** One round, and what it achieves. */
  lemma Round(run: seq<System>, start: nat, i: NodeId, p: NodeId, t: Term) returns (s2: System, s3: System)
    requires Talking(run, start, i, p, t) && Primed(run, i, p)
    requires NodeAt(Last(run), i).matchIndex[p] < |NodeAt(Last(run), i).log|
    ensures Talking(run + [s2] + [s3], start, i, p, t) && OnlyTwoMoved(Last(run), s3, i, p)
    ensures IsUp(s3, i) && NodeAt(s3, i).log == NodeAt(Last(run), i).log
    ensures p < |NodeAt(s3, i).matchIndex| && p < |NodeAt(s3, i).nextIndex|
    ensures IsUp(s3, p) && IsUp(Last(run), p)
    ensures Rounds(NodeAt(s3, i), NodeAt(s3, p), p) < Rounds(NodeAt(Last(run), i), NodeAt(Last(run), p), p)
    ensures NodeAt(s3, i).matchIndex[p] < |NodeAt(s3, i).log| ==> Primed(run + [s2] + [s3], i, p)
  {
    var r: Message;
    s2, r := PeerTurn(run, start, i, p, t);
    s3 := LeaderTurn(run + [s2], start, i, p, t, r);
  }

  // ---------------------------------------------------------------- to the end

  lemma AllMatched(run: seq<System>, i: NodeId, p: NodeId, t: Term)
    requires IsRun(run) && Pair(Last(run), i, p, t)
    requires p < |NodeAt(Last(run), i).matchIndex| && NodeAt(Last(run), i).matchIndex[p] >= |NodeAt(Last(run), i).log|
    ensures Repaired(Last(run), Last(run), i, p, t)
  {
    PairSound(run, i, p, t);
  }

  lemma TalkMatched(run: seq<System>, start: nat, i: NodeId, p: NodeId, t: Term)
    requires Talking(run, start, i, p, t) && IsUp(Last(run), i) && p < |NodeAt(Last(run), i).matchIndex|
    requires NodeAt(Last(run), i).matchIndex[p] >= |NodeAt(Last(run), i).log|
    ensures IsRun(run) && SelfDriven(run, start, i, p) && Repaired(Last(run), Last(run), i, p, t)
  {
    AllMatched(run, i, p, t);
  }

  /** Log repair: any run in which node `i` leads term `t` goes on, by one heartbeat and then the two
      nodes' own replies to each other, until the follower's log equals the leader's. It takes at most one
      exchange for each of the counted rounds. */
  lemma {:induction false} LogRepair(run: seq<System>, i: NodeId, p: NodeId, t: Term) returns (run': seq<System>)
    requires IsRun(run) && Pair(Last(run), i, p, t)
    ensures IsRun(run') && run <= run'
    ensures |run'| <= |run| + 1 + 2 * Rounds(NodeAt(Last(run), i), NodeAt(Last(run), p), p)
    ensures SelfDriven(run', |run| - 1, i, p) && Repaired(Last(run), Last(run'), i, p, t)
  {
    if NodeAt(Last(run), i).matchIndex[p] >= |NodeAt(Last(run), i).log| {
      AllMatched(run, i, p, t);
      run' := run;
    } else {
      run' := RepairFrom(run, i, p, t);
    }
  }

  lemma RepairFrom(run: seq<System>, i: NodeId, p: NodeId, t: Term) returns (run': seq<System>)
    requires IsRun(run) && Pair(Last(run), i, p, t)
    ensures IsRun(run') && run <= run'
    ensures |run'| <= |run| + 1 + 2 * Rounds(NodeAt(Last(run), i), NodeAt(Last(run), p), p)
    ensures SelfDriven(run', |run| - 1, i, p) && Repaired(Last(run), Last(run'), i, p, t)
  {
    var s := KickOff(run, i, p, t);
    run' := RepairOn(run + [s], |run| - 1, i, p, t);
    RepairedAfter(Last(run), s, Last(run'), i, p, t);
  }

  lemma {:induction false} RepairOn(run: seq<System>, start: nat, i: NodeId, p: NodeId, t: Term)
    returns (run': seq<System>)
    requires Talking(run, start, i, p, t) && IsUp(Last(run), i) && IsUp(Last(run), p)
    requires p < |NodeAt(Last(run), i).matchIndex| && p < |NodeAt(Last(run), i).nextIndex|
    requires NodeAt(Last(run), i).matchIndex[p] < |NodeAt(Last(run), i).log| ==> Primed(run, i, p)
    ensures IsRun(run') && run <= run'
    ensures |run'| <= |run| + 2 * Rounds(NodeAt(Last(run), i), NodeAt(Last(run), p), p)
    ensures SelfDriven(run', start, i, p) && Repaired(Last(run), Last(run'), i, p, t)
    decreases Rounds(NodeAt(Last(run), i), NodeAt(Last(run), p), p)
  {
    if NodeAt(Last(run), i).matchIndex[p] >= |NodeAt(Last(run), i).log| {
      TalkMatched(run, start, i, p, t);
      run' := run;
    } else {
      var s2, s3 := Round(run, start, i, p, t);
      run' := RepairOn(run + [s2] + [s3], start, i, p, t);
      RepairedAfter(Last(run), s3, Last(run'), i, p, t);
    }
  }

  lemma RepairedAfter(s: System, s1: System, s': System, i: NodeId, p: NodeId, t: Term)
    requires IsUp(s, i) && IsUp(s1, i) && OnlyTwoMoved(s, s1, i, p) && NodeAt(s1, i).log == NodeAt(s, i).log
    requires Repaired(s1, s', i, p, t)
    ensures Repaired(s, s', i, p, t)
  {
  }

  /** The leader leads on with the log it had, the follower's log equals it (so a stale tail is gone),
      and nobody else moved. */
  ghost predicate Repaired(s: System, s': System, i: NodeId, p: NodeId, t: Term) {
    && IsUp(s, i) && Pair(s', i, p, t) && OnlyTwoMoved(s, s', i, p)
    && NodeAt(s', i).log == NodeAt(s, i).log
    && NodeAt(s', p).log == NodeAt(s', i).log
    && p < |NodeAt(s', i).matchIndex| && NodeAt(s', i).matchIndex[p] >= |NodeAt(s', i).log|
  }
}
