/** What each call owes its caller, for every node state, every cluster size and every input: when a vote
    is given, what an append and its reply change and answer, what an election and a proposal send. */
module Effects {
  import opened Types
  import opened Quorum
  import opened NodeSpec

  // ---------------------------------------------------------------- appends on their way

  /** `m` is what a leader has for a peer: the entries after the peer's next position, as many as fit in a
      batch and no more than there are, with the pair before them and the leader's commit index. */
  ghost predicate CarriesFrom(nd: NodeState, prev: Index, m: Message) {
    && m.AppendEntries? && m.term == nd.term && m.leaderCommit == nd.commitIndex
    && m.prevIndex == prev <= |nd.log| && m.prevTerm == TermAt(nd.log, prev)
    && |m.entries| == (if |nd.log| - prev < nd.maxBatch then |nd.log| - prev else nd.maxBatch)
    && forall i :: 0 <= i < |m.entries| ==> m.entries[i] == nd.log[prev + i]
  }

  /** Exactly one append for each peer, in order of the peers. */
  ghost predicate OneEach(nd: NodeState, out: seq<Outgoing>) {
    && |nd.nextIndex| == nd.n && InOrder(out)
    && (forall o :: o in out ==>
          && o.to < nd.n && o.to != nd.id && nd.nextIndex[o.to] > 0
          && CarriesFrom(nd, nd.nextIndex[o.to] - 1, o.message))
    && (forall p: NodeId {:trigger HasRecipient(out, p)} :: p < nd.n && p != nd.id ==> HasRecipient(out, p))
  }

  ghost predicate HasRecipient(out: seq<Outgoing>, p: NodeId) {
    exists o :: o in out && o.to == p
  }

  lemma AppendCarries(nd: NodeState, p: NodeId)
    requires Shape(nd) && nd.role == Leader && p < nd.n
    ensures nd.nextIndex[p] > 0 && AppendFor(nd, p).to == p
    ensures CarriesFrom(nd, nd.nextIndex[p] - 1, AppendFor(nd, p).message)
  {
  }

  lemma {:induction false} BroadcastIsOneEach(nd: NodeState)
    requires Shape(nd) && nd.role == Leader
    ensures OneEach(nd, NodeSpec.BroadcastAppend(nd, nd.n))
  {
    var out := NodeSpec.BroadcastAppend(nd, nd.n);
    BroadcastOnce(nd, nd.n);
    forall o | o in out ensures nd.nextIndex[o.to] > 0 && CarriesFrom(nd, nd.nextIndex[o.to] - 1, o.message) {
      AppendCarries(nd, o.to);
    }
    forall p: NodeId | p < nd.n && p != nd.id ensures HasRecipient(out, p) {
      AppendCarries(nd, p);
      assert AppendFor(nd, p) in out;
    }
  }

  // ---------------------------------------------------------------- terms

  /** A message from the node itself or from outside the cluster is as if it had never come. */
  lemma StrangersIgnored(nd: NodeState, from: NodeId, msg: Message)
    requires Shape(nd)
    ensures (from == nd.id || from >= nd.n) ==> Step(nd, Receive(from, msg)) == StepOut(nd, [], [])
  {
  }

  /** A later term is adopted from any message, and saved before anything else is: whoever led or stood
      for election gives up, and the vote is open again unless the message itself wins it. */
  lemma LaterTermAdopted(nd: NodeState, from: NodeId, msg: Message)
    requires Shape(nd) && from < nd.n && from != nd.id
    ensures var step := Step(nd, Receive(from, msg));
            && step.node.term == (if msg.term > nd.term then msg.term else nd.term)
            && (msg.term > nd.term ==>
              && step.node.role == Follower && |step.writes| > 0 && step.writes[0] == SaveHardState(msg.term, None)
              && (step.node.votedFor == None || (msg.RequestVote? && step.node.votedFor == Some(from)))
              && step.node.leaderId == if msg.AppendEntries? then Some(from) else None)
  {
    if msg.term > nd.term {
      FollowerHears(NodeSpec.StepDown(nd, msg.term).node, from, msg);
    } else {
      TermKept(nd, from, msg);
    }
  }

  lemma FollowerHears(nd: NodeState, from: NodeId, msg: Message)
    requires Shape(nd) && from < nd.n && nd.role == Follower && nd.term == msg.term
    requires nd.votedFor == None && nd.leaderId == None
    ensures var nd' := OnMessage(nd, from, msg).node;
            && nd'.role == Follower && nd'.term == nd.term
            && (nd'.votedFor == None || (msg.RequestVote? && nd'.votedFor == Some(from)))
            && nd'.leaderId == if msg.AppendEntries? then Some(from) else None
  {
  }

  lemma TermKept(nd: NodeState, from: NodeId, msg: Message)
    requires Shape(nd) && from < nd.n
    ensures OnMessage(nd, from, msg).node.term == nd.term
  {
  }

  // ---------------------------------------------------------------- votes

  /** The candidate's last entry comes before the voter's: by term, and at equal terms by index. */
  predicate Behind(index: Index, term: Term, log: seq<Entry>) {
    term < TermAt(log, |log|) || (term == TermAt(log, |log|) && index < |log|)
  }

  /** The vote is owed: the request is of a term not over, in which the node has not voted for anyone
      else, and the candidate is not behind. */
  predicate VoteOwed(nd: NodeState, from: NodeId, m: Message)
    requires m.RequestVote?
  {
    && m.term >= nd.term && (m.term == nd.term ==> nd.votedFor.Some? ==> nd.votedFor.value == from)
    && !Behind(m.lastLogIndex, m.lastLogTerm, nd.log)
  }

  /** A request for a vote gets exactly one answer, and the vote if and only if it is owed. The vote is on
      disk by then; a vote that is not given leaves the one the node has. */
  lemma VoteAnswered(nd: NodeState, from: NodeId, m: Message)
    requires Shape(nd) && from < nd.n && from != nd.id && m.RequestVote?
    ensures var step := Step(nd, Receive(from, m));
            && step.out == [Outgoing(from, VoteResponse(Max(nd.term, m.term), VoteOwed(nd, from, m)))]
            && step.node.log == nd.log && step.node.commitIndex == nd.commitIndex
            && ApplyWrites(Disk(nd), step.writes) == Disk(step.node)
            && (VoteOwed(nd, from, m) ==> Disk(step.node) == Persistent(m.term, Some(from), nd.log))
            && (!VoteOwed(nd, from, m) ==> step.node.votedFor == if m.term > nd.term then None else nd.votedFor)
  {
    StepMirrored(nd, Receive(from, m));
  }

  /** The request delivered again gets the same answer, and changes nothing. */
  lemma VoteRepeated(nd: NodeState, from: NodeId, m: Message)
    requires Shape(nd) && from < nd.n && from != nd.id && m.RequestVote?
    ensures var step := Step(nd, Receive(from, m));
            && Shape(step.node) && Step(step.node, Receive(from, m)).node == step.node
            && Step(step.node, Receive(from, m)).out == step.out
  {
    StepShape(nd, Receive(from, m));
    var step := Step(nd, Receive(from, m));
    VoteAnswered(nd, from, m);
    VoteAnswered(step.node, from, m);
    VoteStays(nd, from, m);
  }

  lemma VoteStays(nd: NodeState, from: NodeId, m: Message)
    requires Shape(nd) && from < nd.n && from != nd.id && m.RequestVote?
    requires Shape(Step(nd, Receive(from, m)).node)
    ensures var nd' := Step(nd, Receive(from, m)).node;
            Step(nd', Receive(from, m)).node == nd' && (VoteOwed(nd', from, m) <==> VoteOwed(nd, from, m))
  {
  }

  /** An election: the next term, with the node's own vote saved first. A node alone in its cluster leads
      at once; any other asks each of its peers once, all with the same request. */
  lemma ElectionStarted(nd: NodeState)
    requires Shape(nd) && nd.role != Leader
    ensures var step := Step(nd, Tick(true));
            && step.node.term == nd.term + 1 && step.node.votedFor == Some(nd.id)
            && |step.writes| > 0 && step.writes[0] == SaveHardState(nd.term + 1, Some(nd.id))
            && (step.node.role == Leader <==> nd.n == 1)
            && (nd.n > 1 ==>
              && step.node.role == Candidate && step.node.log == nd.log && step.node.leaderId == None
              && step.node.votes == Filled(nd.n, false)[nd.id := true] && Asked(nd, step.out))
  {
    var c := Candidacy(nd);
    OwnVoteOnly(nd.n, nd.id);
    VoteBroadcastOnce(c, nd.n);
    forall p: NodeId | nd.n > 1 && p < nd.n && p != nd.id ensures HasRecipient(BroadcastVote(c, nd.n), p) {
      assert Outgoing(p, VoteRequest(c)) in BroadcastVote(c, nd.n);
    }
  }

  ghost predicate Asked(nd: NodeState, out: seq<Outgoing>) {
    && InOrder(out)
    && (forall o :: o in out ==>
          && o.to < nd.n && o.to != nd.id
          && o.message == RequestVote(nd.term + 1, |nd.log|, TermAt(nd.log, |nd.log|)))
    && (forall p: NodeId {:trigger HasRecipient(out, p)} :: p < nd.n && p != nd.id ==> HasRecipient(out, p))
  }

  lemma OwnVoteOnly(n: nat, id: NodeId)
    requires id < n
    ensures CountTrue(Filled(n, false)[id := true]) == 1
  {
    CountIsSize(Filled(n, false)[id := true]);
    assert Trues(Filled(n, false)[id := true]) == {id};
  }

  /** A new leader: it adds an empty entry of its term to its log, knows nothing of its peers, and sends
      each of them what comes after the log it was elected with. */
  lemma LeaderStarts(nd: NodeState)
    requires Shape(nd)
    ensures var step := NodeSpec.BecomeLeader(nd);
            && step.node.role == Leader && step.node.leaderId == Some(nd.id) && step.node.term == nd.term
            && step.node.log == nd.log + [Entry(nd.term, [])] && step.writes == [Append([Entry(nd.term, [])])]
            && (forall p :: 0 <= p < nd.n ==> step.node.matchIndex[p] == 0 && step.node.nextIndex[p] == |nd.log| + 1)
            && OneEach(step.node, step.out)
  {
    BroadcastIsOneEach(NodeSpec.AdvanceCommit(Crowned(nd)));
  }

  /** A leader's heartbeat goes to every peer and changes nothing; no timer does anything before it is
      due. */
  lemma HeartbeatSent(nd: NodeState, due: bool)
    requires Shape(nd)
    ensures !due ==> Step(nd, Tick(due)) == StepOut(nd, [], [])
    ensures due && nd.role == Leader ==>
              && Step(nd, Tick(due)).node == nd && Step(nd, Tick(due)).writes == []
              && OneEach(nd, Step(nd, Tick(due)).out)
  {
    if nd.role == Leader {
      BroadcastIsOneEach(nd);
    }
  }

  /** A command a leader accepts becomes its last entry, on disk, and goes out to every peer; any other node
      refuses it and stays as it is. */
  lemma ProposalSent(nd: NodeState, command: seq<byte>)
    requires Shape(nd)
    ensures var step := Step(nd, Propose(command));
            if nd.role != Leader then step == StepOut(nd, [], [])
            else
              && step.node.log == nd.log + [Entry(nd.term, command)] && step.node.role == Leader
              && step.node.nextIndex == nd.nextIndex && step.node.matchIndex == nd.matchIndex
              && step.writes == [Append([Entry(nd.term, command)])] && OneEach(step.node, step.out)
  {
    if nd.role == Leader {
      BroadcastIsOneEach(NodeSpec.AdvanceCommit(Lengthened(nd, command)));
    }
  }

  // ---------------------------------------------------------------- handling an append

  /** The log has the pair the append attaches to. */
  predicate Attaches(log: seq<Entry>, m: Message)
    requires m.AppendEntries?
  {
    m.prevIndex <= |log| && TermAt(log, m.prevIndex) == m.prevTerm
  }

  /** An append of a term that is over changes nothing and is answered with the term that ended it. */
  lemma StaleAppend(nd: NodeState, from: NodeId, m: Message)
    requires Shape(nd) && from < nd.n && from != nd.id && m.AppendEntries? && m.term < nd.term
    ensures Step(nd, Receive(from, m)) == StepOut(nd, [], [Outgoing(from, AppendResponse(nd.term, false, 0))])
  {
  }

  /** Whatever becomes of an append of a term not over, the node then follows its sender in that term. */
  ghost predicate Follows(nd: NodeState, from: NodeId, t: Term) {
    nd.role == Follower && nd.leaderId == Some(from) && nd.term == t
  }

  lemma AppendMerged(nd: NodeState, from: NodeId, m: Message)
    requires Shape(nd) && from < nd.n && from != nd.id && m.AppendEntries? && m.term >= nd.term && Attaches(nd.log, m)
    ensures var step := Step(nd, Receive(from, m)); var last := m.prevIndex + |m.entries|;
            && Follows(step.node, from, m.term) && step.out == [Outgoing(from, AppendResponse(m.term, true, last))]
            && step.node.log == Merge(nd.log, m.prevIndex, m.entries)
            && step.node.commitIndex == (if m.leaderCommit <= nd.commitIndex then nd.commitIndex
                                         else if m.leaderCommit <= last then m.leaderCommit else last)
  {
  }

  /** An append that attaches is acknowledged up to its last entry, and the log then has terms as in the
      append. The commit index moves exactly when the leader announces more than the node has: to the
      announcement, or to the index acknowledged where that is smaller. An append without entries is no
      exception. */
  lemma AppendAccepted(nd: NodeState, from: NodeId, m: Message)
    requires Shape(nd) && from < nd.n && from != nd.id && m.AppendEntries? && m.term >= nd.term && Attaches(nd.log, m)
    ensures var step := Step(nd, Receive(from, m)); var last := m.prevIndex + |m.entries|;
            && Follows(step.node, from, m.term) && step.out == [Outgoing(from, AppendResponse(m.term, true, last))]
            && step.node.commitIndex == (if m.leaderCommit <= nd.commitIndex then nd.commitIndex
                                         else if m.leaderCommit <= last then m.leaderCommit else last)
            && last <= |step.node.log| && nd.log[..m.prevIndex] <= step.node.log
            && forall i :: 0 <= i < |m.entries| ==> step.node.log[m.prevIndex + i].term == m.entries[i].term
  {
    AppendMerged(nd, from, m);
    MergeHas(nd.log, m.prevIndex, m.entries);
  }

  /** One that does not attach leaves the log and the commit index, and the reply says how far back to
      look. */
  lemma AppendRefused(nd: NodeState, from: NodeId, m: Message)
    requires Shape(nd) && from < nd.n && from != nd.id && m.AppendEntries? && m.term >= nd.term && !Attaches(nd.log, m)
    ensures var step := Step(nd, Receive(from, m));
            var hint := if |nd.log| < m.prevIndex then |nd.log| else if m.prevIndex == 0 then 0 else m.prevIndex - 1;
            && Follows(step.node, from, m.term) && step.out == [Outgoing(from, AppendResponse(m.term, false, hint))]
            && step.node.log == nd.log && step.node.commitIndex == nd.commitIndex
  {
  }

  lemma MergeHas(log: seq<Entry>, prev: Index, entries: seq<Entry>)
    requires prev <= |log|
    ensures prev + |entries| <= |Merge(log, prev, entries)| && log[..prev] <= Merge(log, prev, entries)
    ensures forall i :: 0 <= i < |entries| ==> Merge(log, prev, entries)[prev + i].term == entries[i].term
  {
    var k := Kept(log, prev, entries);
    KeptIsFirstConflict(log, prev, entries);
    if k < |entries| {
      forall i | 0 <= i < |entries| ensures Merge(log, prev, entries)[prev + i].term == entries[i].term {
        if i >= k {
          assert Merge(log, prev, entries)[prev + i] == entries[k..][i - k];
        }
      }
    }
  }

  // ---------------------------------------------------------------- handling a reply to an append

  /** A reply that is not for this leadership is as if it had never come, except that a later term is
      adopted. */
  lemma StaleReply(nd: NodeState, from: NodeId, m: Message)
    requires Shape(nd) && m.AppendResponse? && m.term <= nd.term && (nd.role != Leader || m.term < nd.term)
    ensures Step(nd, Receive(from, m)) == StepOut(nd, [], [])
  {
  }

  /** Only what is known of the one peer has changed, and perhaps the commit index. */
  ghost predicate OnlyPeerMoved(nd: NodeState, nd': NodeState, p: NodeId) {
    && Shape(nd')
    && nd' == nd.(commitIndex := nd'.commitIndex, matchIndex := nd'.matchIndex, nextIndex := nd'.nextIndex)
    && |nd.matchIndex| == nd.n && |nd.nextIndex| == nd.n
    && forall q :: 0 <= q < nd.n && q != p ==>
         nd'.matchIndex[q] == nd.matchIndex[q] && nd'.nextIndex[q] == nd.nextIndex[q]
  }

  /** The reply's index, which is not trusted beyond the leader's log, or what was known before. */
  function MatchAfter(nd: NodeState, p: NodeId, index: Index): Index
    requires p < |nd.matchIndex|
  {
    var known := if index < |nd.log| then index else |nd.log|;
    if known > nd.matchIndex[p] then known else nd.matchIndex[p]
  }

  lemma ReplyTaken(nd: NodeState, p: NodeId, success: bool, index: Index)
    requires Shape(nd) && nd.role == Leader && p < nd.n && p != nd.id
    ensures var noted := Noted(nd, p, success, index);
            Step(nd, Receive(p, AppendResponse(nd.term, success, index))) ==
              if !success then StepOut(noted, [], [AppendFor(noted, p)])
              else
                var nd' := NodeSpec.AdvanceCommit(noted);
                StepOut(nd', [], if nd'.nextIndex[p] <= |nd.log| then [AppendFor(nd', p)] else [])
  {
  }

  /** An acknowledgement: the peer's match index goes up to it, and the next append starts right after the
      match. It is sent at once if there is anything left to send. */
  lemma AckNoted(nd: NodeState, p: NodeId, index: Index)
    requires Shape(nd) && nd.role == Leader && p < nd.n && p != nd.id
    ensures var step := Step(nd, Receive(p, AppendResponse(nd.term, true, index)));
            var m := MatchAfter(nd, p, index);
            && OnlyPeerMoved(nd, step.node, p) && step.writes == []
            && step.node.matchIndex[p] == m && step.node.nextIndex[p] == m + 1
            && (m >= |nd.log| ==> step.out == [])
            && (m < |nd.log| ==>
                  |step.out| == 1 && step.out[0].to == p && CarriesFrom(step.node, m, step.out[0].message))
  {
    ReplyTaken(nd, p, true, index);
    AppendCarries(NodeSpec.AdvanceCommit(Noted(nd, p, true, index)), p);
  }

  lemma HintNoted(nd: NodeState, p: NodeId, hint: Index)
    requires Shape(nd) && nd.role == Leader && p < nd.n
    ensures var nd' := Noted(nd, p, false, hint); var prev, prev' := nd.nextIndex[p] - 1, nd'.nextIndex[p] - 1;
            && OnlyPeerMoved(nd, nd', p) && nd'.matchIndex == nd.matchIndex && nd'.commitIndex == nd.commitIndex
            && nd.matchIndex[p] <= prev' <= prev
            && (prev' > nd.matchIndex[p] ==> prev' <= hint) && (hint < prev ==> prev' >= hint)
            && (hint >= prev ==> nd' == nd)
  {
    assert hint >= nd.nextIndex[p] - 1 ==> Noted(nd, p, false, hint).nextIndex == nd.nextIndex;
  }

  /** A rejection: the next append starts no later than the hint, no later than the last one, and never
      before what the peer is known to have. A hint that is not before the last append changes nothing.
      The append is sent at once. */
  lemma HintTaken(nd: NodeState, p: NodeId, hint: Index)
    requires Shape(nd) && nd.role == Leader && p < nd.n && p != nd.id
    ensures var step := Step(nd, Receive(p, AppendResponse(nd.term, false, hint)));
            var prev, prev' := nd.nextIndex[p] - 1, step.node.nextIndex[p] - 1;
            && OnlyPeerMoved(nd, step.node, p) && step.writes == []
            && step.node.matchIndex == nd.matchIndex && step.node.commitIndex == nd.commitIndex
            && nd.matchIndex[p] <= prev' <= prev
            && (prev' > nd.matchIndex[p] ==> prev' <= hint) && (hint < prev ==> prev' >= hint)
            && (hint >= prev ==> step.node == nd)
            && |step.out| == 1 && step.out[0].to == p && CarriesFrom(step.node, prev', step.out[0].message)
  {
    ReplyTaken(nd, p, false, hint);
    HintNoted(nd, p, hint);
    AppendCarries(Noted(nd, p, false, hint), p);
  }

  /** So when the follower's log is the shorter one, one rejection is enough for the next append to start at
      its end. */
  lemma ShortLogFound(l: NodeState, f: NodeState)
    requires Shape(l) && l.role == Leader && Shape(f) && f.n == l.n && f.id != l.id && f.term <= l.term
    requires |f.log| < l.nextIndex[f.id] - 1 && l.matchIndex[f.id] <= |f.log|
    ensures var reply := Step(f, Receive(l.id, AppendFor(l, f.id).message)).out;
            && |reply| == 1 && reply[0].to == l.id
            && var next := Step(l, Receive(f.id, reply[0].message)).out;
               && |next| == 1 && next[0].to == f.id
               && next[0].message.AppendEntries? && next[0].message.prevIndex == |f.log|
  {
    var m := AppendFor(l, f.id).message;
    AppendCarries(l, f.id);
    AppendRefused(f, l.id, m);
    HintTaken(l, f.id, |f.log|);
  }
}
