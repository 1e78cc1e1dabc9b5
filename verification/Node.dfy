/** The node as the source has it: an object whose handlers update its fields in place, persist
    through its storage before returning any message, and loop over entries and indices. Every
    method is proved against the step function of `NodeSpec` that describes it, down to the order
    of its storage writes. */
module Node {
  import opened Types
  import opened Quorum
  import opened NodeSpec
  import opened Storage

  class Node {
    const id: NodeId
    const clusterSize: nat
    const maxBatch: nat
    const storage: MemStorage
    var term: Term
    var votedFor: Option<NodeId>
    var log: seq<Entry>
    var role: Role
    var leaderId: Option<NodeId>
    var commitIndex: Index
    var appliedIndex: Index
    var votes: seq<bool>
    var nextIndex: seq<Index>
    var matchIndex: seq<Index>

    function View(): NodeState
      reads this
    {
      NodeState(id, clusterSize, maxBatch, term, votedFor, log, role, leaderId, commitIndex, appliedIndex,
                votes, nextIndex, matchIndex)
    }

    ghost predicate Valid()
      reads this
    {
      Shape(View())
    }

    /** Since the given moment, exactly the writes `ws` reached the storage, in this order. */
    ghost predicate Wrote(trace: seq<Write>, disk: Persistent, ws: seq<Write>)
      reads storage
    {
      storage.trace == trace + ws && storage.disk == ApplyWrites(disk, ws)
    }

    lemma {:induction false} WroteMore(trace: seq<Write>, disk: Persistent, ws: seq<Write>,
                    trace': seq<Write>, disk': Persistent, more: seq<Write>)
      requires trace' == trace + ws && disk' == ApplyWrites(disk, ws) && Wrote(trace', disk', more)
      ensures Wrote(trace, disk, ws + more)
    {
      ApplyWritesConcat(disk, ws, more);
      Regroup(trace, ws, more);
    }

    /** Starts, or restarts after a crash, from whatever the storage holds. */
    constructor (id: NodeId, clusterSize: nat, maxBatch: nat, storage: MemStorage)
      requires id < clusterSize
      ensures Valid() && this.storage == storage
      ensures View() == Boot(id, clusterSize, maxBatch, storage.disk)
    {
      this.id, this.clusterSize, this.maxBatch, this.storage := id, clusterSize, maxBatch, storage;
      var p := storage.Load();
      term, votedFor, log := p.term, p.votedFor, p.log;
      role, leaderId := Follower, None;
      commitIndex, appliedIndex := 0, 0;
      votes := Filled(clusterSize, false);
      nextIndex := Filled(clusterSize, 1);
      matchIndex := Filled(clusterSize, 0);
    }

    method PersistHardState()
      modifies storage
      ensures Wrote(old(storage.trace), old(storage.disk), [SaveHardState(term, votedFor)])
    {
      storage.SaveHardState(term, votedFor);
      ApplyOne(old(storage.disk), SaveHardState(term, votedFor));
    }

    method PersistEntry(e: Entry)
      modifies storage
      ensures Wrote(old(storage.trace), old(storage.disk), [Append([e])])
    {
      storage.Append([e]);
      ApplyOne(old(storage.disk), Append([e]));
    }

    method StepDown(newTerm: Term)
      requires Valid()
      modifies this, storage
      ensures Valid() && View() == NodeSpec.StepDown(old(View()), newTerm).node
      ensures Wrote(old(storage.trace), old(storage.disk), NodeSpec.StepDown(old(View()), newTerm).writes)
    {
      term := newTerm;
      votedFor := None;
      PersistHardState();
      role := Follower;
      leaderId := None;
    }

    /** `due` says whether the deadline of the node's role has passed. */
    method Tick(due: bool) returns (out: seq<Outgoing>)
      requires Valid()
      modifies this, storage
      ensures var step := OnTick(old(View()), due);
              Valid() && View() == step.node && out == step.out &&
              Wrote(old(storage.trace), old(storage.disk), step.writes)
    {
      out := [];
      if due {
        if role == Leader {
          out := BroadcastAppend();
        } else {
          out := StartElection();
        }
      }
    }

    method StartElection() returns (out: seq<Outgoing>)
      requires Valid()
      modifies this, storage
      ensures var step := NodeSpec.StartElection(old(View()));
              Valid() && View() == step.node && out == step.out &&
              Wrote(old(storage.trace), old(storage.disk), step.writes)
    {
      term := term + 1;
      votedFor := Some(id);
      PersistHardState();
      role := Candidate;
      leaderId := None;
      votes := Filled(clusterSize, false);
      votes := votes[id := true];
      assert View() == Candidacy(old(View()));
      label saved:
      if CountTrue(votes) >= QuorumSize(clusterSize) {
        out := BecomeLeader();
        WroteMore(old(storage.trace), old(storage.disk), [SaveHardState(term, votedFor)],
                  old@saved(storage.trace), old@saved(storage.disk), NodeSpec.BecomeLeader(old@saved(View())).writes);
      } else {
        out := BroadcastVote();
      }
    }

    method BroadcastVote() returns (out: seq<Outgoing>)
      ensures out == NodeSpec.BroadcastVote(View(), clusterSize)
    {
      var request := RequestVote(term, |log|, LastTerm(log));
      out := [];
      for p := 0 to clusterSize
        invariant out == NodeSpec.BroadcastVote(View(), p)
      {
        if p != id {
          out := out + [Outgoing(p, request)];
        }
      }
    }

    method BecomeLeader() returns (out: seq<Outgoing>)
      requires Valid()
      modifies this, storage
      ensures var step := NodeSpec.BecomeLeader(old(View()));
              Valid() && View() == step.node && out == step.out &&
              Wrote(old(storage.trace), old(storage.disk), step.writes)
    {
      role := Leader;
      leaderId := Some(id);
      nextIndex := Filled(clusterSize, |log| + 1);
      matchIndex := Filled(clusterSize, 0);
      var noop := Entry(term, []);
      PersistEntry(noop);
      log := log + [noop];
      FilledIs(nextIndex, clusterSize, |old(log)| + 1);
      FilledIs(matchIndex, clusterSize, 0);
      assert View() == Crowned(old(View()));
      AdvanceCommit();
      out := BroadcastAppend();
    }

    method BroadcastAppend() returns (out: seq<Outgoing>)
      requires Valid() && role == Leader
      ensures out == NodeSpec.BroadcastAppend(View(), clusterSize)
    {
      out := [];
      for p := 0 to clusterSize
        invariant out == NodeSpec.BroadcastAppend(View(), p)
      {
        if p != id {
          out := out + [AppendFor(View(), p)];
        }
      }
    }

    /** Appends a client command and starts replicating it; it is not committed yet. */
    method Propose(command: seq<byte>) returns (r: Result<(Index, seq<Outgoing>), Option<NodeId>>)
      requires Valid()
      modifies this, storage
      ensures var step := OnPropose(old(View()), command);
              Valid() && View() == step.node && Wrote(old(storage.trace), old(storage.disk), step.writes) &&
              r == (if old(role) == Leader then Success((|log|, step.out)) else Failure(old(leaderId)))
    {
      if role != Leader {
        r := Failure(leaderId);
      } else {
        var e := Entry(term, command);
        PersistEntry(e);
        log := log + [e];
        assert View() == Lengthened(old(View()), command);
        AdvanceCommit();
        var out := BroadcastAppend();
        r := Success((|log|, out));
      }
    }

    method Handle(from: NodeId, msg: Message) returns (out: seq<Outgoing>)
      requires Valid()
      modifies this, storage
      ensures var step := NodeSpec.Handle(old(View()), from, msg);
              Valid() && View() == step.node && out == step.out &&
              Wrote(old(storage.trace), old(storage.disk), step.writes)
    {
      if from == id || from >= clusterSize {
        out := [];
      } else if msg.term > term {
        StepDown(msg.term);
        label down:
        out := Dispatch(from, msg);
        WroteMore(old(storage.trace), old(storage.disk), [SaveHardState(msg.term, None)],
                  old@down(storage.trace), old@down(storage.disk), OnMessage(old@down(View()), from, msg).writes);
      } else {
        out := Dispatch(from, msg);
      }
    }

    method Dispatch(from: NodeId, msg: Message) returns (out: seq<Outgoing>)
      requires Valid() && from < clusterSize
      modifies this, storage
      ensures var step := OnMessage(old(View()), from, msg);
              Valid() && View() == step.node && out == step.out &&
              Wrote(old(storage.trace), old(storage.disk), step.writes)
    {
      match msg {
        case RequestVote(t, index, last) => out := OnRequestVote(from, t, index, last);
        case VoteResponse(t, granted) => out := OnVoteResponse(from, t, granted);
        case AppendEntries(t, prev, prevTerm, entries, commit) =>
          out := OnAppendEntries(from, t, prev, prevTerm, entries, commit);
        case AppendResponse(t, success, index) => out := OnAppendResponse(from, t, success, index);
      }
    }

    method OnRequestVote(from: NodeId, t: Term, lastLogIndex: Index, lastLogTerm: Term) returns (out: seq<Outgoing>)
      requires Valid()
      modifies this, storage
      ensures var step := NodeSpec.OnRequestVote(old(View()), from, t, lastLogIndex, lastLogTerm);
              Valid() && View() == step.node && out == step.out &&
              Wrote(old(storage.trace), old(storage.disk), step.writes)
    {
      var granted := false;
      if t == term {
        var upToDate := UpToDate(lastLogIndex, lastLogTerm, log);
        var canVote := votedFor.None? || votedFor == Some(from);
        if canVote && upToDate {
          votedFor := Some(from);
          PersistHardState();
          granted := true;
        }
      }
      out := [Outgoing(from, VoteResponse(term, granted))];
    }

    method OnVoteResponse(from: NodeId, t: Term, granted: bool) returns (out: seq<Outgoing>)
      requires Valid() && from < clusterSize
      modifies this, storage
      ensures var step := NodeSpec.OnVoteResponse(old(View()), from, t, granted);
              Valid() && View() == step.node && out == step.out &&
              Wrote(old(storage.trace), old(storage.disk), step.writes)
    {
      out := [];
      if role == Candidate && t == term && granted {
        votes := votes[from := true];
        if CountTrue(votes) >= QuorumSize(clusterSize) {
          out := BecomeLeader();
        }
      }
    }

    method OnAppendEntries(from: NodeId, t: Term, prev: Index, prevTerm: Term, entries: seq<Entry>, leaderCommit: Index)
      returns (out: seq<Outgoing>)
      requires Valid()
      modifies this, storage
      ensures var step := NodeSpec.OnAppendEntries(old(View()), from, t, prev, prevTerm, entries, leaderCommit);
              Valid() && View() == step.node && out == step.out &&
              Wrote(old(storage.trace), old(storage.disk), step.writes)
    {
      if t < term {
        return [Outgoing(from, AppendResponse(term, false, 0))];
      }
      role := Follower;
      leaderId := Some(from);
      if prev > |log| {
        return [Outgoing(from, AppendResponse(term, false, |log|))];
      }
      if TermAt(log, prev) != prevTerm {
        return [Outgoing(from, AppendResponse(term, false, if prev == 0 then 0 else prev - 1))];
      }
      MergeEntries(prev, entries);
      var matched := prev + |entries|;
      if leaderCommit > commitIndex {
        commitIndex := if leaderCommit <= matched then leaderCommit else matched;
      }
      out := [Outgoing(from, AppendResponse(term, true, matched))];
    }

    /** The loop of the append handler: skip what the log already has, truncate at the first genuine
        conflict, append the rest. */
    method MergeEntries(prev: Index, entries: seq<Entry>)
      requires prev <= |log|
      modifies this`log, storage
      ensures log == Merge(old(log), prev, entries)
      ensures Wrote(old(storage.trace), old(storage.disk), MergeWrites(old(log), prev, entries))
    {
      var k := 0;
      while k < |entries|
        invariant k <= |entries| && prev + k <= |log| && log == old(log)
        invariant KeptSoFar(log, prev, entries, k)
        invariant storage.trace == old(storage.trace) && storage.disk == old(storage.disk)
      {
        var idx := prev + 1 + k;
        if idx <= |log| {
          if TermAt(log, idx) == entries[k].term {
            KeptMore(log, prev, entries, k);
            k := k + 1;
            continue;
          }
          storage.TruncateFrom(idx);
          log := log[..idx - 1];
        }
        MergeAt(old(log), old(storage.disk), prev, entries, k);
        ThenOne(old(storage.trace), TruncateFrom(idx), Append(entries[k..]));
        storage.Append(entries[k..]);
        log := log + entries[k..];
        assert log == old(log)[..prev + k] + entries[k..];
        return;
      }
      MergeAt(log, storage.disk, prev, entries, k);
    }

    method OnAppendResponse(from: NodeId, t: Term, success: bool, index: Index) returns (out: seq<Outgoing>)
      requires Valid() && from < clusterSize
      modifies this, storage
      ensures var step := NodeSpec.OnAppendResponse(old(View()), from, t, success, index);
              Valid() && View() == step.node && out == step.out &&
              Wrote(old(storage.trace), old(storage.disk), step.writes)
    {
      out := [];
      if role != Leader || t != term {
        return;
      }
      if success {
        var m := if index <= |log| then index else |log|;
        matchIndex := matchIndex[from := if matchIndex[from] >= m then matchIndex[from] else m];
        nextIndex := nextIndex[from := matchIndex[from] + 1];
        assert View() == Noted(old(View()), from, true, index);
        AdvanceCommit();
        if nextIndex[from] <= |log| {
          out := [AppendFor(View(), from)];
        }
      } else {
        var lowest := matchIndex[from] + 1;
        var hinted := if nextIndex[from] <= index + 1 then nextIndex[from] else index + 1;
        nextIndex := nextIndex[from := if lowest >= hinted then lowest else hinted];
        assert View() == Noted(old(View()), from, false, index);
        out := [AppendFor(View(), from)];
      }
    }

    /** Commits the highest entry of the current term stored on a majority, scanning downwards. */
    method AdvanceCommit()
      requires Valid()
      modifies this`commitIndex
      ensures Valid() && View() == NodeSpec.AdvanceCommit(old(View()))
    {
      var k: nat := |log|;
      while k > commitIndex
        invariant k <= |log| && View() == old(View())
        invariant CommitScan(View(), |log|) == CommitScan(View(), k)
      {
        if TermAt(log, k) != term {
          break;
        }
        if Replicas(View(), k) >= QuorumSize(clusterSize) {
          commitIndex := k;
          break;
        }
        k := k - 1;
      }
    }

    /** The entries committed since the last call, with their indices. */
    method TakeCommitted() returns (out: seq<(Index, Entry)>)
      requires Valid() && commitIndex <= |log|
      modifies this`appliedIndex
      ensures Valid() && View() == Delivered(old(View())) && out == Delivery(old(View()))
    {
      out := [];
      if appliedIndex < commitIndex {
        for i := appliedIndex to commitIndex
          invariant View() == old(View()) && out == DeliveryUpTo(View(), i)
        {
          out := out + [(i + 1, log[i])];
        }
      }
      appliedIndex := commitIndex;
    }
  }

  /** The merge loop has found the first `k` entries in place. */
  ghost predicate KeptSoFar(log: seq<Entry>, prev: Index, entries: seq<Entry>, k: nat) {
    && prev + k <= |log| && k <= |entries|
    && Kept(log, prev, entries) == k + Kept(log, prev + k, entries[k..])
  }

  lemma KeptMore(log: seq<Entry>, prev: Index, entries: seq<Entry>, k: nat)
    requires KeptSoFar(log, prev, entries, k) && k < |entries| && prev + k < |log|
    requires log[prev + k].term == entries[k].term
    ensures KeptSoFar(log, prev, entries, k + 1)
  {
    assert entries[k..][1..] == entries[k + 1..];
  }

  /** Where the loop stops is where the merge splices, and these are its writes. */
  lemma {:induction false} MergeAt(log: seq<Entry>, disk: Persistent, prev: Index, entries: seq<Entry>, k: nat)
    requires KeptSoFar(log, prev, entries, k)
    requires k == |entries| || prev + k == |log| || log[prev + k].term != entries[k].term
    ensures Merge(log, prev, entries) == if k == |entries| then log else log[..prev + k] + entries[k..]
    ensures var ws := MergeWrites(log, prev, entries);
            if k == |entries| then ws == [] && ApplyWrites(disk, ws) == disk
            else if prev + k < |log| then
              && ws == [TruncateFrom(prev + k + 1), Append(entries[k..])]
              && ApplyWrites(disk, ws) == ApplyWrite(ApplyWrite(disk, ws[0]), ws[1])
            else ws == [Append(entries[k..])] && ApplyWrites(disk, ws) == ApplyWrite(disk, ws[0])
  {
    assert Kept(log, prev, entries) == k;
    if k < |entries| {
      ApplyOne(disk, Append(entries[k..]));
      ApplyTwo(disk, TruncateFrom(prev + k + 1), Append(entries[k..]));
    }
  }

  lemma Regroup<T>(x: seq<T>, y: seq<T>, z: seq<T>)
    ensures x + y + z == x + (y + z)
  {
  }

  lemma ThenOne<T>(s: seq<T>, x: T, y: T)
    ensures s + [x] + [y] == s + [x, y]
  {
  }

  lemma FilledIs<T>(s: seq<T>, n: nat, x: T)
    requires |s| == n && forall i :: 0 <= i < n ==> s[i] == x
    ensures s == Filled(n, x)
  {
  }
}
