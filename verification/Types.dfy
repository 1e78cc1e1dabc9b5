/** The values every part of the system shares: log entries, the four consensus messages, and
    the durable record of one node together with the writes that change it. */
module Types {

  newtype byte = x: int | 0 <= x < 0x100

  type NodeId = nat
  type Term = nat
  /** A position in a log, counted from 1; position 0 precedes every entry. */
  type Index = nat

  datatype Option<+T> = None | Some(value: T)

  datatype Result<+R, +E> = Success(value: R) | Failure(error: E) {
    predicate IsFailure() { Failure? }

    function PropagateFailure<U>(): Result<U, E>
      requires Failure?
    {
      Failure(error)
    }

    function Extract(): R
      requires Success?
    {
      value
    }
  }

  /** `command` is opaque to consensus; the no-op of a new leader is the empty command. */
  datatype Entry = Entry(term: Term, command: seq<byte>)

  datatype Message =
    | RequestVote(term: Term, lastLogIndex: Index, lastLogTerm: Term)
    | VoteResponse(term: Term, granted: bool)
    | AppendEntries(term: Term, prevIndex: Index, prevTerm: Term, entries: seq<Entry>, leaderCommit: Index)
    | AppendResponse(term: Term, success: bool, matchIndex: Index)

  datatype Outgoing = Outgoing(to: NodeId, message: Message)

  /** What survives a crash. The log's entry at position `x` is element `x - 1` of the sequence. */
  datatype Persistent = Persistent(term: Term, votedFor: Option<NodeId>, log: seq<Entry>)

  /** One call on the storage; each is durable and atomic. */
  datatype Write =
    | SaveHardState(term: Term, votedFor: Option<NodeId>)
    | Append(entries: seq<Entry>)
    | TruncateFrom(index: Index)

  const EMPTY_DISK := Persistent(0, None, [])

  function Truncate<T>(s: seq<T>, len: nat): seq<T> {
    if len < |s| then s[..len] else s
  }

  function ApplyWrite(p: Persistent, w: Write): Persistent {
    match w
    case SaveHardState(term, votedFor) => p.(term := term, votedFor := votedFor)
    case Append(entries) => p.(log := p.log + entries)
    case TruncateFrom(index) => p.(log := Truncate(p.log, if index == 0 then 0 else index - 1))
  }

  function ApplyWrites(p: Persistent, ws: seq<Write>): Persistent {
    if ws == [] then p else ApplyWrite(ApplyWrites(p, ws[..|ws| - 1]), ws[|ws| - 1])
  }

  lemma {:induction false} ApplyWritesConcat(p: Persistent, ws: seq<Write>, more: seq<Write>)
    ensures ApplyWrites(p, ws + more) == ApplyWrites(ApplyWrites(p, ws), more)
  {
    if more == [] {
      assert ws + more == ws;
    } else {
      var front, last := more[..|more| - 1], more[|more| - 1];
      ApplyWritesConcat(p, ws, front);
      assert (ws + more)[..|ws + more| - 1] == ws + front;
    }
  }

  lemma {:induction false} ApplyOne(p: Persistent, w: Write)
    ensures ApplyWrites(p, [w]) == ApplyWrite(p, w)
  {
    assert [w][..0] == [];
  }

  lemma {:induction false} ApplyTwo(p: Persistent, w: Write, w': Write)
    ensures ApplyWrites(p, [w, w']) == ApplyWrite(ApplyWrite(p, w), w')
  {
    assert [w, w'][..1] == [w];
    ApplyOne(p, w);
  }

  function TermAt(log: seq<Entry>, index: Index): Term
    requires index <= |log|
  {
    if index == 0 then 0 else log[index - 1].term
  }

  function LastTerm(log: seq<Entry>): Term {
    TermAt(log, |log|)
  }

  /** The test for granting a vote (section 5.4.1 of the Raft paper): a log that ends with an entry of
      `lastTerm` at `lastIndex` is at least as up to date as the voter's. */
  predicate UpToDate(lastIndex: Index, lastTerm: Term, voter: seq<Entry>) {
    lastTerm > LastTerm(voter) || (lastTerm == LastTerm(voter) && lastIndex >= |voter|)
  }

  predicate LogUpToDate(candidate: seq<Entry>, voter: seq<Entry>) {
    UpToDate(|candidate|, LastTerm(candidate), voter)
  }
}
