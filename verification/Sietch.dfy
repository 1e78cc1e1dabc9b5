/** The storage on a real disk: an ordered map from byte keys to byte values whose batches are atomic.
    It refines the plain record of `Types`: big-endian keys make scan order index order, so loading
    after any sequence of writes and reopenings gives back exactly the term, vote and log written. */
module Sietch {
  import opened Types
  import opened Bytes
  import opened Keys

  datatype LogOp = Put(key: Key, value: seq<byte>) | Delete(key: Key)

  const HARD_STATE_KEY: Key := [104]
  const NO_VOTE := U64 - 1

  // ---------------------------------------------------------------- what the table stands for

  function VoteCode(v: Option<NodeId>): nat {
    match v
    case None => NO_VOTE
    case Some(n) => n
  }

  function HardState(term: Term, votedFor: Option<NodeId>): seq<byte> {
    ToLe(term, 8) + ToLe(VoteCode(votedFor), 8)
  }

  function EntryValue(e: Entry): seq<byte> {
    ToLe(e.term, 8) + e.command
  }

  /** What the 64-bit fields of the source can hold; the highest id is the code for "no vote". */
  predicate Storable(p: Persistent) {
    && p.term < U64 && |p.log| < U64
    && (p.votedFor.Some? ==> p.votedFor.value < NO_VOTE)
    && forall e :: e in p.log ==> e.term < U64
  }

  ghost predicate HardStateIs(t: Table, p: Persistent) {
    if HARD_STATE_KEY in t then t[HARD_STATE_KEY] == HardState(p.term, p.votedFor)
    else p.term == 0 && p.votedFor == None
  }

  function At(t: Table, k: Key): Option<seq<byte>> {
    if k in t then Some(t[k]) else None
  }

  ghost predicate EntryAt(t: Table, log: seq<Entry>, i: Index)
    requires 1 <= i <= |log|
  {
    At(t, EntryKey(i)) == Some(EntryValue(log[i - 1]))
  }

  ghost predicate IsEntryKey(k: Key, first: Index, last: Index) {
    exists i: Index :: first <= i <= last && k == EntryKey(i)
  }

  ghost predicate LogIs(t: Table, log: seq<Entry>) {
    && (forall i: Index :: 1 <= i <= |log| ==> EntryAt(t, log, i))
    && (forall k :: k in t && [ENTRY_PREFIX] <= k ==> IsEntryKey(k, 1, |log|))
  }

  ghost predicate Represents(t: Table, p: Persistent) {
    Storable(p) && HardStateIs(t, p) && LogIs(t, p.log)
  }

  function Pairs(log: seq<Entry>): (s: seq<(Key, seq<byte>)>)
    ensures |s| == |log|
    ensures forall i :: 0 <= i < |log| ==> s[i] == (EntryKey(i + 1), EntryValue(log[i]))
  {
    seq(|log|, i requires 0 <= i < |log| => (EntryKey(i + 1), EntryValue(log[i])))
  }

  lemma PairsAreScan(t: Table, p: Persistent)
    requires Represents(t, p)
    ensures IsScan(t, [ENTRY_PREFIX], Pairs(p.log))
  {
    var s := Pairs(p.log);
    forall i, j | 0 <= i < j < |s| ensures LexLess(s[i].0, s[j].0) {
      KeyOrder(i + 1, j + 1);
    }
    forall q ensures q in s <==> q.0 in t && t[q.0] == q.1 && [ENTRY_PREFIX] <= q.0 {
      if q in s {
        var i :| 0 <= i < |s| && s[i] == q;
        assert EntryAt(t, p.log, i + 1);
      }
      if q.0 in t && t[q.0] == q.1 && [ENTRY_PREFIX] <= q.0 {
        assert IsEntryKey(q.0, 1, |p.log|);
        var i: Index :| 1 <= i <= |p.log| && q.0 == EntryKey(i);
        assert EntryAt(t, p.log, i);
        assert s[i - 1] == q;
      }
    }
  }

  /** The assertion in `load` that the log has no gap and no misplaced entry never fails: the scan is
      the entries in order. */
  lemma ScanIsLog(t: Table, p: Persistent, s: seq<(Key, seq<byte>)>)
    requires Represents(t, p) && IsScan(t, [ENTRY_PREFIX], s)
    ensures s == Pairs(p.log)
  {
    PairsAreScan(t, p);
    SortedUnique(s, Pairs(p.log));
  }

  // ---------------------------------------------------------------- writes as batches

  function ApplyOp(t: Table, op: LogOp): Table {
    match op
    case Put(k, v) => t[k := v]
    case Delete(k) => t - {k}
  }

  function ApplyOps(t: Table, ops: seq<LogOp>): Table {
    if ops == [] then t else ApplyOp(ApplyOps(t, ops[..|ops| - 1]), ops[|ops| - 1])
  }

  function PutOps(last: Index, entries: seq<Entry>): (ops: seq<LogOp>)
    ensures |ops| == |entries|
  {
    seq(|entries|, i requires 0 <= i < |entries| => Put(EntryKey(last + 1 + i), EntryValue(entries[i])))
  }

  function DeleteOps(index: Index, last: Index): (ops: seq<LogOp>)
    requires index <= last + 1
    ensures |ops| == last + 1 - index
  {
    seq(last + 1 - index, i requires 0 <= i < last + 1 - index => Delete(EntryKey(index + i)))
  }

  lemma {:induction false} PutLast(t: Table, last: Index, entries: seq<Entry>)
    requires entries != []
    ensures var n := |entries| - 1;
            ApplyOps(t, PutOps(last, entries)) ==
            ApplyOps(t, PutOps(last, entries[..n]))[EntryKey(last + |entries|) := EntryValue(entries[n])]
  {
    var ops := PutOps(last, entries);
    assert ops[..|ops| - 1] == PutOps(last, entries[..|entries| - 1]);
  }

  lemma {:induction false} PutsKeep(t: Table, last: Index, entries: seq<Entry>, k: Key)
    requires !IsEntryKey(k, last + 1, last + |entries|)
    ensures At(ApplyOps(t, PutOps(last, entries)), k) == At(t, k)
  {
    if entries != [] {
      PutLast(t, last, entries);
      assert k != EntryKey(last + |entries|);
      PutsKeep(t, last, entries[..|entries| - 1], k);
    }
  }

  lemma {:induction false} PutsSet(t: Table, last: Index, entries: seq<Entry>, i: nat)
    requires i < |entries| && last + |entries| < U64
    ensures At(ApplyOps(t, PutOps(last, entries)), EntryKey(last + 1 + i)) == Some(EntryValue(entries[i]))
  {
    PutLast(t, last, entries);
    if i < |entries| - 1 {
      PutsSet(t, last, entries[..|entries| - 1], i);
      if EntryKey(last + 1 + i) == EntryKey(last + |entries|) {
        KeysDistinct(last + 1 + i, last + |entries|);
      }
    }
  }

  lemma {:induction false} DeletesApplied(t: Table, index: Index, last: Index, k: Key)
    requires index <= last + 1
    ensures At(ApplyOps(t, DeleteOps(index, last)), k) == if IsEntryKey(k, index, last) then None else At(t, k)
    decreases last
  {
    if index < last {
      DeletesApplied(t, index, last - 1, k);
      DeleteLast(t, index, last);
      LastEntryKey(k, index, last);
    } else if index == last {
      DeleteOnly(t, index);
      OneEntryKey(k, index);
    }
  }

  lemma {:induction false} DeleteLast(t: Table, index: Index, last: Index)
    requires index < last
    ensures ApplyOps(t, DeleteOps(index, last)) == ApplyOps(t, DeleteOps(index, last - 1)) - {EntryKey(last)}
  {
    var ops := DeleteOps(index, last);
    assert ops[..|ops| - 1] == DeleteOps(index, last - 1);
  }

  lemma {:induction false} DeleteOnly(t: Table, index: Index)
    ensures ApplyOps(t, DeleteOps(index, index)) == t - {EntryKey(index)}
  {
    assert DeleteOps(index, index)[..0] == [];
  }

  lemma LastEntryKey(k: Key, index: Index, last: Index)
    requires index < last
    ensures IsEntryKey(k, index, last) <==> IsEntryKey(k, index, last - 1) || k == EntryKey(last)
  {
  }

  lemma OneEntryKey(k: Key, index: Index)
    ensures IsEntryKey(k, index, index) <==> k == EntryKey(index)
  {
  }

  lemma NotAnEntryKey(i: Index)
    ensures EntryKey(i) != HARD_STATE_KEY && [ENTRY_PREFIX] <= EntryKey(i) && !([ENTRY_PREFIX] <= HARD_STATE_KEY)
  {
    assert EntryKey(i)[0] == ENTRY_PREFIX;
  }

  /** The batch of one storage call, as the code builds it. */
  function OpsOf(last: Index, w: Write): seq<LogOp> {
    match w
    case SaveHardState(term, votedFor) => [Put(HARD_STATE_KEY, HardState(term, votedFor))]
    case Append(entries) => PutOps(last, entries)
    case TruncateFrom(index) => if index > last then [] else DeleteOps(index, last)
  }

  function LastAfter(last: Index, w: Write): Index {
    match w
    case SaveHardState(_, _) => last
    case Append(entries) => last + |entries|
    case TruncateFrom(index) => if index > last then last else if index == 0 then 0 else index - 1
  }

  lemma {:induction false} SaveRefines(t: Table, p: Persistent, term: Term, votedFor: Option<NodeId>)
    requires Represents(t, p) && Storable(p.(term := term, votedFor := votedFor))
    ensures Represents(ApplyOps(t, OpsOf(|p.log|, SaveHardState(term, votedFor))),
                       p.(term := term, votedFor := votedFor))
  {
    var op := Put(HARD_STATE_KEY, HardState(term, votedFor));
    assert [op][..0] == [];
    var t' := t[HARD_STATE_KEY := HardState(term, votedFor)];
    assert ApplyOps(t, [op]) == t';
    forall i: Index | 1 <= i <= |p.log| ensures EntryAt(t', p.log, i) {
      NotAnEntryKey(i);
      assert EntryAt(t, p.log, i);
    }
    NotAnEntryKey(1);
  }

  lemma {:induction false} AppendRefines(t: Table, p: Persistent, entries: seq<Entry>)
    requires Represents(t, p) && Storable(p.(log := p.log + entries))
    ensures Represents(ApplyOps(t, PutOps(|p.log|, entries)), p.(log := p.log + entries))
  {
    var last, log := |p.log|, p.log + entries;
    var t' := ApplyOps(t, PutOps(last, entries));
    HardStateUntouched(last + 1, last + |entries|);
    PutsKeep(t, last, entries, HARD_STATE_KEY);
    assert At(t', HARD_STATE_KEY) == At(t, HARD_STATE_KEY);
    forall i: Index | 1 <= i <= |log| ensures EntryAt(t', log, i) {
      if i <= last {
        OtherKey(i, last + 1, last + |entries|);
        PutsKeep(t, last, entries, EntryKey(i));
        assert EntryAt(t, p.log, i);
      } else {
        PutsSet(t, last, entries, i - last - 1);
      }
    }
    forall k | k in t' && [ENTRY_PREFIX] <= k ensures IsEntryKey(k, 1, |log|) {
      if !IsEntryKey(k, last + 1, last + |entries|) {
        PutsKeep(t, last, entries, k);
        assert At(t', k) == At(t, k);
        assert IsEntryKey(k, 1, last);
      }
    }
  }

  lemma OtherKey(i: Index, first: Index, last: Index)
    requires i < U64 && last < U64 && !(first <= i <= last)
    ensures !IsEntryKey(EntryKey(i), first, last)
  {
    if IsEntryKey(EntryKey(i), first, last) {
      var j: Index :| first <= j <= last && EntryKey(i) == EntryKey(j);
      KeysDistinct(i, j);
    }
  }

  lemma HardStateUntouched(first: Index, last: Index)
    ensures !IsEntryKey(HARD_STATE_KEY, first, last)
  {
    forall i: Index ensures HARD_STATE_KEY != EntryKey(i) {
      NotAnEntryKey(i);
    }
  }

  lemma {:induction false} TruncateRefines(t: Table, p: Persistent, index: Index)
    requires Represents(t, p) && index <= |p.log|
    ensures Represents(ApplyOps(t, DeleteOps(index, |p.log|)), ApplyWrite(p, TruncateFrom(index)))
  {
    var last, keep := |p.log|, if index == 0 then 0 else index - 1;
    var log := p.log[..keep];
    var t' := ApplyOps(t, DeleteOps(index, last));
    HardStateUntouched(index, last);
    DeletesApplied(t, index, last, HARD_STATE_KEY);
    assert At(t', HARD_STATE_KEY) == At(t, HARD_STATE_KEY);
    forall i: Index | 1 <= i <= |log| ensures EntryAt(t', log, i) {
      OtherKey(i, index, last);
      DeletesApplied(t, index, last, EntryKey(i));
      assert EntryAt(t, p.log, i);
    }
    forall k | k in t' && [ENTRY_PREFIX] <= k ensures IsEntryKey(k, 1, |log|) {
      DeletesApplied(t, index, last, k);
      assert At(t', k) == At(t, k) && !IsEntryKey(k, index, last);
      assert IsEntryKey(k, 1, last);
    }
  }

  /** One storage call does to the table what the write does to the record. */
  lemma {:induction false} WriteRefines(t: Table, p: Persistent, w: Write)
    requires Represents(t, p) && Storable(ApplyWrite(p, w))
    ensures Represents(ApplyOps(t, OpsOf(|p.log|, w)), ApplyWrite(p, w))
    ensures LastAfter(|p.log|, w) == |ApplyWrite(p, w).log|
  {
    match w
    case SaveHardState(term, votedFor) => SaveRefines(t, p, term, votedFor);
    case Append(entries) => AppendRefines(t, p, entries);
    case TruncateFrom(index) =>
      if index <= |p.log| {
        TruncateRefines(t, p, index);
      } else {
        assert ApplyWrite(p, w) == p;
      }
  }

  // ---------------------------------------------------------------- loading

  /** The three ways `load` stops the node. */
  datatype Corrupt = BadHardState | GapInLog | ShortEntry

  function ReadHardState(b: Option<seq<byte>>): Result<(Term, Option<NodeId>), Corrupt> {
    match b
    case None => Success((0, None))
    case Some(v) =>
      if |v| != 16 then Failure(BadHardState)
      else
        var vote := FromLe(v[8..]);
        Success((FromLe(v[..8]), if vote != NO_VOTE then Some(vote) else None))
  }

  function ReadEntry(value: seq<byte>): Entry
    requires |value| >= 8
  {
    Entry(FromLe(value[..8]), value[8..])
  }

  function ReadLog(pairs: seq<(Key, seq<byte>)>): (r: Result<seq<Entry>, Corrupt>)
    ensures r.Success? ==> |r.value| == |pairs|
  {
    if pairs == [] then Success([])
    else
      var log :- ReadLog(pairs[..|pairs| - 1]);
      var (key, value) := pairs[|pairs| - 1];
      if key != EntryKey(|pairs|) then Failure(GapInLog)
      else if |value| < 8 then Failure(ShortEntry)
      else Success(log + [ReadEntry(value)])
  }

  function Loaded(t: Table, pairs: seq<(Key, seq<byte>)>): Result<Persistent, Corrupt> {
    var hard :- ReadHardState(At(t, HARD_STATE_KEY));
    var log :- ReadLog(pairs);
    Success(Persistent(hard.0, hard.1, log))
  }

  lemma HardStateRoundTrip(term: Term, votedFor: Option<NodeId>)
    requires term < U64 && (votedFor.Some? ==> votedFor.value < NO_VOTE)
    ensures ReadHardState(Some(HardState(term, votedFor))) == Success((term, votedFor))
  {
    PowerValues();
    var v := HardState(term, votedFor);
    assert v[..8] == ToLe(term, 8) && v[8..] == ToLe(VoteCode(votedFor), 8);
    LeRoundTrip(term, 8);
    LeRoundTrip(VoteCode(votedFor), 8);
  }

  lemma HardStateUnique(v: seq<byte>)
    requires ReadHardState(Some(v)).Success?
    ensures var (term, votedFor) := ReadHardState(Some(v)).value;
            && term < U64 && (votedFor.Some? ==> votedFor.value < NO_VOTE) && v == HardState(term, votedFor)
  {
    PowerValues();
    LeUnique(v[..8]);
    LeUnique(v[8..]);
    assert v == v[..8] + v[8..];
  }

  lemma EntryRoundTrip(e: Entry)
    requires e.term < U64
    ensures ReadEntry(EntryValue(e)) == e
  {
    PowerValues();
    LeRoundTrip(e.term, 8);
    assert EntryValue(e)[..8] == ToLe(e.term, 8) && EntryValue(e)[8..] == e.command;
  }

  lemma EntryUnique(value: seq<byte>)
    requires |value| >= 8
    ensures EntryValue(ReadEntry(value)) == value && ReadEntry(value).term < U64
  {
    PowerValues();
    LeUnique(value[..8]);
    assert value == value[..8] + value[8..];
  }

  lemma {:induction false} ReadLogMore(pairs: seq<(Key, seq<byte>)>, value: seq<byte>)
    requires ReadLog(pairs).Success? && |value| >= 8
    ensures ReadLog(pairs + [(EntryKey(|pairs| + 1), value)]) == Success(ReadLog(pairs).value + [ReadEntry(value)])
  {
    var more := pairs + [(EntryKey(|pairs| + 1), value)];
    assert more[..|more| - 1] == pairs;
  }

  lemma ReadOneMore(front: seq<Entry>, last: Entry)
    requires ReadLog(Pairs(front)) == Success(front) && last.term < U64
    ensures ReadLog(Pairs(front + [last])) == Success(front + [last])
  {
    EntryRoundTrip(last);
    ReadLogMore(Pairs(front), EntryValue(last));
    PairsGrow(front, last);
  }

  lemma {:induction false} PairsRead(log: seq<Entry>)
    requires forall e :: e in log ==> e.term < U64
    ensures ReadLog(Pairs(log)) == Success(log)
  {
    if log != [] {
      var front, last := log[..|log| - 1], log[|log| - 1];
      PairsRead(front);
      ReadOneMore(front, last);
      assert log == front + [last];
    }
  }

  lemma {:induction false} ReadLogStep(pairs: seq<(Key, seq<byte>)>)
    requires pairs != [] && ReadLog(pairs).Success?
    ensures ReadLog(pairs[..|pairs| - 1]).Success?
    ensures |pairs[|pairs| - 1].1| >= 8 && pairs[|pairs| - 1].0 == EntryKey(|pairs|)
    ensures ReadLog(pairs).value == ReadLog(pairs[..|pairs| - 1]).value + [ReadEntry(pairs[|pairs| - 1].1)]
  {
  }

  lemma PairsGrow(log: seq<Entry>, e: Entry)
    ensures Pairs(log + [e]) == Pairs(log) + [(EntryKey(|log| + 1), EntryValue(e))]
  {
  }

  lemma {:induction false} ReadIsPairs(pairs: seq<(Key, seq<byte>)>, log: seq<Entry>)
    requires ReadLog(pairs) == Success(log)
    ensures pairs == Pairs(log) && forall e :: e in log ==> e.term < U64
  {
    if pairs != [] {
      var front, value := pairs[..|pairs| - 1], pairs[|pairs| - 1].1;
      ReadLogStep(pairs);
      ReadIsPairs(front, ReadLog(front).value);
      EntryUnique(value);
      PairsGrow(ReadLog(front).value, ReadEntry(value));
      assert pairs == front + [pairs[|pairs| - 1]];
    }
  }

  lemma PairsAreLog(t: Table, log: seq<Entry>)
    requires IsScan(t, [ENTRY_PREFIX], Pairs(log))
    ensures LogIs(t, log)
  {
    var s := Pairs(log);
    forall i: Index | 1 <= i <= |log| ensures EntryAt(t, log, i) {
      assert s[i - 1] in s;
    }
    forall k | k in t && [ENTRY_PREFIX] <= k ensures IsEntryKey(k, 1, |log|) {
      assert (k, t[k]) in s;
      var i :| 0 <= i < |s| && s[i] == (k, t[k]);
      assert k == EntryKey(i + 1);
    }
  }

  /** `load` succeeds exactly on the tables that stand for a record, and returns that record: no
      table with a gap, a misplaced or shortened entry or a malformed hard state is accepted, and
      none that the other three operations leave behind is refused. */
  lemma LoadExactly(t: Table, s: seq<(Key, seq<byte>)>, p: Persistent)
    requires IsScan(t, [ENTRY_PREFIX], s) && |s| < U64
    ensures Loaded(t, s) == Success(p) <==> Represents(t, p)
  {
    if Represents(t, p) {
      ScanIsLog(t, p, s);
      PairsRead(p.log);
      if HARD_STATE_KEY in t {
        HardStateRoundTrip(p.term, p.votedFor);
      }
    }
    if Loaded(t, s) == Success(p) {
      ReadIsPairs(s, p.log);
      PairsAreLog(t, p.log);
      if HARD_STATE_KEY in t {
        HardStateUnique(t[HARD_STATE_KEY]);
      }
    }
  }

  // ---------------------------------------------------------------- whole sessions

  datatype Call = Persist(write: Write) | Reopen

  /** What the storage object and the disk under it hold: the table, and the cached last index. */
  datatype Device = Device(table: Table, last: Index)

  ghost predicate IsCall(d: Device, call: Call, d': Device) {
    match call
    case Persist(w) => d' == Device(ApplyOps(d.table, OpsOf(d.last, w)), LastAfter(d.last, w))
    case Reopen => d'.table == d.table && exists s :: IsScan(d.table, [ENTRY_PREFIX], s) && d'.last == |s|
  }

  /** The record the same calls build when nothing is ever encoded. */
  function PlainAfter(calls: seq<Call>): Persistent {
    if calls == [] then EMPTY_DISK
    else
      var p := PlainAfter(calls[..|calls| - 1]);
      match calls[|calls| - 1]
      case Persist(w) => ApplyWrite(p, w)
      case Reopen => p
  }

  ghost predicate IsSession(ds: seq<Device>, calls: seq<Call>) {
    && |ds| == |calls| + 1 && ds[0] == Device(map[], 0)
    && forall i :: 0 <= i < |calls| ==> IsCall(ds[i], calls[i], ds[i + 1])
  }

  /** For every sequence of saves, appends, truncations and reopenings from an empty disk, loading
      gives exactly the record that the same calls build in memory. */
  lemma {:induction false} SessionRefines(ds: seq<Device>, calls: seq<Call>)
    requires IsSession(ds, calls)
    requires forall i :: 0 <= i <= |calls| ==> Storable(PlainAfter(calls[..i]))
    ensures var d, p := ds[|calls|], PlainAfter(calls);
            && Represents(d.table, p) && d.last == |p.log|
            && forall s :: IsScan(d.table, [ENTRY_PREFIX], s) ==> Loaded(d.table, s) == Success(p)
  {
    assert calls[..|calls|] == calls;
    var n := |calls| - 1;
    var p := PlainAfter(calls);
    if calls != [] {
      var front := calls[..n];
      forall i | 0 <= i <= n ensures Storable(PlainAfter(front[..i])) {
        assert front[..i] == calls[..i];
      }
      SessionRefines(ds[..|ds| - 1], front);
      CallRefines(ds[n], PlainAfter(front), calls[n], ds[n + 1], p);
    }
    forall s | IsScan(ds[|calls|].table, [ENTRY_PREFIX], s) ensures Loaded(ds[|calls|].table, s) == Success(p) {
      ScanIsLog(ds[|calls|].table, p, s);
      LoadExactly(ds[|calls|].table, s, p);
    }
  }

  lemma CallRefines(d: Device, p: Persistent, call: Call, d': Device, p': Persistent)
    requires Represents(d.table, p) && d.last == |p.log| && IsCall(d, call, d')
    requires Storable(p') && p' == match call { case Persist(w) => ApplyWrite(p, w) case Reopen => p }
    ensures Represents(d'.table, p') && d'.last == |p'.log|
  {
    match call
    case Persist(w) => WriteRefines(d.table, p, w);
    case Reopen =>
      var s :| IsScan(d.table, [ENTRY_PREFIX], s) && d'.last == |s|;
      ScanIsLog(d.table, p, s);
  }
}
