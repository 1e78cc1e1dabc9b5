/** The storage object over the ordered store, in the imperative form of the code. */
module SietchStorage {
  import opened Types
  import opened Keys
  import opened Sietch

  // ---------------------------------------------------------------- listing a table in key order

  function Insert(s: seq<(Key, seq<byte>)>, p: (Key, seq<byte>)): (r: seq<(Key, seq<byte>)>)
    ensures forall q :: q in r <==> q in s || q == p
  {
    if s == [] then [p]
    else if LexLess(p.0, s[0].0) then [p] + s
    else
      assert s == [s[0]] + s[1..];
      [s[0]] + Insert(s[1..], p)
  }

  lemma {:induction false} InsertSorted(s: seq<(Key, seq<byte>)>, p: (Key, seq<byte>))
    requires Sorted(s) && forall q :: q in s ==> q.0 != p.0
    ensures Sorted(Insert(s, p))
  {
    if s != [] {
      assert s[0] in s;
      if LexLess(p.0, s[0].0) {
        forall i | 0 <= i < |s| ensures LexLess(p.0, s[i].0) {
          if i > 0 {
            LexTransitive(p.0, s[0].0, s[i].0);
          }
        }
      } else {
        LexTotal(p.0, s[0].0);
        InsertSorted(s[1..], p);
        HeadFirst(s[0], s[1..], p);
      }
    }
  }

  lemma {:induction false} HeadFirst(head: (Key, seq<byte>), rest: seq<(Key, seq<byte>)>, p: (Key, seq<byte>))
    requires Sorted([head] + rest) && LexLess(head.0, p.0) && Sorted(Insert(rest, p))
    ensures Sorted([head] + Insert(rest, p))
  {
    var r := Insert(rest, p);
    forall j | 0 <= j < |r| ensures LexLess(head.0, r[j].0) {
      assert r[j] in r;
      if r[j] in rest {
        var i :| 0 <= i < |rest| && rest[i] == r[j];
        assert LexLess(([head] + rest)[0].0, ([head] + rest)[i + 1].0);
      }
    }
  }

  // ---------------------------------------------------------------- the ordered store

  /** The part of the embedded store that is used: an ordered map whose batches take effect whole. */
  class Store {
    var table: Table

    constructor (t: Table)
      ensures table == t
    {
      table := t;
    }

    method Get(key: Key) returns (value: Option<seq<byte>>)
      ensures value == At(table, key)
    {
      value := if key in table then Some(table[key]) else None;
    }

    method Scan(prefix: Key) returns (s: seq<(Key, seq<byte>)>)
      ensures IsScan(table, prefix, s)
    {
      s := [];
      var rest := table.Keys;
      while rest != {}
        invariant rest <= table.Keys && Sorted(s)
        invariant forall p :: p in s <==> p.0 in table && p.0 !in rest && table[p.0] == p.1 && prefix <= p.0
        decreases |rest|
      {
        var key :| key in rest;
        if prefix <= key {
          InsertSorted(s, (key, table[key]));
          s := Insert(s, (key, table[key]));
        }
        rest := rest - {key};
      }
    }

    method Put(key: Key, value: seq<byte>)
      modifies this
      ensures table == old(table)[key := value]
    {
      table := table[key := value];
    }

    method ApplyBatch(ops: seq<LogOp>)
      modifies this
      ensures table == ApplyOps(old(table), ops)
    {
      var i := 0;
      while i < |ops|
        invariant i <= |ops| && table == ApplyOps(old(table), ops[..i])
      {
        assert ops[..i + 1][..i] == ops[..i];
        table := ApplyOp(table, ops[i]);
        i := i + 1;
      }
      assert ops[..|ops|] == ops;
    }
  }

  // ---------------------------------------------------------------- the storage object

  /** The batch that appends, one put for each entry. */
  method PutsFor(last: Index, entries: seq<Entry>) returns (ops: seq<LogOp>)
    ensures ops == PutOps(last, entries)
  {
    ops := [];
    for i := 0 to |entries|
      invariant |ops| == i
      invariant forall j :: 0 <= j < i ==> ops[j] == LogOp.Put(EntryKey(last + 1 + j), EntryValue(entries[j]))
    {
      ops := ops + [LogOp.Put(EntryKey(last + 1 + i), EntryValue(entries[i]))];
    }
  }

  /** The batch that truncates, one deletion for each entry. */
  method DeletesFor(index: Index, last: Index) returns (ops: seq<LogOp>)
    requires index <= last + 1
    ensures ops == DeleteOps(index, last)
  {
    ops := [];
    for i := index to last + 1
      invariant |ops| == i - index && forall j :: 0 <= j < i - index ==> ops[j] == LogOp.Delete(EntryKey(index + j))
    {
      ops := ops + [LogOp.Delete(EntryKey(i))];
    }
  }

  class SietchStorage {
    const store: Store
    var lastIndex: Index

    /** The disk stands for `p`, and the cached last index agrees. */
    ghost predicate Holds(p: Persistent)
      reads this, store
    {
      Represents(store.table, p) && lastIndex == |p.log|
    }

    constructor Open(store: Store)
      ensures this.store == store
      ensures forall s :: IsScan(store.table, [ENTRY_PREFIX], s) ==> lastIndex == |s|
      ensures forall p :: Represents(store.table, p) ==> Holds(p)
    {
      this.store := store;
      var s := store.Scan([ENTRY_PREFIX]);
      lastIndex := |s|;
      new;
      forall s' | IsScan(store.table, [ENTRY_PREFIX], s') ensures |s'| == |s| {
        SortedUnique(s, s');
      }
      forall p | Represents(store.table, p) ensures Holds(p) {
        ScanIsLog(store.table, p, s);
      }
    }

    method Load() returns (r: Result<Persistent, Corrupt>)
      modifies this
      ensures forall s :: IsScan(store.table, [ENTRY_PREFIX], s) ==> r == Loaded(store.table, s)
      ensures r.Success? ==> lastIndex == |r.value.log|
      ensures r.Failure? ==> lastIndex == old(lastIndex)
      ensures forall p :: Represents(store.table, p) ==> r == Success(p) && Holds(p)
    {
      var pairs := store.Scan([ENTRY_PREFIX]);
      OnlyScan(store.table, pairs);
      var b := store.Get(HARD_STATE_KEY);
      var hard := ReadHardState(b);
      if hard.Failure? {
        return Failure(hard.error);
      }
      var log: seq<Entry> := [];
      var i := 0;
      while i < |pairs|
        invariant i <= |pairs| && ReadLog(pairs[..i]) == Success(log)
      {
        var (key, value) := pairs[i];
        assert pairs[..i + 1][..i] == pairs[..i];
        if key != EntryKey(i + 1) {
          FailureStays(pairs, i + 1);
          return Failure(GapInLog);
        }
        if |value| < 8 {
          FailureStays(pairs, i + 1);
          return Failure(ShortEntry);
        }
        log := log + [ReadEntry(value)];
        i := i + 1;
      }
      assert pairs[..i] == pairs;
      lastIndex := |log|;
      r := Success(Persistent(hard.value.0, hard.value.1, log));
    }

    method SaveHardState(term: Term, votedFor: Option<NodeId>, ghost p: Persistent)
      requires Holds(p) && Storable(p.(term := term, votedFor := votedFor))
      modifies store
      ensures Holds(ApplyWrite(p, Write.SaveHardState(term, votedFor)))
      ensures store.table == ApplyOps(old(store.table), OpsOf(|p.log|, Write.SaveHardState(term, votedFor)))
    {
      WriteRefines(store.table, p, Write.SaveHardState(term, votedFor));
      ApplyOneOp(store.table, LogOp.Put(HARD_STATE_KEY, HardState(term, votedFor)));
      var v := HardState(term, votedFor);
      store.Put(HARD_STATE_KEY, v);
    }

    method Append(entries: seq<Entry>, ghost p: Persistent)
      requires Holds(p) && Storable(ApplyWrite(p, Write.Append(entries)))
      modifies this, store
      ensures Holds(ApplyWrite(p, Write.Append(entries)))
      ensures store.table == ApplyOps(old(store.table), OpsOf(|p.log|, Write.Append(entries)))
    {
      WriteRefines(store.table, p, Write.Append(entries));
      var ops := PutsFor(lastIndex, entries);
      if ops == [] {
        assert ApplyOps(store.table, ops) == store.table;
        return;
      }
      store.ApplyBatch(ops);
      lastIndex := lastIndex + |entries|;
    }

    method TruncateFrom(index: Index, ghost p: Persistent)
      requires Holds(p)
      modifies this, store
      ensures Holds(ApplyWrite(p, Write.TruncateFrom(index)))
      ensures store.table == ApplyOps(old(store.table), OpsOf(|p.log|, Write.TruncateFrom(index)))
    {
      WriteRefines(store.table, p, Write.TruncateFrom(index));
      if index > lastIndex {
        return;
      }
      var ops := DeletesFor(index, lastIndex);
      store.ApplyBatch(ops);
      lastIndex := if index == 0 then 0 else index - 1;
    }
  }

  lemma OnlyScan(t: Table, s: seq<(Key, seq<byte>)>)
    requires IsScan(t, [ENTRY_PREFIX], s)
    ensures forall s' :: IsScan(t, [ENTRY_PREFIX], s') ==> s' == s
    ensures forall p :: Represents(t, p) ==> s == Pairs(p.log) && Loaded(t, s) == Success(p)
  {
    forall s' | IsScan(t, [ENTRY_PREFIX], s') ensures s' == s {
      SortedUnique(s, s');
    }
    forall p | Represents(t, p) ensures s == Pairs(p.log) && Loaded(t, s) == Success(p) {
      ScanIsLog(t, p, s);
      LoadExactly(t, s, p);
    }
  }

  lemma {:induction false} ApplyOneOp(t: Table, op: LogOp)
    ensures ApplyOps(t, [op]) == ApplyOp(t, op)
  {
    assert [op][..0] == [];
  }

  /** The loop may stop at the first bad entry: it is the one the whole log is refused for. */
  lemma {:induction false} FailureStays(pairs: seq<(Key, seq<byte>)>, i: nat)
    requires i <= |pairs| && ReadLog(pairs[..i]).Failure?
    ensures ReadLog(pairs) == Failure(ReadLog(pairs[..i]).error)
  {
    if i < |pairs| {
      var front := pairs[..|pairs| - 1];
      assert front[..i] == pairs[..i];
      FailureStays(front, i);
    } else {
      assert pairs[..i] == pairs;
    }
  }
}
