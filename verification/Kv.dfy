/** The replicated key-value state machine: what a committed entry means. */
module Kv {
  import opened Types
  import opened Bytes

  datatype Command = Put(key: seq<byte>, value: seq<byte>) | Delete(key: seq<byte>)

  type Contents = map<seq<byte>, seq<byte>>

  function Encode(c: Command): seq<byte> {
    match c
    case Put(key, value) => [1] + (ToLe(|key|, 4) + (key + value))
    case Delete(key) => [2] + key
  }

  function Decode(b: seq<byte>): Option<Command> {
    if b == [] then None
    else if b[0] == 1 then
      var rest := b[1..];
      if |rest| < 4 then None
      else
        var len, body := FromLe(rest[..4]), rest[4..];
        if |body| < len then None else Some(Put(body[..len], body[len..]))
    else if b[0] == 2 then Some(Delete(b[1..]))
    else None
  }

  /** A command survives the log exactly when the length of a stored key fits the four bytes it is
      given; a deletion carries no length. */
  lemma RoundTripExactly(c: Command)
    ensures Decode(Encode(c)) == Some(c) <==> (c.Put? ==> |c.key| < U32)
  {
    PowerValues();
    if c.Delete? {
      assert Encode(c)[1..] == c.key;
    } else if |c.key| < U32 {
      LeRoundTrip(|c.key|, 4);
      DecodePut(ToLe(|c.key|, 4), c.key, c.value);
    } else {
      DecodedKeyShort(Encode(c));
    }
  }

  lemma DecodedKeyShort(b: seq<byte>)
    ensures Decode(b).Some? && Decode(b).value.Put? ==> |Decode(b).value.key| < U32
  {
    PowerValues();
  }

  lemma {:induction false} DecodePut(len: seq<byte>, key: seq<byte>, value: seq<byte>)
    requires |len| == 4 && FromLe(len) == |key|
    ensures Decode([1] + (len + (key + value))) == Some(Put(key, value))
  {
    var rest, body := len + (key + value), key + value;
    assert ([1] + rest)[1..] == rest;
    assert rest[..4] == len && rest[4..] == body;
    assert body[..|key|] == key && body[|key|..] == value;
  }

  /** An accepted byte string is the encoding of exactly one command: the one it decodes to. */
  lemma DecodeSound(b: seq<byte>)
    requires Decode(b).Some?
    ensures Encode(Decode(b).value) == b
  {
    if b[0] == 1 {
      var rest := b[1..];
      LeUnique(rest[..4]);
      var len, body := FromLe(rest[..4]), rest[4..];
      assert body == body[..len] + body[len..];
      assert rest == rest[..4] + body;
    }
    assert b == [b[0]] + b[1..];
  }

  /** The effect of one entry; empty and malformed commands change nothing. */
  function ApplyEntry(m: Contents, e: Entry): Contents {
    match Decode(e.command)
    case Some(Put(key, value)) => m[key := value]
    case Some(Delete(key)) => m - {key}
    case None => m
  }

  function ApplyEntries(m: Contents, es: seq<Entry>): Contents {
    if es == [] then m else ApplyEntry(ApplyEntries(m, es[..|es| - 1]), es[|es| - 1])
  }

  function Replay(es: seq<Entry>): Contents {
    ApplyEntries(map[], es)
  }

  lemma {:induction false} ApplyConcat(m: Contents, es: seq<Entry>, more: seq<Entry>)
    ensures ApplyEntries(m, es + more) == ApplyEntries(ApplyEntries(m, es), more)
  {
    if more == [] {
      assert es + more == es;
    } else {
      ApplyConcat(m, es, more[..|more| - 1]);
      assert (es + more)[..|es + more| - 1] == es + more[..|more| - 1];
    }
  }

  // ---------------------------------------------------------------- redelivery

  /** What is stored under a key, if anything. */
  function Lookup(m: Contents, key: seq<byte>): Option<seq<byte>> {
    if key in m then Some(m[key]) else None
  }

  /** Does any command of `es` write or delete `key`? */
  ghost predicate Touches(es: seq<Entry>, key: seq<byte>) {
    exists i :: 0 <= i < |es| && Decode(es[i].command).Some? && Decode(es[i].command).value.key == key
  }

  /** A touched key ends up the same whatever the store was; an untouched one keeps its value. */
  lemma {:induction false} LastWriteWins(m: Contents, m': Contents, es: seq<Entry>, key: seq<byte>)
    ensures Touches(es, key) ==> Lookup(ApplyEntries(m, es), key) == Lookup(ApplyEntries(m', es), key)
    ensures !Touches(es, key) ==> Lookup(ApplyEntries(m, es), key) == Lookup(m, key)
  {
    if es != [] {
      var front, last := es[..|es| - 1], es[|es| - 1];
      LastWriteWins(m, m', front, key);
      TouchesLast(es, key);
    }
  }

  lemma TouchesLast(es: seq<Entry>, key: seq<byte>)
    requires es != []
    ensures var last := Decode(es[|es| - 1].command);
            Touches(es, key) <==> Touches(es[..|es| - 1], key) || (last.Some? && last.value.key == key)
  {
    var front := es[..|es| - 1];
    if Touches(front, key) {
      var i :| 0 <= i < |front| && Decode(front[i].command).Some? && Decode(front[i].command).value.key == key;
      assert es[i] == front[i];
    }
    if Touches(es, key) {
      var i :| 0 <= i < |es| && Decode(es[i].command).Some? && Decode(es[i].command).value.key == key;
      assert i < |front| ==> front[i] == es[i];
    }
  }

  /** Entry `i` is the last one about `key`. */
  ghost predicate LastAbout(es: seq<Entry>, key: seq<byte>, i: nat) {
    && i < |es| && Decode(es[i].command).Some? && Decode(es[i].command).value.key == key
    && !Touches(es[i + 1..], key)
  }

  function Outcome(c: Command): Option<seq<byte>> {
    match c
    case Put(_, value) => Some(value)
    case Delete(_) => None
  }

  lemma LastSays(es: seq<Entry>, key: seq<byte>, i: nat)
    requires LastAbout(es, key, i)
    ensures Lookup(Replay(es), key) == Outcome(Decode(es[i].command).value)
  {
    assert es == es[..i + 1] + es[i + 1..];
    assert es[..i + 1][..i] == es[..i];
    ApplyConcat(map[], es[..i + 1], es[i + 1..]);
    LastWriteWins(Replay(es[..i + 1]), map[], es[i + 1..], key);
  }

  /** What a replayed store holds under a key is what the last command about that key said, and
      nothing if there was none. */
  lemma ReplayMeans(es: seq<Entry>, key: seq<byte>)
    ensures !Touches(es, key) ==> Lookup(Replay(es), key) == None
    ensures forall i: nat :: LastAbout(es, key, i) ==> Lookup(Replay(es), key) == Outcome(Decode(es[i].command).value)
  {
    LastWriteWins(map[], map[], es, key);
    forall i: nat | LastAbout(es, key, i) ensures Lookup(Replay(es), key) == Outcome(Decode(es[i].command).value) {
      LastSays(es, key, i);
    }
  }

  lemma TouchesLonger(front: seq<Entry>, tail: seq<Entry>, key: seq<byte>)
    requires Touches(tail, key)
    ensures Touches(front + tail, key)
  {
    var i :| 0 <= i < |tail| && Decode(tail[i].command).Some? && Decode(tail[i].command).value.key == key;
    assert (front + tail)[|front| + i] == tail[i];
  }

  /** Applying a stretch again, further back than the store already is, does no harm: if applying
      `tail` completes the store to `replay(whole)`, so does applying any longer suffix of `whole`. */
  lemma {:induction false} RedeliveryAbsorbed(m: Contents, whole: seq<Entry>, from: nat, back: nat)
    requires back <= from <= |whole|
    requires ApplyEntries(m, whole[from..]) == Replay(whole)
    ensures ApplyEntries(m, whole[back..]) == Replay(whole)
  {
    var tail, longer := whole[from..], whole[back..];
    assert longer == whole[back..from] + tail;
    assert whole == whole[..back] + longer;
    ApplyConcat(map[], whole[..back], longer);
    var x, y := ApplyEntries(m, longer), Replay(whole);
    forall key ensures Lookup(x, key) == Lookup(y, key) {
      LastWriteWins(m, Replay(whole[..back]), longer, key);
      if !Touches(longer, key) {
        LastWriteWins(m, m, tail, key);
        if Touches(tail, key) {
          TouchesLonger(whole[back..from], tail, key);
        }
      }
    }
    SameLookups(x, y);
  }

  /** What `store` still lacks of the entries delivered so far (the first `high` of `log`) is exactly
      what lies between `applied` and `high`. */
  ghost predicate Completes(store: Contents, log: seq<Entry>, applied: nat, high: nat) {
    applied <= high <= |log| && ApplyEntries(store, log[applied..high]) == Replay(log[..high])
  }

  lemma CaughtUp(store: Contents, log: seq<Entry>, high: nat)
    requires Completes(store, log, high, high)
    ensures store == Replay(log[..high])
  {
    assert log[high..high] == [];
  }

  /** One delivery, with a commit index that may have moved either way, keeps that relation. */
  lemma {:induction false} DeliveryCompletes(store: Contents, log: seq<Entry>, applied: nat, high: nat, commit: nat)
    requires Completes(store, log, applied, high) && commit <= |log|
    ensures var batch := if applied < commit then log[applied..commit] else [];
            Completes(ApplyEntries(store, batch), log, commit, if high >= commit then high else commit)
  {
    if applied < commit <= high {
      ApplySplit(store, log, applied, commit, high);
    } else if high < commit {
      DeliveryAdvances(store, log, applied, high, commit);
    } else {
      assert log[..high][applied..] == log[applied..high] && log[..high][commit..] == log[commit..high];
      RedeliveryAbsorbed(store, log[..high], applied, commit);
    }
  }

  lemma {:induction false} DeliveryAdvances(store: Contents, log: seq<Entry>, applied: nat, high: nat, commit: nat)
    requires Completes(store, log, applied, high) && high < commit <= |log|
    ensures ApplyEntries(store, log[applied..commit]) == Replay(log[..commit])
  {
    ApplySplit(store, log, applied, high, commit);
    ApplySplit(map[], log, 0, high, commit);
    assert log[0..high] == log[..high] && log[0..commit] == log[..commit];
  }

  lemma {:induction false} ApplySplit(m: Contents, log: seq<Entry>, i: nat, j: nat, k: nat)
    requires i <= j <= k <= |log|
    ensures ApplyEntries(m, log[i..k]) == ApplyEntries(ApplyEntries(m, log[i..j]), log[j..k])
  {
    ApplyConcat(m, log[i..j], log[j..k]);
    SlicesJoin(log, i, j, k);
  }

  lemma SlicesJoin<T>(s: seq<T>, i: nat, j: nat, k: nat)
    requires i <= j <= k <= |s|
    ensures s[i..j] + s[j..k] == s[i..k]
  {
  }

  lemma SameLookups(x: Contents, y: Contents)
    requires forall key :: Lookup(x, key) == Lookup(y, key)
    ensures x == y
  {
    forall key ensures key in x <==> key in y {
      assert Lookup(x, key) == Lookup(y, key);
    }
    forall key | key in x ensures x[key] == y[key] {
      assert Lookup(x, key) == Lookup(y, key);
    }
  }

  // ---------------------------------------------------------------- the store as the code has it

  class Store {
    var contents: Contents

    constructor ()
      ensures contents == map[]
    {
      contents := map[];
    }

    method Apply(entry: Entry)
      modifies this
      ensures contents == ApplyEntry(old(contents), entry)
    {
      match Decode(entry.command)
      case Some(Put(key, value)) => contents := contents[key := value];
      case Some(Delete(key)) => contents := contents - {key};
      case None =>
    }

    method Get(key: seq<byte>) returns (value: Option<seq<byte>>)
      ensures value == Lookup(contents, key)
    {
      value := if key in contents then Some(contents[key]) else None;
    }
  }

  method ReplayAll(entries: seq<Entry>) returns (s: Store)
    ensures fresh(s) && s.contents == Replay(entries)
  {
    s := new Store();
    for i := 0 to |entries|
      invariant fresh(s) && s.contents == Replay(entries[..i])
    {
      s.Apply(entries[i]);
      assert entries[..i + 1][..i] == entries[..i];
    }
    assert entries[..|entries|] == entries;
  }
}
