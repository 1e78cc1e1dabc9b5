/** The formats byte by byte: where each field of a message, a command and a stored record lies, how wide it is
    and in which order its bytes come. */
module Layouts {
  import opened Types
  import opened Bytes
  import Codec
  import Keys
  import Kv
  import Sietch

  /** The `n` bytes from position `at` are the last `n` base-256 digits of `x`, lowest first. */
  ghost predicate LowFirst(b: seq<byte>, at: nat, n: nat, x: nat) {
    at + n <= |b| && forall i: nat {:trigger Digit(x, i)} :: i < n ==> b[at + i] as nat == Digit(x, i)
  }

  /** The same, highest first. */
  ghost predicate HighFirst(b: seq<byte>, at: nat, n: nat, x: nat) {
    at + n <= |b| && forall i: nat {:trigger Digit(x, i)} :: i < n ==> b[at + (n - 1 - i)] as nat == Digit(x, i)
  }

  /** The digit of `x` to base 256 at place `i`, the units being at place 0. */
  function Digit(x: nat, i: nat): nat {
    if i == 0 then x % 256 else Digit(x / 256, i - 1)
  }

  lemma {:induction false} ToLeDigits(x: nat, n: nat, i: nat)
    requires i < n
    ensures ToLe(x, n)[i] as nat == Digit(x, i)
    decreases n
  {
    if i > 0 {
      ToLeDigits(x / 256, n - 1, i - 1);
    }
  }

  lemma {:induction false} ToBeDigits(x: nat, n: nat, i: nat)
    requires i < n
    ensures Keys.ToBe(x, n)[n - 1 - i] as nat == Digit(x, i)
    decreases n
  {
    if i > 0 {
      ToBeDigits(x / 256, n - 1, i - 1);
    }
  }

  /** A field after `front`, with `tail` after it; then the field belongs to what comes before the tail. */
  lemma {:induction false} FieldNext(front: seq<byte>, n: nat, x: nat, tail: seq<byte>)
    ensures LowFirst(front + (ToLe(x, n) + tail), |front|, n, x)
    ensures front + (ToLe(x, n) + tail) == (front + ToLe(x, n)) + tail
  {
    var b, at := front + (ToLe(x, n) + tail), |front|;
    forall i: nat | i < n ensures b[at + i] as nat == Digit(x, i) {
      assert b[at + i] == ToLe(x, n)[i];
      ToLeDigits(x, n, i);
    }
  }

  lemma {:induction false} LastField(front: seq<byte>, n: nat, x: nat)
    ensures LowFirst(front + ToLe(x, n), |front|, n, x)
  {
    FieldNext(front, n, x, []);
    assert ToLe(x, n) + [] == ToLe(x, n);
  }

  lemma {:induction false} FirstField(n: nat, x: nat, tail: seq<byte>)
    ensures LowFirst(ToLe(x, n) + tail, 0, n, x)
  {
    FieldNext([], n, x, tail);
    assert [] + (ToLe(x, n) + tail) == ToLe(x, n) + tail;
  }

  // ---------------------------------------------------------------- messages

  /** One truth value in one byte. */
  ghost predicate FlagAt(b: seq<byte>, at: nat, x: bool) {
    at < |b| && b[at] == if x then 1 else 0
  }

  /** From position `at` to the end lie the entries: a term, a length, and as many bytes of command. */
  ghost predicate EntriesFrom(b: seq<byte>, at: nat, es: seq<Entry>)
    decreases |es|
  {
    if es == [] then at == |b|
    else
      var n := |es[0].command|;
      && LowFirst(b, at, 8, es[0].term) && LowFirst(b, at + 8, 4, n)
      && at + 12 + n <= |b| && b[at + 12..at + 12 + n] == es[0].command && EntriesFrom(b, at + 12 + n, es[1..])
  }

  /** The layout of each kind of message. */
  ghost predicate LaidOut(m: Message, kind: byte, b: seq<byte>) {
    match m
    case RequestVote(term, index, last) =>
      kind == 1 && |b| == 24 && LowFirst(b, 0, 8, term) && LowFirst(b, 8, 8, index) && LowFirst(b, 16, 8, last)
    case VoteResponse(term, granted) =>
      kind == 2 && |b| == 9 && LowFirst(b, 0, 8, term) && FlagAt(b, 8, granted)
    case AppendEntries(term, prev, prevTerm, entries, commit) =>
      && kind == 3 && LowFirst(b, 0, 8, term) && LowFirst(b, 8, 8, prev) && LowFirst(b, 16, 8, prevTerm)
      && LowFirst(b, 24, 8, commit) && LowFirst(b, 32, 4, |entries|) && EntriesFrom(b, 36, entries)
    case AppendResponse(term, success, index) =>
      kind == 4 && |b| == 17 && LowFirst(b, 0, 8, term) && FlagAt(b, 8, success) && LowFirst(b, 9, 8, index)
  }

  lemma {:induction false} Regroup<T>(x: seq<T>, y: seq<T>, z: seq<T>)
    ensures x + (y + z) == (x + y) + z
  {
  }

  lemma {:induction false} EntriesLaidOut(front: seq<byte>, es: seq<Entry>)
    ensures EntriesFrom(front + Codec.EncodeEntries(es), |front|, es)
    decreases |es|
  {
    if es == [] {
      assert front + [] == front;
    } else {
      var e, rest := es[0], Codec.EncodeEntries(es[1..]);
      EntryNext(front, e, rest);
      EntriesLaidOut(front + Codec.EncodeEntry(e), es[1..]);
      Regroup(front, Codec.EncodeEntry(e), rest);
    }
  }

  lemma {:induction false} EntryNext(front: seq<byte>, e: Entry, rest: seq<byte>)
    ensures var b, at, n := front + (Codec.EncodeEntry(e) + rest), |front|, |e.command|;
            && |Codec.EncodeEntry(e)| == 12 + n
            && LowFirst(b, at, 8, e.term) && LowFirst(b, at + 8, 4, n)
            && at + 12 + n <= |b| && b[at + 12..at + 12 + n] == e.command
  {
    var term, len := ToLe(e.term, 8), ToLe(|e.command|, 4);
    FieldNext(front, 8, e.term, len + (e.command + rest));
    FieldNext(front + term, 4, |e.command|, e.command + rest);
    EntryGrouped(term, len, e.command, rest);
    CommandNext((front + term) + len, e.command, rest);
  }

  lemma {:induction false} EntryGrouped<T>(term: seq<T>, len: seq<T>, command: seq<T>, rest: seq<T>)
    ensures (term + (len + command)) + rest == term + (len + (command + rest))
  {
    Regroup(len, command, rest);
    Regroup(term, len + command, rest);
  }

  lemma {:induction false} CommandNext(front: seq<byte>, command: seq<byte>, rest: seq<byte>)
    ensures (front + (command + rest))[|front|..|front| + |command|] == command
  {
  }

  /** The wire format of the protocol, kind by kind and field by field. */
  lemma {:induction false} MessageLaidOut(m: Message)
    ensures LaidOut(m, Codec.Kind(m), Codec.Encode(m))
  {
    match m
    case RequestVote(term, index, last) => RequestLaidOut(term, index, last);
    case VoteResponse(term, granted) => FirstField(8, term, Codec.EncodeBool(granted));
    case AppendEntries(term, prev, prevTerm, entries, commit) =>
      AppendLaidOut(term, prev, prevTerm, entries, commit);
    case AppendResponse(term, success, index) => ResponseLaidOut(term, success, index);
  }

  lemma {:induction false} RequestLaidOut(term: Term, index: Index, last: Term)
    ensures LaidOut(RequestVote(term, index, last), 1, Codec.Encode(RequestVote(term, index, last)))
  {
    var t, x := ToLe(term, 8), ToLe(index, 8);
    FirstField(8, term, x + ToLe(last, 8));
    FieldNext(t, 8, index, ToLe(last, 8));
    LastField(t + x, 8, last);
  }

  lemma {:induction false} ResponseLaidOut(term: Term, success: bool, index: Index)
    ensures LaidOut(AppendResponse(term, success, index), 4, Codec.Encode(AppendResponse(term, success, index)))
  {
    var t, f := ToLe(term, 8), Codec.EncodeBool(success);
    FirstField(8, term, f + ToLe(index, 8));
    Regroup(t, f, ToLe(index, 8));
    LastField(t + f, 8, index);
  }

  lemma {:induction false} AppendLaidOut(term: Term, prev: Index, prevTerm: Term, entries: seq<Entry>, commit: Index)
    ensures var m := AppendEntries(term, prev, prevTerm, entries, commit); LaidOut(m, 3, Codec.Encode(m))
  {
    var t, p, pt, c := ToLe(term, 8), ToLe(prev, 8), ToLe(prevTerm, 8), ToLe(commit, 8);
    var n, es := ToLe(|entries|, 4), Codec.EncodeEntries(entries);
    FirstField(8, term, p + (pt + (c + (n + es))));
    FieldNext(t, 8, prev, pt + (c + (n + es)));
    FieldNext(t + p, 8, prevTerm, c + (n + es));
    FieldNext(t + p + pt, 8, commit, n + es);
    FieldNext(t + p + pt + c, 4, |entries|, es);
    EntriesLaidOut(t + p + pt + c + n, entries);
  }

  // ---------------------------------------------------------------- commands

  /** A command: a put has the length of its key before the key and the value to the end, a deletion its key
      to the end. */
  lemma {:induction false} CommandLaidOut(c: Kv.Command)
    ensures var b := Kv.Encode(c);
            match c
            case Put(key, value) =>
              && |b| == 5 + |key| + |value| && b[0] == 1 && LowFirst(b, 1, 4, |key|)
              && b[5..5 + |key|] == key && b[5 + |key|..] == value
            case Delete(key) => |b| == 1 + |key| && b[0] == 2 && b[1..] == key
  {
    if c.Put? {
      FieldNext([1], 4, |c.key|, c.key + c.value);
      CommandNext([1] + ToLe(|c.key|, 4), c.key, c.value);
    }
  }

  // ---------------------------------------------------------------- the disk

  /** The record of term and vote, with all ones for no vote, and its key; an entry, and its key, whose bytes
      come highest first. */
  lemma {:induction false} DiskLaidOut(term: Term, votedFor: Option<NodeId>, e: Entry, index: Index)
    ensures var b := Sietch.HardState(term, votedFor);
            && |b| == 16 && LowFirst(b, 0, 8, term)
            && LowFirst(b, 8, 8, if votedFor.Some? then votedFor.value else U64 - 1)
    ensures Sietch.HARD_STATE_KEY == ['h' as int as byte]
    ensures var b := Sietch.EntryValue(e); |b| == 8 + |e.command| && LowFirst(b, 0, 8, e.term) && b[8..] == e.command
    ensures var k := Keys.EntryKey(index); |k| == 9 && k[0] == 'e' as int as byte && HighFirst(k, 1, 8, index)
  {
    var vote := Sietch.VoteCode(votedFor);
    FirstField(8, term, ToLe(vote, 8));
    LastField(ToLe(term, 8), 8, vote);
    FirstField(8, e.term, e.command);
    KeyLaidOut([Keys.ENTRY_PREFIX], index, 8);
  }

  lemma {:induction false} KeyLaidOut(front: seq<byte>, x: nat, n: nat)
    ensures HighFirst(front + Keys.ToBe(x, n), |front|, n, x)
  {
    var k, at := front + Keys.ToBe(x, n), |front|;
    forall i: nat | i < n ensures k[at + (n - 1 - i)] as nat == Digit(x, i) {
      ToBeDigits(x, n, i);
      assert k[at + (n - 1 - i)] == Keys.ToBe(x, n)[n - 1 - i];
    }
  }
}
