/** The wire form of a message, at the level of a frame's kind and payload (the frame itself, with its
    checksum, is not part of this model). Decoding is given as a parser over byte strings; the
    reader object of the source, which advances in place, is proved against it. */
module Codec {
  import opened Types
  import opened Bytes

  datatype CodecError = UnknownType(kind: byte) | Truncated | TrailingBytes | BadBool(value: byte)

  /** What the field types of the source guarantee, and the lengths its 32-bit casts can carry. */
  predicate EntryFits(e: Entry) {
    e.term < U64 && |e.command| < U32
  }

  predicate Fits(m: Message) {
    && m.term < U64
    && match m
       case RequestVote(_, index, last) => index < U64 && last < U64
       case VoteResponse(_, _) => true
       case AppendEntries(_, prev, prevTerm, entries, commit) =>
         prev < U64 && prevTerm < U64 && commit < U64 && |entries| < U32 && forall e :: e in entries ==> EntryFits(e)
       case AppendResponse(_, _, index) => index < U64
  }

  // ---------------------------------------------------------------- encoding

  function EncodeBool(b: bool): seq<byte> {
    if b then [1] else [0]
  }

  function EncodeEntry(e: Entry): seq<byte> {
    ToLe(e.term, 8) + (ToLe(|e.command|, 4) + e.command)
  }

  function EncodeEntries(es: seq<Entry>): seq<byte> {
    if es == [] then [] else EncodeEntry(es[0]) + EncodeEntries(es[1..])
  }

  function Kind(m: Message): byte {
    match m
    case RequestVote(_, _, _) => 1
    case VoteResponse(_, _) => 2
    case AppendEntries(_, _, _, _, _) => 3
    case AppendResponse(_, _, _) => 4
  }

  function Encode(m: Message): seq<byte> {
    match m
    case RequestVote(term, index, last) => ToLe(term, 8) + (ToLe(index, 8) + ToLe(last, 8))
    case VoteResponse(term, granted) => ToLe(term, 8) + EncodeBool(granted)
    case AppendEntries(term, prev, prevTerm, entries, commit) =>
      ToLe(term, 8) + (ToLe(prev, 8) + (ToLe(prevTerm, 8)
        + (ToLe(commit, 8) + (ToLe(|entries|, 4) + EncodeEntries(entries)))))
    case AppendResponse(term, success, index) => ToLe(term, 8) + (EncodeBool(success) + ToLe(index, 8))
  }

  // ---------------------------------------------------------------- parsing

  datatype Parsed<T> = Got(value: T, rest: seq<byte>) | Bad(error: CodecError) {
    predicate IsFailure() { Bad? }
    function PropagateFailure<U>(): Parsed<U> requires Bad? { Bad(error) }
    function Extract(): (T, seq<byte>) requires Got? { (value, rest) }
  }

  function TakeBytes(b: seq<byte>, n: nat): Parsed<seq<byte>> {
    if |b| < n then Bad(Truncated) else Got(b[..n], b[n..])
  }

  function TakeInt(b: seq<byte>, n: nat): Parsed<nat> {
    var (x, rest) :- TakeBytes(b, n);
    Got(FromLe(x), rest)
  }

  function TakeBool(b: seq<byte>): Parsed<bool> {
    var (x, rest) :- TakeBytes(b, 1);
    if x[0] == 0 then Got(false, rest) else if x[0] == 1 then Got(true, rest) else Bad(BadBool(x[0]))
  }

  function ParseEntry(b: seq<byte>): Parsed<Entry> {
    var (term, b) :- TakeInt(b, 8);
    var (len, b) :- TakeInt(b, 4);
    var (command, b) :- TakeBytes(b, len);
    Got(Entry(term, command), b)
  }

  function ParseEntries(b: seq<byte>, count: nat): Parsed<seq<Entry>> {
    if count == 0 then Got([], b)
    else
      var (e, b) :- ParseEntry(b);
      var (es, b) :- ParseEntries(b, count - 1);
      Got([e] + es, b)
  }

  function ParseAppend(b: seq<byte>): Parsed<Message> {
    var (term, b) :- TakeInt(b, 8);
    var (prev, b) :- TakeInt(b, 8);
    var (prevTerm, b) :- TakeInt(b, 8);
    var (commit, b) :- TakeInt(b, 8);
    var (count, b) :- TakeInt(b, 4);
    if count > |b| / 12 then Bad(Truncated)
    else
      var (entries, b) :- ParseEntries(b, count);
      Got(AppendEntries(term, prev, prevTerm, entries, commit), b)
  }

  function ParseRequest(b: seq<byte>): Parsed<Message> {
    var (term, b) :- TakeInt(b, 8);
    var (index, b) :- TakeInt(b, 8);
    var (last, b) :- TakeInt(b, 8);
    Got(RequestVote(term, index, last), b)
  }

  function ParseVote(b: seq<byte>): Parsed<Message> {
    var (term, b) :- TakeInt(b, 8);
    var (granted, b) :- TakeBool(b);
    Got(VoteResponse(term, granted), b)
  }

  function ParseResponse(b: seq<byte>): Parsed<Message> {
    var (term, b) :- TakeInt(b, 8);
    var (success, b) :- TakeBool(b);
    var (index, b) :- TakeInt(b, 8);
    Got(AppendResponse(term, success, index), b)
  }

  function Parse(kind: byte, b: seq<byte>): Parsed<Message> {
    if kind == 1 then ParseRequest(b)
    else if kind == 2 then ParseVote(b)
    else if kind == 3 then ParseAppend(b)
    else if kind == 4 then ParseResponse(b)
    else Bad(UnknownType(kind))
  }

  function Decode(kind: byte, b: seq<byte>): Result<Message, CodecError> {
    match Parse(kind, b)
    case Bad(e) => Failure(e)
    case Got(m, rest) => if rest == [] then Success(m) else Failure(TrailingBytes)
  }

  // ---------------------------------------------------------------- fields

  lemma {:induction false} TakeIntEncoded(x: nat, n: nat, rest: seq<byte>)
    requires x < Pow256(n)
    ensures TakeInt(ToLe(x, n) + rest, n) == Got(x, rest)
  {
    LeRoundTrip(x, n);
    var b := ToLe(x, n) + rest;
    assert b[..n] == ToLe(x, n) && b[n..] == rest;
  }

  lemma {:induction false} TakeIntSound(b: seq<byte>, n: nat)
    requires TakeInt(b, n).Got?
    ensures TakeInt(b, n).value < Pow256(n) && b == ToLe(TakeInt(b, n).value, n) + TakeInt(b, n).rest
  {
    LeUnique(b[..n]);
  }

  lemma TakeBoolEncoded(x: bool, rest: seq<byte>)
    ensures TakeBool(EncodeBool(x) + rest) == Got(x, rest)
  {
    var b := EncodeBool(x) + rest;
    assert b[..1] == EncodeBool(x) && b[1..] == rest;
  }

  lemma TakeBoolSound(b: seq<byte>)
    requires TakeBool(b).Got?
    ensures b == EncodeBool(TakeBool(b).value) + TakeBool(b).rest
  {
    assert b == b[..1] + b[1..] && b[..1] == [b[0]];
  }

  lemma ParseEntryEncoded(e: Entry, rest: seq<byte>)
    requires EntryFits(e)
    ensures ParseEntry(EncodeEntry(e) + rest) == Got(e, rest)
  {
    PowerValues();
    var tail := e.command + rest;
    assert EncodeEntry(e) + rest == ToLe(e.term, 8) + (ToLe(|e.command|, 4) + tail);
    TakeIntEncoded(e.term, 8, ToLe(|e.command|, 4) + tail);
    TakeIntEncoded(|e.command|, 4, tail);
    assert tail[..|e.command|] == e.command && tail[|e.command|..] == rest;
  }

  lemma ParseEntrySound(b: seq<byte>)
    requires ParseEntry(b).Got?
    ensures var p := ParseEntry(b);
            EntryFits(p.value) && b == EncodeEntry(p.value) + p.rest && |b| >= 12 + |p.rest|
  {
    PowerValues();
    TakeIntSound(b, 8);
    var b1 := TakeInt(b, 8).rest;
    TakeIntSound(b1, 4);
    var b2 := TakeInt(b1, 4).rest;
    var p := ParseEntry(b);
    Join(b2, p.value.command, p.rest);
    JoinThree(b, ToLe(p.value.term, 8), b1, ToLe(|p.value.command|, 4), b2, p.value.command, p.rest);
  }

  lemma Join(b: seq<byte>, x: seq<byte>, rest: seq<byte>)
    requires TakeBytes(b, |x|) == Got(x, rest)
    ensures b == x + rest
  {
  }

  lemma JoinThree<T>(b: seq<T>, x: seq<T>, b1: seq<T>, y: seq<T>, b2: seq<T>, z: seq<T>, rest: seq<T>)
    requires b == x + b1 && b1 == y + b2 && b2 == z + rest
    ensures b == x + (y + z) + rest
  {
  }

  lemma {:induction false} ParseEntriesEncoded(es: seq<Entry>, rest: seq<byte>)
    requires forall e :: e in es ==> EntryFits(e)
    ensures ParseEntries(EncodeEntries(es) + rest, |es|) == Got(es, rest)
    ensures |EncodeEntries(es)| >= 12 * |es|
  {
    if es == [] {
      assert EncodeEntries(es) + rest == rest;
    } else {
      var e, more := EncodeEntry(es[0]), EncodeEntries(es[1..]);
      ParseEntriesEncoded(es[1..], rest);
      ParseEntryEncoded(es[0], more + rest);
      Regroup(e, more, rest);
      ParseCons(e + (more + rest), es[0], more + rest, es[1..], rest);
      assert es == [es[0]] + es[1..];
    }
  }

  lemma Regroup<T>(a: seq<T>, b: seq<T>, c: seq<T>)
    ensures a + b + c == a + (b + c)
  {
  }

  lemma {:induction false} ParseCons(b: seq<byte>, e: Entry, b': seq<byte>, es: seq<Entry>, rest: seq<byte>)
    requires ParseEntry(b) == Got(e, b') && ParseEntries(b', |es|) == Got(es, rest)
    ensures ParseEntries(b, |es| + 1) == Got([e] + es, rest)
  {
  }

  lemma ParseEntriesStep(b: seq<byte>, count: nat) returns (e: Entry, b1: seq<byte>, es: seq<Entry>, rest: seq<byte>)
    requires count > 0 && ParseEntries(b, count).Got?
    ensures ParseEntry(b) == Got(e, b1) && ParseEntries(b1, count - 1) == Got(es, rest)
    ensures ParseEntries(b, count) == Got([e] + es, rest)
  {
    e, b1 := ParseEntry(b).value, ParseEntry(b).rest;
    es, rest := ParseEntries(b1, count - 1).value, ParseEntries(b1, count - 1).rest;
  }

  lemma {:induction false} EntryThenEntries(b: seq<byte>, e: Entry, b1: seq<byte>, es: seq<Entry>, rest: seq<byte>)
    requires ParseEntry(b) == Got(e, b1) && b1 == EncodeEntries(es) + rest && forall x :: x in es ==> EntryFits(x)
    ensures b == EncodeEntries([e] + es) + rest && |b| >= 12 + |b1| && forall x :: x in [e] + es ==> EntryFits(x)
  {
    ParseEntrySound(b);
    EncodeCons(b, e, b1, es, rest);
    FitsCons(e, es);
  }

  lemma {:induction false} ParseEntriesSound(b: seq<byte>, count: nat)
    requires ParseEntries(b, count).Got?
    ensures var p := ParseEntries(b, count);
            |p.value| == count && b == EncodeEntries(p.value) + p.rest && (forall e :: e in p.value ==> EntryFits(e))
    ensures |b| >= 12 * count
  {
    if count > 0 {
      var e, b1, es, rest := ParseEntriesStep(b, count);
      ParseEntriesSound(b1, count - 1);
      EntryThenEntries(b, e, b1, es, rest);
    }
  }

  lemma {:induction false} EncodeCons(b: seq<byte>, e: Entry, b1: seq<byte>, es: seq<Entry>, rest: seq<byte>)
    requires b == EncodeEntry(e) + b1 && b1 == EncodeEntries(es) + rest
    ensures b == EncodeEntries([e] + es) + rest
  {
    assert ([e] + es)[1..] == es;
    JoinTwo(b, EncodeEntry(e), b1, EncodeEntries(es), rest);
  }

  lemma FitsCons(e: Entry, es: seq<Entry>)
    requires EntryFits(e) && forall x :: x in es ==> EntryFits(x)
    ensures forall x :: x in [e] + es ==> EntryFits(x)
  {
  }

  // ---------------------------------------------------------------- messages

  lemma ParseAppendEncoded(m: Message)
    requires m.AppendEntries? && Fits(m)
    ensures ParseAppend(Encode(m)) == Got(m, [])
  {
    PowerValues();
    var b5 := EncodeEntries(m.entries);
    var b4 := ToLe(|m.entries|, 4) + b5;
    var b3 := ToLe(m.leaderCommit, 8) + b4;
    var b2 := ToLe(m.prevTerm, 8) + b3;
    var b1 := ToLe(m.prevIndex, 8) + b2;
    TakeIntEncoded(m.term, 8, b1);
    TakeIntEncoded(m.prevIndex, 8, b2);
    TakeIntEncoded(m.prevTerm, 8, b3);
    TakeIntEncoded(m.leaderCommit, 8, b4);
    TakeIntEncoded(|m.entries|, 4, b5);
    ParseEntriesEncoded(m.entries, []);
    assert b5 + [] == b5;
  }

  lemma ParseOthersEncoded(m: Message)
    requires !m.AppendEntries? && Fits(m)
    ensures Parse(Kind(m), Encode(m)) == Got(m, [])
  {
    PowerValues();
    match m
    case RequestVote(term, index, last) =>
      TakeIntEncoded(term, 8, ToLe(index, 8) + ToLe(last, 8));
      TakeIntEncoded(index, 8, ToLe(last, 8));
      assert ToLe(last, 8) + [] == ToLe(last, 8);
      TakeIntEncoded(last, 8, []);
    case VoteResponse(term, granted) =>
      TakeIntEncoded(term, 8, EncodeBool(granted));
      assert EncodeBool(granted) + [] == EncodeBool(granted);
      TakeBoolEncoded(granted, []);
    case AppendResponse(term, success, index) =>
      TakeIntEncoded(term, 8, EncodeBool(success) + ToLe(index, 8));
      TakeBoolEncoded(success, ToLe(index, 8));
      assert ToLe(index, 8) + [] == ToLe(index, 8);
      TakeIntEncoded(index, 8, []);
  }

  /** Every message whose fields fit is decoded back from its encoding. */
  lemma RoundTrip(m: Message)
    requires Fits(m)
    ensures Decode(Kind(m), Encode(m)) == Success(m)
  {
    if m.AppendEntries? {
      ParseAppendEncoded(m);
    } else {
      ParseOthersEncoded(m);
    }
  }

  lemma ParseAppendSound(b: seq<byte>)
    requires ParseAppend(b).Got?
    ensures var p := ParseAppend(b); p.value.AppendEntries? && Fits(p.value) && b == Encode(p.value) + p.rest
  {
    PowerValues();
    var p := ParseAppend(b);
    TakeIntSound(b, 8);
    var b1 := TakeInt(b, 8).rest;
    TakeIntSound(b1, 8);
    var b2 := TakeInt(b1, 8).rest;
    TakeIntSound(b2, 8);
    var b3 := TakeInt(b2, 8).rest;
    TakeIntSound(b3, 8);
    var b4 := TakeInt(b3, 8).rest;
    TakeIntSound(b4, 4);
    var b5 := TakeInt(b4, 4).rest;
    ParseEntriesSound(b5, TakeInt(b4, 4).value);
    var m := p.value;
    JoinTwo(b4, ToLe(|m.entries|, 4), b5, EncodeEntries(m.entries), p.rest);
    JoinTwo(b3, ToLe(m.leaderCommit, 8), b4, ToLe(|m.entries|, 4) + EncodeEntries(m.entries), p.rest);
    JoinTwo(b2, ToLe(m.prevTerm, 8), b3,
            ToLe(m.leaderCommit, 8) + (ToLe(|m.entries|, 4) + EncodeEntries(m.entries)), p.rest);
    JoinTwo(b1, ToLe(m.prevIndex, 8), b2,
            ToLe(m.prevTerm, 8) + (ToLe(m.leaderCommit, 8) + (ToLe(|m.entries|, 4) + EncodeEntries(m.entries))),
            p.rest);
    JoinTwo(b, ToLe(m.term, 8), b1,
            ToLe(m.prevIndex, 8) + (ToLe(m.prevTerm, 8)
              + (ToLe(m.leaderCommit, 8) + (ToLe(|m.entries|, 4) + EncodeEntries(m.entries)))),
            p.rest);
  }

  lemma JoinTwo<T>(b: seq<T>, x: seq<T>, b1: seq<T>, y: seq<T>, rest: seq<T>)
    requires b == x + b1 && b1 == y + rest
    ensures b == x + y + rest
  {
  }

  lemma ParseRequestSound(b: seq<byte>)
    requires ParseRequest(b).Got?
    ensures var p := ParseRequest(b); p.value.RequestVote? && Fits(p.value) && b == Encode(p.value) + p.rest
  {
    PowerValues();
    TakeIntSound(b, 8);
    var b1, p := TakeInt(b, 8).rest, ParseRequest(b);
    TakeIntSound(b1, 8);
    var b2 := TakeInt(b1, 8).rest;
    TakeIntSound(b2, 8);
    JoinThree(b, ToLe(p.value.term, 8), b1, ToLe(p.value.lastLogIndex, 8), b2, ToLe(p.value.lastLogTerm, 8), p.rest);
  }

  lemma ParseVoteSound(b: seq<byte>)
    requires ParseVote(b).Got?
    ensures var p := ParseVote(b); p.value.VoteResponse? && Fits(p.value) && b == Encode(p.value) + p.rest
  {
    PowerValues();
    TakeIntSound(b, 8);
    var b1, p := TakeInt(b, 8).rest, ParseVote(b);
    TakeBoolSound(b1);
    JoinTwo(b, ToLe(p.value.term, 8), b1, EncodeBool(p.value.granted), p.rest);
  }

  lemma ParseResponseSound(b: seq<byte>)
    requires ParseResponse(b).Got?
    ensures var p := ParseResponse(b); p.value.AppendResponse? && Fits(p.value) && b == Encode(p.value) + p.rest
  {
    PowerValues();
    TakeIntSound(b, 8);
    var b1, p := TakeInt(b, 8).rest, ParseResponse(b);
    TakeBoolSound(b1);
    var b2 := TakeBool(b1).rest;
    TakeIntSound(b2, 8);
    JoinThree(b, ToLe(p.value.term, 8), b1, EncodeBool(p.value.success), b2, ToLe(p.value.matchIndex, 8), p.rest);
  }

  lemma ParseSound(kind: byte, b: seq<byte>)
    requires Parse(kind, b).Got?
    ensures var p := Parse(kind, b); Kind(p.value) == kind && Fits(p.value) && b == Encode(p.value) + p.rest
  {
    if kind == 1 {
      ParseRequestSound(b);
    } else if kind == 2 {
      ParseVoteSound(b);
    } else if kind == 3 {
      ParseAppendSound(b);
    } else {
      ParseResponseSound(b);
    }
  }

  /** Conversely, whatever is accepted is exactly the encoding of the message returned: no two payloads
      decode to the same message, and none decodes to a message that does not fit. */
  lemma DecodeSound(kind: byte, b: seq<byte>)
    requires Decode(kind, b).Success?
    ensures var m := Decode(kind, b).value; Fits(m) && Kind(m) == kind && Encode(m) == b
  {
    ParseSound(kind, b);
    var m := Decode(kind, b).value;
    assert Encode(m) + [] == Encode(m);
  }

  // ---------------------------------------------------------------- truncation and the count guard

  /** The guard on the declared count rejects only what would be rejected anyway. */
  lemma {:induction false} GuardIsHarmless(b: seq<byte>, count: nat)
    requires count > |b| / 12
    ensures ParseEntries(b, count) == Bad(Truncated)
  {
    if ParseEntries(b, count).Got? {
      ParseEntriesSound(b, count);
    }
    ParseEntriesError(b, count);
  }

  lemma {:induction false} ParseEntriesError(b: seq<byte>, count: nat)
    ensures ParseEntries(b, count).Bad? ==> ParseEntries(b, count).error == Truncated
  {
    if count > 0 && ParseEntry(b).Got? {
      ParseEntriesError(ParseEntry(b).rest, count - 1);
    }
  }

  /** So a message survives the wire exactly when its fields fit: the only senders this rules out are
      those whose lengths a 32-bit count cannot carry (the other fields are 64-bit by type). */
  lemma RoundTripExactly(m: Message)
    ensures Decode(Kind(m), Encode(m)) == Success(m) <==> Fits(m)
  {
    if Fits(m) {
      RoundTrip(m);
    }
    if Decode(Kind(m), Encode(m)) == Success(m) {
      DecodeSound(Kind(m), Encode(m));
    }
  }

  /** No encoding is a proper prefix of another of the same kind, so a truncated payload is never
      mistaken for a shorter message. */
  lemma PrefixRejected(m: Message, b: seq<byte>)
    requires Fits(m) && b < Encode(m)
    ensures Decode(Kind(m), b).Failure?
  {
    if Decode(Kind(m), b).Success? {
      var x := Encode(m)[|b|..];
      assert Encode(m) == b + x;
      ParseLonger(Kind(m), b, x);
      RoundTrip(m);
    }
  }

  lemma TakeLonger(b: seq<byte>, n: nat, x: seq<byte>)
    requires TakeBytes(b, n).Got?
    ensures TakeBytes(b + x, n) == Got(TakeBytes(b, n).value, TakeBytes(b, n).rest + x)
  {
    assert (b + x)[..n] == b[..n] && (b + x)[n..] == b[n..] + x;
  }

  lemma TakeIntLonger(b: seq<byte>, n: nat, x: seq<byte>)
    requires TakeInt(b, n).Got?
    ensures TakeInt(b + x, n) == Got(TakeInt(b, n).value, TakeInt(b, n).rest + x)
  {
    TakeLonger(b, n, x);
  }

  lemma TakeBoolLonger(b: seq<byte>, x: seq<byte>)
    requires TakeBool(b).Got?
    ensures TakeBool(b + x) == Got(TakeBool(b).value, TakeBool(b).rest + x)
  {
    TakeLonger(b, 1, x);
  }

  lemma {:induction false} ParseEntriesLonger(b: seq<byte>, count: nat, x: seq<byte>)
    requires ParseEntries(b, count).Got?
    ensures ParseEntries(b + x, count) == Got(ParseEntries(b, count).value, ParseEntries(b, count).rest + x)
  {
    if count > 0 {
      TakeIntLonger(b, 8, x);
      var b1 := TakeInt(b, 8).rest;
      TakeIntLonger(b1, 4, x);
      var b2 := TakeInt(b1, 4).rest;
      TakeLonger(b2, TakeInt(b1, 4).value, x);
      ParseEntriesLonger(ParseEntry(b).rest, count - 1, x);
    }
  }

  lemma ParseAppendLonger(b: seq<byte>, x: seq<byte>)
    requires ParseAppend(b).Got?
    ensures ParseAppend(b + x) == Got(ParseAppend(b).value, ParseAppend(b).rest + x)
  {
    TakeIntLonger(b, 8, x);
    var b1 := TakeInt(b, 8).rest;
    TakeIntLonger(b1, 8, x);
    var b2 := TakeInt(b1, 8).rest;
    TakeIntLonger(b2, 8, x);
    var b3 := TakeInt(b2, 8).rest;
    TakeIntLonger(b3, 8, x);
    var b4 := TakeInt(b3, 8).rest;
    TakeIntLonger(b4, 4, x);
    ParseEntriesLonger(TakeInt(b4, 4).rest, TakeInt(b4, 4).value, x);
  }

  lemma ParseLonger(kind: byte, b: seq<byte>, x: seq<byte>)
    requires Parse(kind, b).Got?
    ensures Parse(kind, b + x) == Got(Parse(kind, b).value, Parse(kind, b).rest + x)
  {
    if kind == 3 {
      ParseAppendLonger(b, x);
    } else {
      TakeIntLonger(b, 8, x);
      var b1 := TakeInt(b, 8).rest;
      if kind == 1 {
        TakeIntLonger(b1, 8, x);
        TakeIntLonger(TakeInt(b1, 8).rest, 8, x);
      } else {
        TakeBoolLonger(b1, x);
        if kind == 4 {
          TakeIntLonger(TakeBool(b1).rest, 8, x);
        }
      }
    }
  }

  // ---------------------------------------------------------------- the code, in place

  /** What a method that consumes input reports, against the parser it implements. */
  ghost predicate Agrees<T>(p: Parsed<T>, r: Result<T, CodecError>, rest: seq<byte>) {
    match p
    case Got(value, left) => r == Success(value) && rest == left
    case Bad(e) => r == Failure(e)
  }

  class Reader {
    var rest: seq<byte>

    constructor (b: seq<byte>)
      ensures rest == b
    {
      rest := b;
    }

    method Take(n: nat) returns (r: Result<seq<byte>, CodecError>)
      modifies this
      ensures Agrees(TakeBytes(old(rest), n), r, rest)
      ensures r.Failure? ==> rest == old(rest)
    {
      if |rest| < n {
        return Failure(Truncated);
      }
      r := Success(rest[..n]);
      rest := rest[n..];
    }

    method U64() returns (r: Result<nat, CodecError>)
      modifies this
      ensures Agrees(TakeInt(old(rest), 8), r, rest)
    {
      var b :- Take(8);
      r := Success(FromLe(b));
    }

    method U32() returns (r: Result<nat, CodecError>)
      modifies this
      ensures Agrees(TakeInt(old(rest), 4), r, rest)
    {
      var b :- Take(4);
      r := Success(FromLe(b));
    }

    method Bool() returns (r: Result<bool, CodecError>)
      modifies this
      ensures Agrees(TakeBool(old(rest)), r, rest)
    {
      var b :- Take(1);
      if b[0] == 0 {
        r := Success(false);
      } else if b[0] == 1 {
        r := Success(true);
      } else {
        r := Failure(BadBool(b[0]));
      }
    }

    method ReadEntry() returns (r: Result<Entry, CodecError>)
      modifies this
      ensures Agrees(ParseEntry(old(rest)), r, rest)
    {
      var term :- U64();
      var len :- U32();
      var command :- Take(len);
      r := Success(Entry(term, command));
    }

    /** The counted loop over the entries of an append. */
    method ReadEntries(count: nat) returns (r: Result<seq<Entry>, CodecError>)
      modifies this
      ensures Agrees(ParseEntries(old(rest), count), r, rest)
    {
      var entries := [];
      PrependNone(ParseEntries(rest, count));
      for k := 0 to count
        invariant ParseEntries(old(rest), count) == Prepend(entries, ParseEntries(rest, count - k))
      {
        var e := ReadEntry();
        if e.Failure? {
          return Failure(e.error);
        }
        PrependOne(entries, e.value, ParseEntries(rest, count - k - 1));
        entries := entries + [e.value];
      }
      assert entries + [] == entries;
      r := Success(entries);
    }

    method ReadMessage(kind: byte) returns (r: Result<Message, CodecError>)
      modifies this
      ensures Agrees(Parse(kind, old(rest)), r, rest)
    {
      if kind == 1 {
        var term :- U64();
        var index :- U64();
        var last :- U64();
        r := Success(RequestVote(term, index, last));
      } else if kind == 2 {
        var term :- U64();
        var granted :- Bool();
        r := Success(VoteResponse(term, granted));
      } else if kind == 3 {
        r := ReadAppend();
      } else if kind == 4 {
        var term :- U64();
        var success :- Bool();
        var index :- U64();
        r := Success(AppendResponse(term, success, index));
      } else {
        r := Failure(UnknownType(kind));
      }
    }

    method ReadAppend() returns (r: Result<Message, CodecError>)
      modifies this
      ensures Agrees(ParseAppend(old(rest)), r, rest)
    {
      var term :- U64();
      var prev :- U64();
      var prevTerm :- U64();
      var commit :- U64();
      var count :- U32();
      if count > |rest| / 12 {
        return Failure(Truncated);
      }
      var entries :- ReadEntries(count);
      r := Success(AppendEntries(term, prev, prevTerm, entries, commit));
    }
  }

  /** The result of parsing more entries after some have been read. */
  function Prepend(es: seq<Entry>, p: Parsed<seq<Entry>>): Parsed<seq<Entry>> {
    match p
    case Got(more, rest) => Got(es + more, rest)
    case Bad(e) => Bad(e)
  }

  lemma PrependNone(p: Parsed<seq<Entry>>)
    ensures Prepend([], p) == p
  {
    if p.Got? {
      assert [] + p.value == p.value;
    }
  }

  lemma PrependOne(es: seq<Entry>, e: Entry, p: Parsed<seq<Entry>>)
    ensures Prepend(es, Prepend([e], p)) == Prepend(es + [e], p)
  {
    if p.Got? {
      assert es + ([e] + p.value) == es + [e] + p.value;
    }
  }

  method DecodeMessage(kind: byte, payload: seq<byte>) returns (r: Result<Message, CodecError>)
    ensures r == Decode(kind, payload)
  {
    var reader := new Reader(payload);
    var m :- reader.ReadMessage(kind);
    if reader.rest != [] {
      return Failure(TrailingBytes);
    }
    r := Success(m);
  }

  method EncodeMessage(m: Message) returns (kind: byte, p: seq<byte>)
    ensures kind == Kind(m) && p == Encode(m)
  {
    p := ToLe(m.term, 8);
    kind := Kind(m);
    match m {
      case RequestVote(_, index, last) =>
        p := p + ToLe(index, 8);
        p := p + ToLe(last, 8);
      case VoteResponse(_, granted) =>
        p := p + EncodeBool(granted);
      case AppendEntries(_, prev, prevTerm, entries, commit) =>
        p := p + ToLe(prev, 8);
        p := p + ToLe(prevTerm, 8);
        p := p + ToLe(commit, 8);
        p := p + ToLe(|entries|, 4);
        Reassociate(ToLe(m.term, 8), ToLe(prev, 8), ToLe(prevTerm, 8), ToLe(commit, 8), ToLe(|entries|, 4),
                    EncodeEntries(entries));
        p := ExtendWithEntries(p, entries);
      case AppendResponse(_, success, index) =>
        p := p + EncodeBool(success);
        p := p + ToLe(index, 8);
    }
  }

  lemma Reassociate<T>(a: seq<T>, b: seq<T>, c: seq<T>, d: seq<T>, e: seq<T>, f: seq<T>)
    ensures a + b + c + d + e + f == a + (b + (c + (d + (e + f))))
  {
  }

  lemma FourParts<T>(p: seq<T>, x: seq<T>, y: seq<T>, z: seq<T>, rest: seq<T>)
    ensures p + (x + (y + z) + rest) == p + x + y + z + rest
  {
  }

  /** The loop that extends the buffer by one entry after another. */
  method ExtendWithEntries(buffer: seq<byte>, entries: seq<Entry>) returns (p: seq<byte>)
    ensures p == buffer + EncodeEntries(entries)
  {
    p := buffer;
    for k := 0 to |entries|
      invariant p + EncodeEntries(entries[k..]) == buffer + EncodeEntries(entries)
    {
      var e := entries[k];
      assert entries[k..][1..] == entries[k + 1..];
      FourParts(p, ToLe(e.term, 8), ToLe(|e.command|, 4), e.command, EncodeEntries(entries[k + 1..]));
      p := p + ToLe(e.term, 8);
      p := p + ToLe(|e.command|, 4);
      p := p + e.command;
    }
  }
}
