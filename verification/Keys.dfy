/** Keys of the ordered store: big-endian indices sort as numbers do, and a scan of a table has only one
    possible result. */
module Keys {
  import opened Types
  import opened Bytes

  type Key = seq<byte>
  type Table = map<seq<byte>, seq<byte>>

  const ENTRY_PREFIX: byte := 101

  // ---------------------------------------------------------------- keys in order

  function ToBe(x: nat, n: nat): (b: seq<byte>)
    ensures |b| == n
  {
    if n == 0 then [] else ToBe(x / 256, n - 1) + [(x % 256) as byte]
  }

  function EntryKey(index: Index): Key {
    [ENTRY_PREFIX] + ToBe(index, 8)
  }

  /** The order a scan returns keys in. */
  predicate LexLess(x: Key, y: Key) {
    y != [] && (x == [] || x[0] < y[0] || (x[0] == y[0] && LexLess(x[1..], y[1..])))
  }

  lemma {:induction false} LexAsymmetric(x: Key, y: Key)
    requires LexLess(x, y)
    ensures x != y && !LexLess(y, x)
  {
    if x != [] && x[0] == y[0] {
      LexAsymmetric(x[1..], y[1..]);
    }
  }

  lemma {:induction false} LexTransitive(x: Key, y: Key, z: Key)
    requires LexLess(x, y) && LexLess(y, z)
    ensures LexLess(x, z)
  {
    if x != [] && x[0] == y[0] && y[0] == z[0] {
      LexTransitive(x[1..], y[1..], z[1..]);
    }
  }

  lemma {:induction false} LexTotal(x: Key, y: Key)
    requires x != y
    ensures LexLess(x, y) || LexLess(y, x)
  {
    if x != [] && y != [] && x[0] == y[0] {
      assert x == [x[0]] + x[1..] && y == [y[0]] + y[1..];
      LexTotal(x[1..], y[1..]);
    }
  }

  lemma {:induction false} LexExtend(x: Key, y: Key, c: byte, d: byte)
    requires |x| == |y| && (LexLess(x, y) || (x == y && c < d))
    ensures LexLess(x + [c], y + [d])
  {
    if x != [] {
      assert (x + [c])[1..] == x[1..] + [c] && (y + [d])[1..] == y[1..] + [d];
      if x[0] == y[0] {
        LexExtend(x[1..], y[1..], c, d);
      }
    }
  }

  lemma {:induction false} BeOrder(x: nat, y: nat, n: nat)
    requires x < y < Pow256(n)
    ensures LexLess(ToBe(x, n), ToBe(y, n))
  {
    if n > 0 {
      if x / 256 < y / 256 {
        BeOrder(x / 256, y / 256, n - 1);
      }
      LexExtend(ToBe(x / 256, n - 1), ToBe(y / 256, n - 1), (x % 256) as byte, (y % 256) as byte);
    }
  }

  /** Keys of later entries sort later. */
  lemma KeyOrder(i: Index, j: Index)
    requires i < j < U64
    ensures LexLess(EntryKey(i), EntryKey(j))
  {
    PowerValues();
    BeOrder(i, j, 8);
    assert EntryKey(i)[1..] == ToBe(i, 8) && EntryKey(j)[1..] == ToBe(j, 8);
  }

  lemma KeysDistinct(i: Index, j: Index)
    requires i < U64 && j < U64 && EntryKey(i) == EntryKey(j)
    ensures i == j
  {
    if i < j {
      KeyOrder(i, j);
      LexAsymmetric(EntryKey(i), EntryKey(j));
    } else if j < i {
      KeyOrder(j, i);
      LexAsymmetric(EntryKey(j), EntryKey(i));
    }
  }

  // ---------------------------------------------------------------- scans

  ghost predicate Sorted(s: seq<(Key, seq<byte>)>) {
    forall i, j :: 0 <= i < j < |s| ==> LexLess(s[i].0, s[j].0)
  }

  /** What `scan(prefix)` returns: every pair whose key starts with the prefix, once, in key order. */
  ghost predicate IsScan(t: Table, prefix: Key, s: seq<(Key, seq<byte>)>) {
    && Sorted(s)
    && forall p :: p in s <==> p.0 in t && t[p.0] == p.1 && prefix <= p.0
  }

  lemma {:induction false} SortedUnique(s: seq<(Key, seq<byte>)>, s': seq<(Key, seq<byte>)>)
    requires Sorted(s) && Sorted(s') && forall p :: p in s <==> p in s'
    ensures s == s'
  {
    if s == [] {
      if s' != [] {
        HasMember(s');
      }
    } else {
      assert s[0] in s' && s'[0] in s';
      FirstIsFirst(s, s');
      forall p | p in s[1..] ensures p in s'[1..] {
        TailMember(s, s', p);
      }
      forall p | p in s'[1..] ensures p in s[1..] {
        TailMember(s', s, p);
      }
      SortedUnique(s[1..], s'[1..]);
      assert s == [s[0]] + s[1..] && s' == [s'[0]] + s'[1..];
    }
  }

  lemma HasMember<T>(s: seq<T>)
    requires s != []
    ensures exists p :: p in s
  {
    assert s[0] in s;
  }

  lemma FirstIsFirst(s: seq<(Key, seq<byte>)>, s': seq<(Key, seq<byte>)>)
    requires Sorted(s) && Sorted(s') && s != [] && s' != [] && s[0] in s' && s'[0] in s
    ensures s[0] == s'[0]
  {
    var j :| 0 <= j < |s'| && s'[j] == s[0];
    var k :| 0 <= k < |s| && s[k] == s'[0];
    if j > 0 && k > 0 {
      LexAsymmetric(s[0].0, s[k].0);
    }
  }

  lemma TailMember(s: seq<(Key, seq<byte>)>, s': seq<(Key, seq<byte>)>, p: (Key, seq<byte>))
    requires Sorted(s) && s' != [] && s != [] && s[0] == s'[0] && p in s[1..] && p in s'
    ensures p in s'[1..]
  {
    var i :| 0 <= i < |s[1..]| && s[1..][i] == p;
    assert LexLess(s[0].0, s[i + 1].0);
    LexAsymmetric(s[0].0, p.0);
    var j :| 0 <= j < |s'| && s'[j] == p;
    assert s'[1..][j - 1] == p;
  }
}
