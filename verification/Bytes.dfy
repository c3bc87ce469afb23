/** Byte strings, little-endian integers and single mask bits. */
module Bytes {

  type byte = b: int | 0 <= b < 256
  type bytes = seq<byte>

  function Zeros(n: nat): (z: bytes)
    ensures |z| == n && forall i :: 0 <= i < n ==> z[i] == 0
  {
    seq(n, _ => 0)
  }

  function U32(b: bytes, at: nat): (v: nat)
    requires at + 4 <= |b|
    ensures v < 0x1_0000_0000
  {
    var w: int, x: int, y: int, z: int := b[at], b[at + 1], b[at + 2], b[at + 3];
    w + 0x100 * x + 0x1_0000 * y + 0x100_0000 * z
  }

  function U64(b: bytes, at: nat): (v: nat)
    requires at + 8 <= |b|
    ensures v < 0x1_0000_0000_0000_0000
  {
    U32(b, at) + 0x1_0000_0000 * U32(b, at + 4)
  }

  /** The two's-complement reading of a 32-bit field. */
  function Signed32(v: nat): int
    requires v < 0x1_0000_0000
  {
    if v < 0x8000_0000 then v else v - 0x1_0000_0000
  }

  function LE32(v: nat): (b: bytes)
    requires v < 0x1_0000_0000
    ensures |b| == 4
  {
    [v % 0x100, v / 0x100 % 0x100, v / 0x1_0000 % 0x100, v / 0x100_0000]
  }

  function LE64(v: nat): (b: bytes)
    requires v < 0x1_0000_0000_0000_0000
    ensures |b| == 8
  {
    LE32(v % 0x1_0000_0000) + LE32(v / 0x1_0000_0000)
  }

  lemma Digits(v: nat)
    ensures v % 0x100 + 0x100 * (v / 0x100 % 0x100) + 0x1_0000 * (v / 0x1_0000 % 0x100)
            + 0x100_0000 * (v / 0x100_0000) == v
  {
    var a, b, c := v / 0x100, v / 0x1_0000, v / 0x100_0000;
    assert v == 0x100 * a + v % 0x100;
    assert a == 0x100 * b + a % 0x100;
    assert b == 0x100 * c + b % 0x100;
  }

  lemma ReadLE32(pre: bytes, v: nat, post: bytes)
    requires v < 0x1_0000_0000
    ensures U32(pre + LE32(v) + post, |pre|) == v
  {
    var all, b := pre + LE32(v) + post, LE32(v);
    assert all[|pre|] == b[0] && all[|pre| + 1] == b[1] && all[|pre| + 2] == b[2] && all[|pre| + 3] == b[3];
    Digits(v);
  }

  lemma ReadLE64(pre: bytes, v: nat, post: bytes)
    requires v < 0x1_0000_0000_0000_0000
    ensures U64(pre + LE64(v) + post, |pre|) == v
  {
    var lo, hi := LE32(v % 0x1_0000_0000), LE32(v / 0x1_0000_0000);
    assert pre + LE64(v) + post == pre + lo + (hi + post);
    assert pre + LE64(v) + post == (pre + lo) + hi + post;
    ReadLE32(pre, v % 0x1_0000_0000, hi + post);
    ReadLE32(pre + lo, v / 0x1_0000_0000, post);
  }

  lemma WriteU32(b: bytes, at: nat)
    requires at + 4 <= |b|
    ensures LE32(U32(b, at)) == b[at..at + 4]
  {
    var w: int, x: int, y: int, z: int := b[at], b[at + 1], b[at + 2], b[at + 3];
    var v := U32(b, at);
    assert v / 0x100 == x + 0x100 * y + 0x1_0000 * z;
    assert v / 0x1_0000 == y + 0x100 * z;
    assert v / 0x100_0000 == z;
  }

  lemma SplitWide(lo: nat, hi: nat)
    requires lo < 0x1_0000_0000
    ensures (lo + 0x1_0000_0000 * hi) % 0x1_0000_0000 == lo
    ensures (lo + 0x1_0000_0000 * hi) / 0x1_0000_0000 == hi
  {
  }

  lemma WriteU64(b: bytes, at: nat)
    requires at + 8 <= |b|
    ensures LE64(U64(b, at)) == b[at..at + 8]
  {
    WriteU32(b, at);
    WriteU32(b, at + 4);
    SplitWide(U32(b, at), U32(b, at + 4));
    assert LE64(U64(b, at)) == LE32(U32(b, at)) + LE32(U32(b, at + 4));
    assert b[at..at + 8] == b[at..at + 4] + b[at + 4..at + 8];
  }

  /** x & bit != 0, for a power of two. */
  predicate HasBit(x: nat, bit: nat)
    requires bit > 0
  {
    x / bit % 2 == 1
  }

  /** x | bit, for a power of two. */
  function WithBit(x: nat, bit: nat): nat
    requires bit > 0
  {
    if HasBit(x, bit) then x else x + bit
  }

  /** Consecutive pieces of n bytes; a shorter rest is dropped. */
  function Split(b: bytes, n: nat): (pieces: seq<bytes>)
    requires n > 0
    ensures forall i :: 0 <= i < |pieces| ==> |pieces[i]| == n
  {
    if |b| < n then [] else [b[..n]] + Split(b[n..], n)
  }

  predicate Distinct<T(==)>(s: seq<T>) {
    forall i, j :: 0 <= i < j < |s| ==> s[i] != s[j]
  }

  function Joined(pieces: seq<bytes>): bytes {
    if pieces == [] then [] else pieces[0] + Joined(pieces[1..])
  }

  lemma {:induction false} JoinedAppends(a: seq<bytes>, b: seq<bytes>)
    ensures Joined(a + b) == Joined(a) + Joined(b)
  {
    if a == [] {
      assert a + b == b;
    } else {
      assert (a + b)[1..] == a[1..] + b;
      JoinedAppends(a[1..], b);
    }
  }

  /** One more piece of a stream. */
  lemma JoinedNext(pieces: seq<bytes>, k: nat)
    requires k < |pieces|
    ensures Joined(pieces[..k + 1]) == Joined(pieces[..k]) + pieces[k]
  {
    assert pieces[..k + 1] == pieces[..k] + [pieces[k]];
    JoinedAppends(pieces[..k], [pieces[k]]);
    assert Joined([pieces[k]]) == pieces[k] + Joined([pieces[k]][1..]);
  }

  lemma JoinedSplits(pieces: seq<bytes>, j: nat, k: nat)
    requires j <= k <= |pieces|
    ensures Joined(pieces[..k]) == Joined(pieces[..j]) + Joined(pieces[j..k])
  {
    assert pieces[..k] == pieces[..j] + pieces[j..k];
    JoinedAppends(pieces[..j], pieces[j..k]);
  }

  // ------------------------------------------------------ identity records of 20 bytes

  predicate AllRecords(records: seq<bytes>) {
    forall i :: 0 <= i < |records| ==> |records[i]| == 20
  }

  lemma {:induction false} JoinedLength(records: seq<bytes>)
    requires AllRecords(records)
    ensures |Joined(records)| == 20 * |records|
  {
    if records != [] {
      JoinedLength(records[1..]);
    }
  }

  lemma {:induction false} SplitOfJoined(records: seq<bytes>)
    requires AllRecords(records)
    ensures Split(Joined(records), 20) == records
  {
    if records != [] {
      var b := Joined(records);
      assert b[..20] == records[0] && b[20..] == Joined(records[1..]);
      SplitOfJoined(records[1..]);
    }
  }

  lemma {:induction false} JoinedOfSplit(b: bytes)
    requires |b| % 20 == 0
    ensures Joined(Split(b, 20)) == b && AllRecords(Split(b, 20))
  {
    if |b| >= 20 {
      JoinedOfSplit(b[20..]);
      var pieces := Split(b, 20);
      assert pieces[1..] == Split(b[20..], 20) && pieces[0] == b[..20];
      assert b == b[..20] + b[20..];
    }
  }
}
