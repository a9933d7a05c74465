/** Canonical binary encoding: fixed-width big-endian integers and length-prefixed strings.
    Encoders take the bytes that follow, so that sequences of fields compose by nesting. */
module Canonical {
  import opened Numeric
  import opened Bytes

  const TWO_64 := 0x1_0000_0000_0000_0000

  function Pow256(n: nat): (p: int)
    ensures p >= 1
  {
    if n == 0 then 1 else 256 * Pow256(n - 1)
  }

  /** The n low-order base-256 digits of v, most significant first. */
  function BigEndian(v: nat, n: nat): (bs: Bytes)
    ensures |bs| == n
  {
    if n == 0 then [] else BigEndian(v / 256, n - 1) + [v % 256]
  }

  function FromBigEndian(bs: Bytes): (v: nat)
    ensures v < Pow256(|bs|)
  {
    if bs == [] then 0 else 256 * FromBigEndian(bs[..|bs| - 1]) + bs[|bs| - 1]
  }

  lemma {:induction false} BigEndianDecodes(v: nat, n: nat)
    requires v < Pow256(n)
    ensures FromBigEndian(BigEndian(v, n)) == v
  {
    if n > 0 {
      BigEndianDecodes(v / 256, n - 1);
      assert BigEndian(v, n)[..n - 1] == BigEndian(v / 256, n - 1);
    }
  }

  lemma {:induction false} BigEndianEncodes(bs: Bytes)
    ensures BigEndian(FromBigEndian(bs), |bs|) == bs
  {
    if bs != [] {
      var n := |bs| - 1;
      BigEndianEncodes(bs[..n]);
      var v := FromBigEndian(bs);
      assert v / 256 == FromBigEndian(bs[..n]) && v % 256 == bs[n];
      assert bs[..n] + [bs[n]] == bs;
    }
  }

  lemma Pow256Of8()
    ensures Pow256(8) == TWO_64
  {
    assert Pow256(4) == 0x1_0000_0000;
  }

  // ------------------------------------------------------------- field encoders

  function U64Bytes(v: u64): (bs: Bytes)
    ensures |bs| == 8
  {
    BigEndian(v, 8)
  }

  /** Two's complement. */
  function I64Bytes(v: i64): (bs: Bytes)
    ensures |bs| == 8
  {
    U64Bytes(if v < 0 then v + TWO_64 else v)
  }

  function PutU64(v: u64, rest: Bytes): Bytes { U64Bytes(v) + rest }

  function PutI64(v: i64, rest: Bytes): Bytes { I64Bytes(v) + rest }

  function PutBytes(bs: Bytes, rest: Bytes): Bytes
    requires |bs| <= U64_MAX
  {
    PutU64(|bs|, bs + rest)
  }

  function PutBool(b: bool, rest: Bytes): Bytes { PutU64(if b then 1 else 0, rest) }

  function FromU64Bytes(bs: Bytes): u64
    requires |bs| == 8
  {
    Pow256Of8();
    FromBigEndian(bs)
  }

  function FromI64Bytes(bs: Bytes): i64
    requires |bs| == 8
  {
    var v: int := FromU64Bytes(bs);
    if v > I64_MAX then v - TWO_64 else v
  }

  lemma U64RoundTrip(v: u64)
    ensures FromU64Bytes(U64Bytes(v)) == v
  {
    Pow256Of8();
    BigEndianDecodes(v, 8);
  }

  lemma I64RoundTrip(v: i64)
    ensures FromI64Bytes(I64Bytes(v)) == v
  {
    U64RoundTrip(if v < 0 then v + TWO_64 else v);
  }

  lemma U64Canonical(bs: Bytes)
    requires |bs| == 8
    ensures U64Bytes(FromU64Bytes(bs)) == bs
  {
    BigEndianEncodes(bs);
  }

  lemma I64Canonical(bs: Bytes)
    requires |bs| == 8
    ensures I64Bytes(FromI64Bytes(bs)) == bs
  {
    U64Canonical(bs);
  }

  // ----------------------------------------- fields can be told apart in a stream

  lemma FixedPrefix(a: Bytes, b: Bytes, x: Bytes, y: Bytes)
    requires |a| == |b| && a + x == b + y
    ensures a == b && x == y
  {
    assert a == (a + x)[..|a|] && b == (b + y)[..|b|];
    assert x == (a + x)[|a|..] && y == (b + y)[|b|..];
  }

  lemma U64Prefix(a: u64, b: u64, x: Bytes, y: Bytes)
    requires PutU64(a, x) == PutU64(b, y)
    ensures a == b && x == y
  {
    FixedPrefix(U64Bytes(a), U64Bytes(b), x, y);
    U64RoundTrip(a);
    U64RoundTrip(b);
  }

  lemma I64Prefix(a: i64, b: i64, x: Bytes, y: Bytes)
    requires PutI64(a, x) == PutI64(b, y)
    ensures a == b && x == y
  {
    FixedPrefix(I64Bytes(a), I64Bytes(b), x, y);
    I64RoundTrip(a);
    I64RoundTrip(b);
  }

  lemma BytesPrefix(a: Bytes, b: Bytes, x: Bytes, y: Bytes)
    requires |a| <= U64_MAX && |b| <= U64_MAX && PutBytes(a, x) == PutBytes(b, y)
    ensures a == b && x == y
  {
    U64Prefix(|a|, |b|, a + x, b + y);
    FixedPrefix(a, b, x, y);
  }

  // ------------------------------------------------------------------------ text

  predicate Continuation(b: byte) { 0x80 <= b <= 0xBF }

  /** Well-formed UTF-8, section 4 of RFC 3629. */
  predicate ValidUtf8(bs: Bytes)
    decreases |bs|
  {
    if bs == [] then true
    else if bs[0] < 0x80 then ValidUtf8(bs[1..])
    else if 0xC2 <= bs[0] <= 0xDF then |bs| >= 2 && Continuation(bs[1]) && ValidUtf8(bs[2..])
    else if 0xE0 <= bs[0] <= 0xEF then
      && |bs| >= 3 && Continuation(bs[1]) && Continuation(bs[2])
      && (bs[0] == 0xE0 ==> bs[1] >= 0xA0) && (bs[0] == 0xED ==> bs[1] <= 0x9F)
      && ValidUtf8(bs[3..])
    else if 0xF0 <= bs[0] <= 0xF4 then
      && |bs| >= 4 && Continuation(bs[1]) && Continuation(bs[2]) && Continuation(bs[3])
      && (bs[0] == 0xF0 ==> bs[1] >= 0x90) && (bs[0] == 0xF4 ==> bs[1] <= 0x8F)
      && ValidUtf8(bs[4..])
    else false
  }

  /** The bytes of an ASCII word. */
  function Label(s: string): (t: Text)
    ensures |t| == |s|
  {
    seq(|s|, i requires 0 <= i < |s| => (s[i] as int) % 128)
  }

  lemma {:induction false} AsciiIsUtf8(t: Text)
    requires forall i :: 0 <= i < |t| ==> t[i] < 128
    ensures ValidUtf8(t)
  {
    if t != [] { AsciiIsUtf8(t[1..]); }
  }

  // -------------------------------------------------------------- canonical writer

  /** The append-only buffer behind every canonical encoding. */
  class CanonicalWriter {
    var bytes: Bytes

    constructor ()
      ensures bytes == []
    {
      bytes := [];
    }

    method Tag(tag: Bytes)
      modifies this
      ensures bytes == old(bytes) + tag
    {
      bytes := bytes + tag;
    }

    method Hash(value: Bytes)
      modifies this
      ensures bytes == old(bytes) + value
    {
      bytes := bytes + value;
    }

    method U64(v: u64)
      modifies this
      ensures bytes == old(bytes) + PutU64(v, [])
    {
      bytes := bytes + U64Bytes(v);
    }

    method I64(v: i64)
      modifies this
      ensures bytes == old(bytes) + PutI64(v, [])
    {
      bytes := bytes + I64Bytes(v);
    }

    method Blob(value: Bytes)
      requires |value| <= U64_MAX
      modifies this
      ensures bytes == old(bytes) + PutBytes(value, [])
    {
      U64(|value|);
      bytes := bytes + value;
    }
  }
}
