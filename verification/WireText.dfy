/** Numbers and byte strings as text: canonical decimal and lowercase hexadecimal. */
module WireText {
  import opened Common
  import opened Numeric
  import opened Bytes
  import opened Kernel
  import opened Sorting

  const MINUS: byte := 45
  const ZERO_DIGIT: byte := 48

  // ---------------------------------------------------------------------- decimal

  predicate IsDigit(b: byte) { 48 <= b <= 57 }

  predicate AllDigits(t: Text) { forall i :: 0 <= i < |t| ==> IsDigit(t[i]) }

  /** Decimal digits without leading zeros. */
  function Digits(v: nat): (t: Text)
    ensures |t| > 0 && AllDigits(t)
  {
    if v < 10 then [48 + v] else Digits(v / 10) + [48 + v % 10]
  }

  function DigitsValue(t: Text): nat
    requires AllDigits(t)
    decreases |t|
  {
    if t == [] then 0 else 10 * DigitsValue(t[..|t| - 1]) + (t[|t| - 1] - 48)
  }

  function Signed(v: int): Text {
    if v < 0 then [MINUS] + Digits(-v) else Digits(v)
  }

  /** Non-empty digits, with no leading zero except in "0" itself. */
  predicate CanonicalDigits(t: Text) {
    t != [] && (t[0] == ZERO_DIGIT ==> t == [ZERO_DIGIT]) && AllDigits(t)
  }

  function DecimalU64(raw: Text): Option<u64> {
    if !CanonicalDigits(raw) then None
    else if DigitsValue(raw) > U64_MAX then None
    else Some(DigitsValue(raw))
  }

  function DecimalI64(raw: Text): Option<i64> {
    if raw == [] || raw == [MINUS, ZERO_DIGIT] then None
    else
      var digits := if raw[0] == MINUS then raw[1..] else raw;
      if !CanonicalDigits(digits) then None
      else
        var n: int := DigitsValue(digits);
        var v := if raw[0] == MINUS then -n else n;
        if v < I64_MIN || v > I64_MAX then None else Some(v)
  }

  lemma {:induction false} DigitsRead(v: nat)
    ensures CanonicalDigits(Digits(v)) && DigitsValue(Digits(v)) == v
    ensures v > 0 ==> Digits(v)[0] != ZERO_DIGIT
  {
    if v >= 10 {
      DigitsRead(v / 10);
      assert Digits(v)[..|Digits(v)| - 1] == Digits(v / 10);
      assert Digits(v)[0] == Digits(v / 10)[0];
    }
  }

  lemma {:induction false} LeadingDigitCounts(t: Text)
    requires AllDigits(t) && t != [] && t[0] != ZERO_DIGIT
    ensures DigitsValue(t) > 0
    decreases |t|
  {
    var n := |t| - 1;
    if n > 0 { LeadingDigitCounts(t[..n]); }
  }

  lemma {:induction false} DigitsExact(t: Text)
    requires CanonicalDigits(t)
    ensures Digits(DigitsValue(t)) == t
    decreases |t|
  {
    var n := |t| - 1;
    if n == 0 {
      assert t == [t[0]] && t[..0] == [];
    } else {
      LeadingDigitCounts(t[..n]);
      DigitsExact(t[..n]);
      assert t == t[..n] + [t[n]];
    }
  }

  /** Unsigned text: each value has exactly one accepted spelling, the one written. */
  lemma DecimalU64Exact(raw: Text, v: u64)
    ensures DecimalU64(raw) == Some(v) <==> raw == Digits(v)
  {
    DigitsRead(v);
    if DecimalU64(raw) == Some(v) { DigitsExact(raw); }
  }

  /** The same for signed text. */
  lemma DecimalI64Exact(raw: Text, v: i64)
    ensures DecimalI64(raw) == Some(v) <==> raw == Signed(v)
  {
    DigitsRead(Abs(v));
    if raw == Signed(v) {
      if v < 0 {
        assert raw[1..] == Digits(Abs(v));
        assert raw[1] != ZERO_DIGIT;
      }
    }
    if DecimalI64(raw) == Some(v) {
      if raw[0] == MINUS {
        var digits := raw[1..];
        DigitsExact(digits);
        assert raw == [MINUS] + digits;
      } else {
        DigitsExact(raw);
      }
    }
  }

  // ------------------------------------------------------------------ hexadecimal

  function HexDigit(n: int): byte
    requires 0 <= n < 16
  {
    if n < 10 then 48 + n else 87 + n
  }

  function HexNibble(b: byte): Option<byte> {
    if 48 <= b <= 57 then Some(b - 48)
    else if 97 <= b <= 102 then Some(b - 87)
    else None
  }

  function HexPair(b: byte): (t: Text)
    ensures |t| == 2
  {
    [HexDigit(b / 16), HexDigit(b % 16)]
  }

  function HexOf(bs: Bytes): (t: Text)
    ensures |t| == 2 * |bs|
    decreases |bs|
  {
    if bs == [] then [] else HexPair(bs[0]) + HexOf(bs[1..])
  }

  function DecodeHex(raw: Text): Option<Bytes>
    decreases |raw|
  {
    if raw == [] then Some([])
    else if |raw| == 1 then None
    else
      var high := HexNibble(raw[0]);
      var low := HexNibble(raw[1]);
      var rest := DecodeHex(raw[2..]);
      if high.None? || low.None? || rest.None? then None
      else Some([high.value * 16 + low.value] + rest.value)
  }

  /** Hexadecimal text: decoding accepts exactly the lowercase rendering of its result. */
  lemma {:induction false} HexExact(raw: Text, bs: Bytes)
    ensures DecodeHex(raw) == Some(bs) <==> raw == HexOf(bs)
    decreases |raw|
  {
    if raw == [] || bs == [] {
    } else if |raw| > 1 {
      HexExact(raw[2..], bs[1..]);
      assert raw == [raw[0], raw[1]] + raw[2..];
      assert bs == [bs[0]] + bs[1..];
      HexPairExact(raw[0], raw[1], bs[0]);
      if raw == HexOf(bs) {
        assert raw[0] == HexPair(bs[0])[0] && raw[1] == HexPair(bs[0])[1];
        assert raw[2..] == HexOf(bs[1..]);
      }
    }
  }

  lemma HexPairExact(high: byte, low: byte, b: byte)
    ensures [high, low] == HexPair(b)
            <==> HexNibble(high).Some? && HexNibble(low).Some?
                 && HexNibble(high).value * 16 + HexNibble(low).value == b
  {
    if [high, low] == HexPair(b) {
      assert high == HexPair(b)[0] && low == HexPair(b)[1];
      assert HexNibble(HexDigit(b / 16)) == Some(b / 16) && HexNibble(HexDigit(b % 16)) == Some(b % 16);
    }
  }

  method ReadHex(raw: Text) returns (r: Option<Bytes>)
    ensures r == DecodeHex(raw)
  {
    if |raw| % 2 != 0 {
      OddHexFails(raw);
      return None;
    }
    var output: Bytes := [];
    var i := 0;
    assert raw[0..] == raw;
    ghost var all := DecodeHex(raw);
    if all.Some? { assert output + all.value == all.value; }
    while i < |raw|
      invariant 0 <= i <= |raw| && i % 2 == 0
      invariant var rest := DecodeHex(raw[i..]);
                DecodeHex(raw) == if rest.None? then None else Some(output + rest.value)
    {
      assert raw[i..][0] == raw[i] && raw[i..][1] == raw[i + 1] && raw[i..][2..] == raw[i + 2..];
      var high := HexNibble(raw[i]);
      var low := HexNibble(raw[i + 1]);
      if high.None? || low.None? { return None; }
      ghost var rest := DecodeHex(raw[i + 2..]);
      if rest.Some? {
        assert output + ([high.value * 16 + low.value] + rest.value)
            == (output + [high.value * 16 + low.value]) + rest.value;
      }
      output := output + [high.value * 16 + low.value];
      i := i + 2;
    }
    assert output + [] == output;
    return Some(output);
  }

  lemma {:induction false} OddHexFails(raw: Text)
    requires |raw| % 2 != 0
    ensures DecodeHex(raw) == None
    decreases |raw|
  {
    if |raw| > 1 { OddHexFails(raw[2..]); }
  }

  method WriteHex(bs: Bytes) returns (t: Text)
    ensures t == HexOf(bs)
  {
    t := [];
    assert bs[0..] == bs;
    for i := 0 to |bs|
      invariant t + HexOf(bs[i..]) == HexOf(bs)
    {
      assert bs[i..][0] == bs[i] && bs[i..][1..] == bs[i + 1..];
      assert t + (HexPair(bs[i]) + HexOf(bs[i + 1..])) == (t + HexPair(bs[i])) + HexOf(bs[i + 1..]);
      t := t + HexPair(bs[i]);
    }
    assert HexOf(bs[|bs|..]) == [] && t + [] == t;
  }

  /** A SHA-256 value in text: 64 lowercase digits. */
  function HashText(raw: Text): Option<Hash32> {
    if |raw| != 64 then None
    else
      var bytes := DecodeHex(raw);
      if bytes.None? || |bytes.value| != 32 then None else Some(bytes.value)
  }

  lemma HashTextExact(raw: Text, h: Hash32)
    ensures HashText(raw) == Some(h) <==> raw == HexOf(h)
  {
    HexExact(raw, h);
  }

  /** Sorting hexadecimal text sorts the bytes it denotes. */
  lemma {:induction false} HexKeepsOrder(a: Bytes, b: Bytes)
    ensures LexLeq(HexOf(a), HexOf(b)) == LexLeq(a, b)
    decreases |a|
  {
    if a != [] && b != [] {
      var x, y := HexOf(a), HexOf(b);
      assert x[0] == HexPair(a[0])[0] && y[0] == HexPair(b[0])[0];
      assert x[1..][0] == HexPair(a[0])[1] && y[1..][0] == HexPair(b[0])[1];
      assert x[1..][1..] == HexOf(a[1..]) && y[1..][1..] == HexOf(b[1..]);
      HexKeepsOrder(a[1..], b[1..]);
    }
  }

  function HexAll(hs: seq<Bytes>): (ts: seq<Text>)
    ensures |ts| == |hs|
    decreases |hs|
  {
    if hs == [] then [] else [HexOf(hs[0])] + HexAll(hs[1..])
  }

  lemma {:induction false} HexAllInsert(x: Bytes, hs: seq<Bytes>)
    ensures Insert(HexOf(x), HexAll(hs), LexLeq) == HexAll(Insert(x, hs, LexLeq))
    decreases |hs|
  {
    if hs != [] {
      HexKeepsOrder(x, hs[0]);
      assert HexAll(hs)[1..] == HexAll(hs[1..]);
      if LexLeq(x, hs[0]) {
        assert ([x] + hs)[1..] == hs;
      } else {
        HexAllInsert(x, hs[1..]);
        assert ([hs[0]] + Insert(x, hs[1..], LexLeq))[1..] == Insert(x, hs[1..], LexLeq);
      }
    }
  }

  lemma {:induction false} HexAllSort(hs: seq<Bytes>)
    ensures Sort(HexAll(hs), LexLeq) == HexAll(Sort(hs, LexLeq))
    decreases |hs|
  {
    if hs != [] {
      HexAllSort(hs[1..]);
      assert HexAll(hs)[1..] == HexAll(hs[1..]);
      HexAllInsert(hs[0], Sort(hs[1..], LexLeq));
    }
  }
}
