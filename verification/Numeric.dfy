/** Checked fixed-point arithmetic of the simulator core. */
module Numeric {
  import opened Common

  const I64_MIN := -0x8000_0000_0000_0000
  const I64_MAX := 0x7fff_ffff_ffff_ffff
  const U64_MAX := 0xffff_ffff_ffff_ffff
  const I128_MIN := -0x8000_0000_0000_0000_0000_0000_0000_0000
  const I128_MAX := 0x7fff_ffff_ffff_ffff_ffff_ffff_ffff_ffff
  const U128_MAX := 0xffff_ffff_ffff_ffff_ffff_ffff_ffff_ffff

  predicate IsI64(x: int) { I64_MIN <= x <= I64_MAX }
  predicate IsI128(x: int) { I128_MIN <= x <= I128_MAX }

  type i64 = x: int | -0x8000_0000_0000_0000 <= x <= 0x7fff_ffff_ffff_ffff
  type u64 = x: int | 0 <= x <= 0xffff_ffff_ffff_ffff

  function Neg(x: int): int { -x }

  datatype NumericError = Overflow | InvalidDivisor | InvalidScale | NonPositive

  datatype Rounding = TowardZero | AwayFromZero | Floor | Ceiling | NearestTiesAway

  /** Decimal places; canonical contracts allow at most eighteen. */
  type Scale = s: nat | s <= 18

  /** How quantity, price and multiplier atoms become settlement minor units. */
  datatype ContractMath = ContractMath(
    multiplier: u64, qtyScale: Scale, priceScale: Scale, multiplierScale: Scale,
    settlementScale: Scale, rounding: Rounding)

  function CheckedI64(x: int): Result<i64, NumericError> {
    if IsI64(x) then Ok(x) else Err(Overflow)
  }

  function CheckedI128(x: int): Result<int, NumericError> {
    if IsI128(x) then Ok(x) else Err(Overflow)
  }

  function Pow10(n: nat): (p: int)
    ensures p >= 1
  {
    if n == 0 then 1 else 10 * Pow10(n - 1)
  }

  lemma {:induction false} Pow10Bound(n: nat)
    requires n <= 18
    ensures Pow10(n) <= 1_000_000_000_000_000_000
  {
    assert Pow10(18) == 1_000_000_000_000_000_000 by {
      assert Pow10(6) == 1_000_000;
      assert Pow10(12) == 1_000_000_000_000;
    }
    Pow10Monotone(n, 18);
  }

  lemma {:induction false} Pow10Monotone(m: nat, n: nat)
    requires m <= n
    ensures Pow10(m) <= Pow10(n)
    decreases n
  {
    if m < n { Pow10Monotone(m, n - 1); }
  }

  /** Division rounded by an explicit policy. */
  function RoundDiv(n: int, d: int, rounding: Rounding): int
    requires d > 0
  {
    var q := Trunc(n, d);
    var r := n - d * q;
    var away := if n < 0 then q - 1 else q + 1;
    if r == 0 then q
    else
      match rounding
      case AwayFromZero => away
      case Floor => if n < 0 then q - 1 else q
      case Ceiling => if n > 0 then q + 1 else q
      case TowardZero => q
      case NearestTiesAway => if 2 * Abs(r) >= d then away else q
  }

  /** Which of the two neighbouring integers each policy picks. */
  lemma RoundDivMeaning(n: int, d: int, rounding: Rounding)
    requires d > 0
    ensures var q := RoundDiv(n, d, rounding);
            && -d < n - d * q < d
            && (rounding.TowardZero? ==> if n >= 0 then d * q <= n else n <= d * q)
            && (rounding.AwayFromZero? ==> if n >= 0 then n <= d * q else d * q <= n)
            && (rounding.Floor? ==> d * q <= n)
            && (rounding.Ceiling? ==> n <= d * q)
            && (rounding.NearestTiesAway? ==> -d <= 2 * (n - d * q) <= d)
            && (rounding.NearestTiesAway? && 2 * (n - d * q) == d ==> n < 0)
            && (rounding.NearestTiesAway? && 2 * (n - d * q) == -d ==> n > 0)
  {
    var q := Trunc(n, d);
    Neighbours(d, q);
  }

  lemma Neighbours(d: int, q: int)
    ensures d * (q + 1) == d * q + d && d * (q - 1) == d * q - d
  {
  }

  /** The checked form: the same value unless a 128-bit step would overflow. */
  function DivRound(n: int, d: int, rounding: Rounding): Result<int, NumericError>
  {
    if d <= 0 then Err(InvalidDivisor)
    else if rounding.NearestTiesAway? && 2 * Abs(n - d * Trunc(n, d)) > I128_MAX then Err(Overflow)
    else CheckedI128(RoundDiv(n, d, rounding))
  }

  function SourceScale(m: ContractMath): nat {
    m.qtyScale + m.priceScale + m.multiplierScale
  }

  /** Notional without machine bounds. */
  function NotionalValue(qty: nat, price: int, m: ContractMath, rounding: Rounding): int {
    var product := qty * price * m.multiplier;
    if SourceScale(m) >= m.settlementScale
    then RoundDiv(product, Pow10(SourceScale(m) - m.settlementScale), rounding)
    else product * Pow10(m.settlementScale - SourceScale(m))
  }

  function LinearNotional(qty: u64, price: i64, m: ContractMath, rounding: Rounding): (r: Result<i64, NumericError>)
    ensures r.Ok? ==> r.value == NotionalValue(qty, price, m, rounding)
  {
    if m.multiplier == 0 then Err(NonPositive)
    else
      var product := qty * price * m.multiplier;
      if !IsI128(qty * price) || !IsI128(product) then Err(Overflow)
      else if SourceScale(m) >= m.settlementScale then
        var shift := SourceScale(m) - m.settlementScale;
        if shift > 18 then Err(InvalidScale)
        else
          var adjusted :- DivRound(product, Pow10(shift), rounding);
          CheckedI64(adjusted)
      else
        var adjusted :- CheckedI128(product * Pow10(m.settlementScale - SourceScale(m)));
        CheckedI64(adjusted)
  }

  // ----------------------------------------------- notional of a positive price

  ghost predicate Usable(m: ContractMath) {
    m.multiplier > 0 && SourceScale(m) - m.settlementScale <= 18
  }

  lemma MulOrder(a: int, b: int, c: int)
    requires a <= b && c >= 0
    ensures a * c <= b * c
  {
  }

  lemma CancelFactor(x: int, y: int, d: int)
    requires d > 0 && d * x < d * y
    ensures x < y
  {
    if x >= y { MulOrder(y, x, d); }
  }

  lemma Distribute(d: int, p: int, q: int)
    ensures d * (p + q) == d * p + d * q && (p + q) * d == p * d + q * d
  {
  }

  lemma CeilingMonotone(a: int, b: int, d: int)
    requires d > 0 && a <= b
    ensures RoundDiv(a, d, Ceiling) <= RoundDiv(b, d, Ceiling)
  {
    var p, q := RoundDiv(a, d, Ceiling), RoundDiv(b, d, Ceiling);
    RoundDivMeaning(a, d, Ceiling);
    RoundDivMeaning(b, d, Ceiling);
    Neighbours(d, p);
    CancelFactor(p - 1, q, d);
  }

  lemma CeilingSubadditive(a: int, b: int, d: int)
    requires d > 0
    ensures RoundDiv(a + b, d, Ceiling) <= RoundDiv(a, d, Ceiling) + RoundDiv(b, d, Ceiling)
  {
    var p, q, r := RoundDiv(a, d, Ceiling), RoundDiv(b, d, Ceiling), RoundDiv(a + b, d, Ceiling);
    RoundDivMeaning(a, d, Ceiling);
    RoundDivMeaning(b, d, Ceiling);
    RoundDivMeaning(a + b, d, Ceiling);
    Neighbours(d, r);
    Distribute(d, p, q);
    CancelFactor(r - 1, p + q, d);
  }

  lemma ProductMonotone(a: nat, b: nat, price: int, k: int)
    requires a <= b && price >= 0 && k >= 0
    ensures 0 <= a * price * k <= b * price * k
  {
    MulOrder(a, b, price);
    MulOrder(a * price, b * price, k);
    assert 0 <= a * price;
  }

  lemma NotionalMonotone(a: nat, b: nat, price: int, m: ContractMath)
    requires a <= b && price > 0
    ensures 0 <= NotionalValue(a, price, m, Ceiling) <= NotionalValue(b, price, m, Ceiling)
  {
    ProductMonotone(a, b, price, m.multiplier);
    if SourceScale(m) >= m.settlementScale {
      var d := Pow10(SourceScale(m) - m.settlementScale);
      CeilingMonotone(a * price * m.multiplier, b * price * m.multiplier, d);
      CeilingMonotone(0, a * price * m.multiplier, d);
    } else {
      MulOrder(a * price * m.multiplier, b * price * m.multiplier, Pow10(m.settlementScale - SourceScale(m)));
    }
  }

  lemma NotionalSubadditive(a: nat, b: nat, price: int, m: ContractMath)
    requires price > 0
    ensures NotionalValue(a + b, price, m, Ceiling)
            <= NotionalValue(a, price, m, Ceiling) + NotionalValue(b, price, m, Ceiling)
  {
    var k := m.multiplier;
    Distribute(price, a, b);
    Distribute(k, a * price, b * price);
    if SourceScale(m) >= m.settlementScale {
      CeilingSubadditive(a * price * k, b * price * k, Pow10(SourceScale(m) - m.settlementScale));
    } else {
      Distribute(Pow10(m.settlementScale - SourceScale(m)), a * price * k, b * price * k);
    }
  }

  lemma CeilingShrinks(n: nat, d: int)
    requires d >= 1
    ensures 0 <= RoundDiv(n, d, Ceiling) <= n
  {
    var value := RoundDiv(n, d, Ceiling);
    RoundDivMeaning(n, d, Ceiling);
    CeilingMonotone(0, n, d);
    MulOrder(1, d, n);
    assert d * (value - 1) < d * n || n == 0 by { Neighbours(d, value); }
    if n > 0 { CancelFactor(value - 1, n, d); }
  }

  /** A quotient that fits 64 bits came from a dividend that fits 128. */
  lemma QuotientFits(product: int, d: int, rounding: Rounding)
    requires 1 <= d <= 1_000_000_000_000_000_000 && IsI64(RoundDiv(product, d, rounding))
    ensures IsI128(product)
  {
    hide RoundDiv;
    var q := RoundDiv(product, d, rounding);
    RoundDivMeaning(product, d, rounding);
    BoundedProduct(d, q);
  }

  lemma BoundedProduct(d: int, q: i64)
    requires 1 <= d <= 1_000_000_000_000_000_000
    ensures I64_MIN * 1_000_000_000_000_000_000 <= d * q <= I64_MAX * 1_000_000_000_000_000_000
  {
    if q >= 0 { MulOrder(d, 1_000_000_000_000_000_000, q); } else { MulOrder(d, 1_000_000_000_000_000_000, Neg(q)); }
  }

  lemma ScalingGrows(x: int, k: int)
    requires k >= 1
    ensures Abs(x) <= Abs(x * k) && (x >= 0 <==> x * k >= 0)
  {
    if x >= 0 { MulOrder(1, k, x); } else { MulOrder(1, k, -x); }
  }

  lemma SmallRemainder(n: int, d: int)
    requires 1 <= d <= 1_000_000_000_000_000_000
    ensures 2 * Abs(n - d * Trunc(n, d)) <= I128_MAX
  {
  }

  lemma ProductFits(qty: u64, price: i64)
    ensures IsI128(qty * price)
  {
    if price >= 0 { MulOrder(qty, U64_MAX, price); } else { MulOrder(qty, U64_MAX, Neg(price)); }
  }

  /** At any price and rounding, a notional is computed exactly when it fits 64 bits; no
      intermediate step overflows before the result does. */
  lemma NotionalExactly(qty: u64, price: i64, m: ContractMath, rounding: Rounding)
    requires Usable(m)
    ensures LinearNotional(qty, price, m, rounding)
            == if IsI64(NotionalValue(qty, price, m, rounding))
               then Ok(NotionalValue(qty, price, m, rounding)) else Err(Overflow)
  {
    hide RoundDiv, Pow10;
    var product := qty * price * m.multiplier;
    ProductFits(qty, price);
    if SourceScale(m) >= m.settlementScale {
      var d := Pow10(SourceScale(m) - m.settlementScale);
      Pow10Bound(SourceScale(m) - m.settlementScale);
      SmallRemainder(product, d);
      if IsI64(RoundDiv(product, d, rounding)) { QuotientFits(product, d, rounding); }
    } else {
      ScalingGrows(product, Pow10(m.settlementScale - SourceScale(m)));
    }
  }

  /** A ceiling notional at a positive price is computed exactly when it fits 64 bits. */
  lemma NotionalSucceeds(qty: u64, price: i64, m: ContractMath)
    requires price > 0 && Usable(m)
    ensures LinearNotional(qty, price, m, Ceiling)
            == if NotionalValue(qty, price, m, Ceiling) <= I64_MAX
               then Ok(NotionalValue(qty, price, m, Ceiling)) else Err(Overflow)
  {
    hide LinearNotional, NotionalValue;
    NotionalMonotone(0, qty, price, m);
    NotionalMonotone(qty, qty, price, m);
    NotionalExactly(qty, price, m, Ceiling);
  }
}
