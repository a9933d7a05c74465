/** Conservation of value across any sequence of fills at zero decimal scales. */
module PositionValue {
  import opened Common
  import opened Numeric
  import opened Orders
  import opened Positions

  datatype Fill = Fill(side: Side, quantity: u64, price: i64)

  ghost predicate ZeroScales(m: ContractMath) {
    m.qtyScale == 0 && m.priceScale == 0 && m.multiplierScale == 0 && m.settlementScale == 0
  }

  /** Realized P&L plus the open position marked to a price. */
  function MarkedValue(p: Position, mark: int, multiplier: int): int {
    p.realized + (if p.averageEntry.None? then 0 else multiplier * (p.quantity * (mark - p.averageEntry.value)))
  }

  /** What an execution is worth at the mark. */
  function FillValue(f: Fill, mark: int, multiplier: int): int {
    multiplier * (SignedOf(f.side, f.quantity) * (mark - f.price))
  }

  predicate SameSideAdd(p: Position, f: Fill) {
    p.quantity != 0 && Sign(p.quantity) == Sign(SignedOf(f.side, f.quantity)) && p.averageEntry.Some?
  }

  /** The part of the cost basis that the whole-atom average entry drops. */
  function BasisRemainder(p: Position, f: Fill): nat
    requires f.quantity > 0
  {
    if SameSideAdd(p, f)
    then (Abs(p.quantity) * p.averageEntry.value + f.quantity * f.price) % (Abs(p.quantity) + f.quantity)
    else 0
  }

  function Drift(p: Position, f: Fill): int {
    if f.quantity == 0 then 0 else SignedBy(p.quantity > 0, BasisRemainder(p, f))
  }

  function ApplyFills(p: Position, fs: seq<Fill>, m: ContractMath): Result<Position, PositionError>
    decreases |fs|
  {
    if fs == [] then Ok(p)
    else
      var next :- Positions.ApplyFill(p, fs[0].side, fs[0].quantity, fs[0].price, m);
      ApplyFills(next.0, fs[1..], m)
  }

  function TotalFillValue(fs: seq<Fill>, mark: int, multiplier: int): int {
    if fs == [] then 0 else FillValue(fs[0], mark, multiplier) + TotalFillValue(fs[1..], mark, multiplier)
  }

  function TotalDrift(p: Position, fs: seq<Fill>, m: ContractMath): int
    decreases |fs|
  {
    if fs == [] then 0
    else
      var next := Positions.ApplyFill(p, fs[0].side, fs[0].quantity, fs[0].price, m);
      Drift(p, fs[0]) + (if next.Ok? then TotalDrift(next.value.0, fs[1..], m) else 0)
  }

  lemma ExactNotional(q: u64, price: i64, m: ContractMath)
    requires ZeroScales(m)
    ensures NotionalValue(q, price, m, m.rounding) == q * price * m.multiplier
  {
    var product := q * price * m.multiplier;
    RoundDivMeaning(product, 1, m.rounding);
  }

  lemma ClosePnlIsExact(q: u64, entry: i64, exit: i64, wasLong: bool, m: ContractMath)
    requires ZeroScales(m) && RealizedClosePnl(q, entry, exit, wasLong, m).Ok?
    ensures RealizedClosePnl(q, entry, exit, wasLong, m).value
            == m.multiplier * (SignedBy(wasLong, q) * (exit - entry))
  {
    hide NotionalValue;
    ExactNotional(q, entry, m);
    ExactNotional(q, exit, m);
    PnlAlgebra(q, entry, exit, m.multiplier);
  }

  lemma PnlAlgebra(q: int, entry: int, exit: int, k: int)
    ensures q * exit * k - q * entry * k == k * (q * (exit - entry))
    ensures q * entry * k - q * exit * k == k * ((-q) * (exit - entry))
  {
    var a, b := q * exit, q * entry;
    assert q * (exit - entry) == a - b;
    assert (-q) * (exit - entry) == b - a;
    Factor(a, b, k);
    Factor(b, a, k);
  }

  lemma Factor(a: int, b: int, k: int)
    ensures a * k - b * k == k * (a - b)
  {
  }

  /** The drift of one fill: only same-side adds drift, by less than the new absolute
      quantity, upward for longs and downward for shorts. */
  lemma DriftIsBounded(p: Position, f: Fill)
    requires f.quantity > 0
    ensures !SameSideAdd(p, f) ==> Drift(p, f) == 0
    ensures SameSideAdd(p, f) ==> 0 <= BasisRemainder(p, f) < Abs(p.quantity + SignedOf(f.side, f.quantity))
    ensures Drift(p, f) == SignedBy(p.quantity > 0, BasisRemainder(p, f))
  {
  }

  lemma OpenConserves(p: Position, f: Fill, mark: int, k: int)
    requires ValidPosition(p) && f.quantity > 0 && f.price > 0
    requires p.quantity == 0 || Sign(p.quantity) == Sign(SignedOf(f.side, f.quantity))
    requires f.quantity <= I64_MAX
    requires OpenFill(p, SignedOf(f.side, f.quantity), f.price).Ok?
    ensures MarkedValue(OpenFill(p, SignedOf(f.side, f.quantity), f.price).value.0, mark, k)
            == MarkedValue(p, mark, k) + FillValue(f, mark, k) + k * Drift(p, f)
  {
    var signed := SignedOf(f.side, f.quantity);
    var p' := OpenFill(p, signed, f.price).value.0;
    if p.quantity == 0 {
      assert p'.averageEntry.value == f.price;
      assert k * 0 == 0;
    } else {
      var entry := p.averageEntry.value;
      var avg := p'.averageEntry.value;
      AverageDropsRemainder(p, f);
      AverageIdentity(Abs(p.quantity), f.quantity, entry, f.price, avg, BasisRemainder(p, f), mark);
      AddIdentity(p.quantity, signed, mark - entry, mark - f.price, mark - avg, BasisRemainder(p, f));
      Spread3(k, p.quantity * (mark - entry), signed * (mark - f.price), Drift(p, f));
    }
  }

  lemma AverageDropsRemainder(p: Position, f: Fill)
    requires ValidPosition(p) && SameSideAdd(p, f) && f.quantity > 0 && f.price > 0
    requires WeightedAverage(Abs(p.quantity), p.averageEntry.value, f.quantity, f.price).Ok?
    ensures var avg := WeightedAverage(Abs(p.quantity), p.averageEntry.value, f.quantity, f.price).value;
            Abs(p.quantity) * p.averageEntry.value + f.quantity * f.price
            == (Abs(p.quantity) + f.quantity) * avg + BasisRemainder(p, f)
  {
    MulOrder(0, Abs(p.quantity), p.averageEntry.value);
    MulOrder(0, f.quantity, f.price);
  }

  /** Restates the average identity with signed quantities on one side. */
  lemma AddIdentity(q: int, signed: int, x: int, y: int, z: int, r: int)
    requires q != 0 && Sign(q) == Sign(signed)
    requires (Abs(q) + Abs(signed)) * z == Abs(q) * x + Abs(signed) * y + r
    ensures (q + signed) * z == q * x + signed * y + SignedBy(q > 0, r)
  {
    if q < 0 {
      Negate(Abs(q) + Abs(signed), z);
      Negate(Abs(q), x);
      Negate(Abs(signed), y);
    }
  }

  lemma Negate(a: int, b: int)
    ensures (-a) * b == -(a * b)
  {
  }

  lemma Spread3(k: int, a: int, b: int, c: int)
    ensures k * (a + b + c) == k * a + k * b + k * c
  {
  }

  lemma AverageIdentity(a: int, b: int, x: int, y: int, avg: int, r: int, mark: int)
    requires a * x + b * y == (a + b) * avg + r
    ensures (a + b) * (mark - avg) == a * (mark - x) + b * (mark - y) + r
  {
    assert (a + b) * (mark - avg) == (a + b) * mark - (a + b) * avg;
    assert a * (mark - x) == a * mark - a * x;
    assert b * (mark - y) == b * mark - b * y;
    assert (a + b) * mark == a * mark + b * mark;
  }

  lemma CloseConserves(p: Position, f: Fill, mark: int, m: ContractMath)
    requires ValidPosition(p) && f.quantity > 0 && f.quantity <= I64_MAX && ZeroScales(m)
    requires p.quantity != 0 && Sign(p.quantity) != Sign(SignedOf(f.side, f.quantity))
    requires CloseFill(p, SignedOf(f.side, f.quantity), f.price, m).Ok?
    ensures MarkedValue(CloseFill(p, SignedOf(f.side, f.quantity), f.price, m).value.0, mark, m.multiplier)
            == MarkedValue(p, mark, m.multiplier) + FillValue(f, mark, m.multiplier)
  {
    hide RealizedClosePnl;
    var signed := SignedOf(f.side, f.quantity);
    var p' := CloseFill(p, signed, f.price, m).value.0;
    var entry := p.averageEntry.value;
    var closing := Min(Abs(p.quantity), f.quantity);
    ClosePnlIsExact(closing, entry, f.price, p.quantity > 0, m);
    if f.quantity < Abs(p.quantity) {
      assert SignedBy(p.quantity > 0, closing) == -signed;
      CloseAlgebra(p.quantity, signed, entry, f.price, mark, m.multiplier);
    } else {
      assert SignedBy(p.quantity > 0, closing) == p.quantity;
      ReopenAlgebra(p.quantity, signed, entry, f.price, mark, m.multiplier);
    }
  }

  lemma CloseAlgebra(q: int, signed: int, entry: int, price: int, mark: int, k: int)
    ensures k * ((-signed) * (price - entry)) + k * ((q + signed) * (mark - entry))
            == k * (q * (mark - entry)) + k * (signed * (mark - price))
  {
    CloseIdentity(q, signed, entry, price, mark);
    Spread3(k, (-signed) * (price - entry), (q + signed) * (mark - entry), 0);
    Spread3(k, q * (mark - entry), signed * (mark - price), 0);
  }

  lemma ReopenAlgebra(q: int, signed: int, entry: int, price: int, mark: int, k: int)
    ensures k * (q * (price - entry)) + k * ((q + signed) * (mark - price))
            == k * (q * (mark - entry)) + k * (signed * (mark - price))
  {
    ReopenIdentity(q, signed, entry, price, mark);
    Spread3(k, q * (price - entry), (q + signed) * (mark - price), 0);
    Spread3(k, q * (mark - entry), signed * (mark - price), 0);
  }

  lemma CloseIdentity(q: int, signed: int, entry: int, price: int, mark: int)
    ensures (-signed) * (price - entry) + (q + signed) * (mark - entry)
            == q * (mark - entry) + signed * (mark - price)
  {
    assert (q + signed) * (mark - entry) == q * (mark - entry) + signed * (mark - entry);
    assert (-signed) * (price - entry) + signed * (mark - entry) == signed * (mark - price);
  }

  lemma ReopenIdentity(q: int, signed: int, entry: int, price: int, mark: int)
    ensures q * (price - entry) + (q + signed) * (mark - price)
            == q * (mark - entry) + signed * (mark - price)
  {
    assert (q + signed) * (mark - price) == q * (mark - price) + signed * (mark - price);
    assert q * (price - entry) + q * (mark - price) == q * (mark - entry);
  }

  lemma FillConserves(p: Position, f: Fill, mark: int, m: ContractMath)
    requires ZeroScales(m) && Positions.ApplyFill(p, f.side, f.quantity, f.price, m).Ok?
    ensures MarkedValue(Positions.ApplyFill(p, f.side, f.quantity, f.price, m).value.0, mark, m.multiplier)
            == MarkedValue(p, mark, m.multiplier) + FillValue(f, mark, m.multiplier) + m.multiplier * Drift(p, f)
  {
    if p.quantity == 0 || Sign(p.quantity) == Sign(SignedOf(f.side, f.quantity)) {
      OpenConserves(p, f, mark, m.multiplier);
    } else {
      CloseConserves(p, f, mark, m);
    }
  }

  /** Realized plus marked P&L after any fills is the worth of those fills at the mark,
      plus the accumulated basis drift, whatever the mark is. */
  lemma {:induction false} ValueIsConserved(p: Position, fs: seq<Fill>, mark: int, m: ContractMath)
    requires ZeroScales(m) && ApplyFills(p, fs, m).Ok?
    ensures MarkedValue(ApplyFills(p, fs, m).value, mark, m.multiplier)
            == MarkedValue(p, mark, m.multiplier) + TotalFillValue(fs, mark, m.multiplier)
               + m.multiplier * TotalDrift(p, fs, m)
    decreases |fs|
  {
    if fs != [] {
      var next := Positions.ApplyFill(p, fs[0].side, fs[0].quantity, fs[0].price, m).value.0;
      FillConserves(p, fs[0], mark, m);
      ValueIsConserved(next, fs[1..], mark, m);
      Distribute(m.multiplier, Drift(p, fs[0]), TotalDrift(next, fs[1..], m));
    }
  }
}
