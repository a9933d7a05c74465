/** Position basis, realized P&L and reversal accounting. */
module Positions {
  import opened Common
  import opened Numeric
  import opened Orders

  datatype PositionError =
    | ZeroQuantity | InvalidPrice | QuantityOverflow | InvalidState | PositionNumeric(error: NumericError)

  datatype LegKind = Open | Close
  datatype PositionLeg = PositionLeg(kind: LegKind, signedQty: i64, price: i64, realizedDelta: i64)

  datatype Position = Position(quantity: i64, averageEntry: Option<i64>, realized: i64)

  /** A basis exists exactly while there is exposure. */
  predicate ValidPosition(p: Position) {
    if p.quantity == 0 then p.averageEntry.None? else p.averageEntry.Some? && p.averageEntry.value > 0
  }

  function LiftNumeric<T>(r: Result<T, NumericError>): Result<T, PositionError> {
    match r case Ok(v) => Ok(v) case Err(e) => Err(PositionNumeric(e))
  }

  function SignedBy(positive: bool, value: int): int {
    if positive then value else -value
  }

  function SignedQuantity(value: nat, positive: bool): Result<i64, PositionError> {
    if value > I64_MAX then Err(QuantityOverflow) else Ok(SignedBy(positive, value))
  }

  function WeightedAverage(oldQty: nat, oldPrice: i64, addQty: nat, addPrice: i64): Result<i64, PositionError>
    requires oldQty + addQty > 0
  {
    if oldQty + addQty > U64_MAX then Err(QuantityOverflow)
    else
      var numerator := oldQty * oldPrice + addQty * addPrice;
      if !IsI128(oldQty * oldPrice) || !IsI128(addQty * addPrice) || !IsI128(numerator)
      then Err(PositionNumeric(Overflow))
      else LiftNumeric(CheckedI64(Trunc(numerator, oldQty + addQty)))
  }

  function RealizedClosePnl(qty: u64, entry: i64, exit: i64, wasLong: bool, m: ContractMath): Result<i64, PositionError> {
    var entryValue :- LiftNumeric(LinearNotional(qty, entry, m, m.rounding));
    var exitValue :- LiftNumeric(LinearNotional(qty, exit, m, m.rounding));
    LiftNumeric(CheckedI64(SignedBy(wasLong, exitValue) - SignedBy(wasLong, entryValue)))
  }

  function OpenFill(p: Position, signedFill: i64, price: i64): Result<(Position, seq<PositionLeg>), PositionError>
    requires ValidPosition(p) && signedFill != 0
  {
    var total := Abs(p.quantity) + Abs(signedFill);
    if total > U64_MAX then Err(QuantityOverflow)
    else
      var newQty :- SignedQuantity(total, signedFill > 0);
      var basis :- if p.quantity == 0 then Ok(price)
                   else WeightedAverage(Abs(p.quantity), p.averageEntry.value, Abs(signedFill), price);
      Ok((p.(quantity := newQty, averageEntry := Some(basis)), [PositionLeg(Open, signedFill, price, 0)]))
  }

  function CloseFill(p: Position, signedFill: i64, price: i64, m: ContractMath)
    : Result<(Position, seq<PositionLeg>), PositionError>
    requires ValidPosition(p) && p.quantity != 0 && signedFill != 0
  {
    var held := Abs(p.quantity);
    var filled := Abs(signedFill);
    var closing := Min(held, filled);
    var gain :- RealizedClosePnl(closing, p.averageEntry.value, price, p.quantity > 0, m);
    var realized :- LiftNumeric(CheckedI64(p.realized + gain));
    var closeSigned :- SignedQuantity(closing, signedFill > 0);
    var leg := PositionLeg(Close, closeSigned, price, gain);
    if filled < held then
      if !IsI64(p.quantity + closeSigned) then Err(QuantityOverflow)
      else Ok((p.(quantity := p.quantity + closeSigned, realized := realized), [leg]))
    else if filled == held then
      Ok((Position(0, None, realized), [leg]))
    else
      var openSigned :- SignedQuantity(filled - held, signedFill > 0);
      Ok((Position(openSigned, Some(price), realized), [leg, PositionLeg(Open, openSigned, price, 0)]))
  }

  /** One execution: a single opening leg, a closing leg, or a close through zero and a reopening. */
  function ApplyFill(p: Position, side: Side, quantity: u64, price: i64, m: ContractMath)
    : Result<(Position, seq<PositionLeg>), PositionError>
  {
    if !ValidPosition(p) then Err(PositionError.InvalidState)
    else if quantity == 0 then Err(PositionError.ZeroQuantity)
    else if price <= 0 then Err(PositionError.InvalidPrice)
    else if quantity > I64_MAX then Err(QuantityOverflow)
    else
      var signedFill := SignedBy(side.Buy?, quantity);
      var next :- if p.quantity == 0 || Sign(p.quantity) == Sign(signedFill)
                  then OpenFill(p, signedFill, price) else CloseFill(p, signedFill, price, m);
      if ValidPosition(next.0) then Ok(next) else Err(PositionError.InvalidState)
  }

  function SignedOf(side: Side, quantity: int): int {
    SignedBy(side.Buy?, quantity)
  }

  function LegPnl(leg: PositionLeg): int { leg.realizedDelta }
  function LegQty(leg: PositionLeg): int { leg.signedQty }

  /** A fill moves the quantity by exactly itself and realizes exactly its legs. */
  lemma FillAccounts(p: Position, side: Side, quantity: u64, price: i64, m: ContractMath)
    ensures var r := ApplyFill(p, side, quantity, price, m);
            r.Ok? ==>
              && ValidPosition(r.value.0)
              && r.value.0.quantity == p.quantity + SignedOf(side, quantity)
              && r.value.0.realized == p.realized + SumOf(r.value.1, LegPnl)
              && SumOf(r.value.1, LegQty) == SignedOf(side, quantity)
              && 1 <= |r.value.1| <= 2
  {
    hide WeightedAverage, RealizedClosePnl, SumOf;
    var r := ApplyFill(p, side, quantity, price, m);
    if r.Ok? { LegSums(r.value.1); }
  }

  lemma LegSums(legs: seq<PositionLeg>)
    ensures |legs| == 1 ==> SumOf(legs, LegPnl) == legs[0].realizedDelta && SumOf(legs, LegQty) == legs[0].signedQty
    ensures |legs| == 2 ==> SumOf(legs, LegPnl) == legs[0].realizedDelta + legs[1].realizedDelta
                            && SumOf(legs, LegQty) == legs[0].signedQty + legs[1].signedQty
  {
    if |legs| >= 1 {
      SumAppend([], LegPnl, legs[0]);
      SumAppend([], LegQty, legs[0]);
      assert [] + [legs[0]] == [legs[0]];
      if |legs| == 1 { assert legs == [legs[0]]; }
      if |legs| == 2 {
        SumAppend([legs[0]], LegPnl, legs[1]);
        SumAppend([legs[0]], LegQty, legs[1]);
        assert [legs[0]] + [legs[1]] == legs;
      }
    }
  }
}
