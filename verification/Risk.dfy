/** Isolated margin: requirements, working-order reservation and the pre-trade check. */
module Risk {
  import opened Common
  import opened Numeric
  import opened Bytes
  import opened Orders
  import opened Positions

  const PPB_ONE := 1_000_000_000

  datatype RiskError =
    | InvalidLeverage | InvalidMaintenanceRate | InvalidPrice | InsufficientMargin
    | InvalidLiquidationTransition | RiskNumeric(error: NumericError)

  /** Supported isolated leverage. */
  type Leverage = l: int | 1 <= l <= 50 witness 1

  datatype RiskProfile = RiskProfile(maintenanceRate: i64, math: ContractMath)

  predicate ValidProfile(p: RiskProfile) {
    0 <= p.maintenanceRate <= PPB_ONE
  }

  datatype MarginSnapshot = MarginSnapshot(
    equity: i64, positionInitialMargin: i64, workingOrderMargin: i64,
    maintenanceMargin: i64, availableMargin: i64)

  datatype LiquidationState = Healthy | Triggered | Liquidating | Liquidated
  datatype RiskState = RiskState(leverage: Leverage, liquidation: LiquidationState)

  function Lift<T>(r: Result<T, NumericError>): Result<T, RiskError> {
    match r case Ok(v) => Ok(v) case Err(e) => Err(RiskNumeric(e))
  }

  // -------------------------------------------------------------- requirements

  function AbsoluteNotional(q: u64, price: i64, m: ContractMath): Result<i64, RiskError> {
    if price <= 0 then Err(RiskError.InvalidPrice)
    else if q == 0 then Ok(0)
    else
      var notional :- Lift(LinearNotional(q, price, m, Ceiling));
      Lift(CheckedI64(Abs(notional)))
  }

  function InitialMargin(q: u64, price: i64, leverage: Leverage, m: ContractMath): Result<i64, RiskError> {
    var notional :- AbsoluteNotional(q, price, m);
    var quotient := Trunc(notional, leverage);
    var rounded := if notional == leverage * quotient then quotient else quotient + 1;
    Lift(CheckedI64(rounded))
  }

  function ApplyRatePpb(amount: i64, rate: i64, rounding: Rounding): Result<i64, NumericError> {
    var numerator :- CheckedI128(amount * rate);
    var rounded :- DivRound(numerator, PPB_ONE, rounding);
    CheckedI64(rounded)
  }

  function MaintenanceMargin(q: u64, price: i64, rate: i64, m: ContractMath): Result<i64, RiskError> {
    if !(0 <= rate <= PPB_ONE) then Err(InvalidMaintenanceRate)
    else
      var notional :- AbsoluteNotional(q, price, m);
      Lift(ApplyRatePpb(notional, rate, Ceiling))
  }

  /** The initial margin without machine bounds: a ceiling of a ceiling. */
  function MarginValue(q: nat, price: int, leverage: Leverage, m: ContractMath): int {
    RoundDiv(NotionalValue(q, price, m, Ceiling), leverage, Ceiling)
  }

  lemma MarginMonotone(a: nat, b: nat, price: int, leverage: Leverage, m: ContractMath)
    requires a <= b && price > 0
    ensures 0 <= MarginValue(a, price, leverage, m) <= MarginValue(b, price, leverage, m)
  {
    NotionalMonotone(a, b, price, m);
    CeilingMonotone(NotionalValue(a, price, m, Ceiling), NotionalValue(b, price, m, Ceiling), leverage);
    CeilingMonotone(0, NotionalValue(a, price, m, Ceiling), leverage);
  }

  lemma MarginSubadditive(a: nat, b: nat, price: int, leverage: Leverage, m: ContractMath)
    requires price > 0
    ensures MarginValue(a + b, price, leverage, m)
            <= MarginValue(a, price, leverage, m) + MarginValue(b, price, leverage, m)
  {
    NotionalSubadditive(a, b, price, m);
    var x, y := NotionalValue(a, price, m, Ceiling), NotionalValue(b, price, m, Ceiling);
    CeilingMonotone(NotionalValue(a + b, price, m, Ceiling), x + y, leverage);
    CeilingSubadditive(x, y, leverage);
  }

  lemma LeverageCeiling(notional: i64, leverage: Leverage)
    requires notional >= 0
    ensures var quotient := Trunc(notional, leverage);
            var rounded := if notional == leverage * quotient then quotient else quotient + 1;
            rounded == RoundDiv(notional, leverage, Ceiling) && 0 <= rounded <= notional
  {
    var q := Trunc(notional, leverage);
    Neighbours(leverage, q);
    CeilingShrinks(notional, leverage);
  }

  /** The checked margin is the ideal one whenever the notional fits 64 bits, and Overflow otherwise. */
  lemma InitialMarginExact(q: u64, price: i64, leverage: Leverage, m: ContractMath)
    requires price > 0 && Usable(m)
    ensures InitialMargin(q, price, leverage, m)
            == if NotionalValue(q, price, m, Ceiling) <= I64_MAX
               then Ok(MarginValue(q, price, leverage, m)) else Err(RiskNumeric(Overflow))
  {
    NotionalSucceeds(q, price, m);
    NotionalMonotone(0, q, price, m);
    var value := NotionalValue(q, price, m, Ceiling);
    if q == 0 {
      assert value == 0 by { ZeroNotional(price, m); }
    }
    if value <= I64_MAX { LeverageCeiling(value, leverage); }
  }

  lemma ZeroNotional(price: int, m: ContractMath)
    ensures NotionalValue(0, price, m, Ceiling) == 0
  {
    assert 0 * price * m.multiplier == 0;
    if SourceScale(m) >= m.settlementScale {
      var d := Pow10(SourceScale(m) - m.settlementScale);
      assert RoundDiv(0, d, Ceiling) == 0;
    }
  }

  /** A margin that was computed for a non-zero quantity implies a usable contract. */
  lemma InitialMarginValue(q: u64, price: i64, leverage: Leverage, m: ContractMath)
    requires InitialMargin(q, price, leverage, m).Ok?
    ensures price > 0
    ensures InitialMargin(q, price, leverage, m).value == MarginValue(q, price, leverage, m)
    ensures q > 0 ==> Usable(m) && NotionalValue(q, price, m, Ceiling) <= I64_MAX
  {
    NotionalMonotone(0, q, price, m);
    ZeroNotional(price, m);
    if q == 0 {
      LeverageCeiling(0, leverage);
    } else {
      InitialMarginExact(q, price, leverage, m);
    }
  }

  // ------------------------------------------------ working-order reservation

  /** Live non-reduce-only quantity that one order could still add on one side. */
  function Pending(o: Order, instrument: Text, side: Side): int {
    if o.instrumentId != instrument || Terminal(o.status) || o.reduceOnly || o.side != side then 0
    else Remaining(o)
  }

  function PendingOf(instrument: Text, side: Side): Order -> int {
    o => Pending(o, instrument, side)
  }

  /** Largest directional exposure that working orders can add to the position. */
  function ExpansionValue(os: OrderState, instrument: Text, position: int): int {
    var buys := SumOf(os, PendingOf(instrument, Buy));
    var sells := SumOf(os, PendingOf(instrument, Sell));
    Max(Max(0, buys - (if position < 0 then Abs(position) else 0)),
        Max(0, sells - (if position > 0 then Abs(position) else 0)))
  }

  function WorkingOrderExpansion(os: OrderState, instrument: Text, position: int): Result<u64, RiskError> {
    if SumOf(os, PendingOf(instrument, Buy)) > U128_MAX || SumOf(os, PendingOf(instrument, Sell)) > U128_MAX
    then Err(RiskNumeric(Overflow))
    else
      var e := ExpansionValue(os, instrument, position);
      if e > U64_MAX then Err(RiskNumeric(Overflow)) else Ok(e)
  }

  lemma {:induction false} PendingPrefix(os: OrderState, instrument: Text, side: Side, n: nat)
    requires n <= |os| && forall i :: 0 <= i < |os| ==> os[i].filled <= os[i].quantity
    ensures 0 <= SumOf(os[..n], PendingOf(instrument, side)) <= SumOf(os, PendingOf(instrument, side))
    decreases |os| - n
  {
    hide SumOf;
    SumBounds(os[..n], PendingOf(instrument, side), PendingOf(instrument, side));
    if n < |os| {
      SumAppend(os[..n], PendingOf(instrument, side), os[n]);
      assert os[..n] + [os[n]] == os[..n + 1];
      PendingPrefix(os, instrument, side, n + 1);
    } else {
      assert os[..n] == os;
    }
  }

  lemma PendingStep(os: OrderState, instrument: Text, side: Side, i: nat)
    requires i < |os| && Sound(os)
    ensures SumOf(os[..i + 1], PendingOf(instrument, side))
            == SumOf(os[..i], PendingOf(instrument, side)) + Pending(os[i], instrument, side)
    ensures SumOf(os[..i + 1], PendingOf(instrument, side)) <= SumOf(os, PendingOf(instrument, side))
  {
    hide SumOf, Pending;
    SumAppend(os[..i], PendingOf(instrument, side), os[i]);
    assert os[..i] + [os[i]] == os[..i + 1];
    PendingPrefix(os, instrument, side, i + 1);
  }

  /** The summing loop, with its 128-bit accumulators. */
  method ComputeExpansion(os: OrderState, instrument: Text, position: i64) returns (r: Result<u64, RiskError>)
    requires Sound(os)
    ensures r == WorkingOrderExpansion(os, instrument, position)
  {
    var buys, sells := 0, 0;
    for i := 0 to |os|
      invariant buys == SumOf(os[..i], PendingOf(instrument, Buy)) <= U128_MAX
      invariant sells == SumOf(os[..i], PendingOf(instrument, Sell)) <= U128_MAX
    {
      var o := os[i];
      PendingStep(os, instrument, Buy, i);
      PendingStep(os, instrument, Sell, i);
      if o.instrumentId == instrument && !Terminal(o.status) && !o.reduceOnly {
        if o.side.Buy? {
          buys := buys + Remaining(o);
          if buys > U128_MAX { return Err(RiskNumeric(Overflow)); }
        } else {
          sells := sells + Remaining(o);
          if sells > U128_MAX { return Err(RiskNumeric(Overflow)); }
        }
      }
    }
    assert os[..|os|] == os;
    var capacity := Abs(position);
    var buyExpansion := Max(0, buys - (if position < 0 then capacity else 0));
    var sellExpansion := Max(0, sells - (if position > 0 then capacity else 0));
    var expansion := Max(buyExpansion, sellExpansion);
    if expansion > U64_MAX { return Err(RiskNumeric(Overflow)); }
    return Ok(expansion);
  }

  function Margin(equity: i64, p: Position, instrument: Text, os: OrderState, mark: i64,
                  leverage: Leverage, profile: RiskProfile): Result<MarginSnapshot, RiskError>
  {
    if !ValidProfile(profile) then Err(InvalidMaintenanceRate)
    else if mark <= 0 then Err(RiskError.InvalidPrice)
    else
      var held := Abs(p.quantity);
      var positionMargin :- InitialMargin(held, mark, leverage, profile.math);
      var maintenance :- MaintenanceMargin(held, mark, profile.maintenanceRate, profile.math);
      var expansion :- WorkingOrderExpansion(os, instrument, p.quantity);
      var workingMargin :- InitialMargin(expansion, mark, leverage, profile.math);
      var total :- Lift(CheckedI64(positionMargin + workingMargin));
      var available :- Lift(CheckedI64(equity - total));
      Ok(MarginSnapshot(equity, positionMargin, workingMargin, maintenance, available))
  }

  /** Partial fills: how much of each live, non-reduce-only order of the instrument executes. */
  ghost predicate PartialFills(os: OrderState, instrument: Text, fills: seq<nat>) {
    |fills| == |os|
    && forall i :: 0 <= i < |os| ==> fills[i] <= Pending(os[i], instrument, Buy) + Pending(os[i], instrument, Sell)
  }

  function NetFills(os: OrderState, fills: seq<nat>): int
    requires |fills| == |os|
  {
    if os == [] then 0
    else
      var n := |os| - 1;
      NetFills(os[..n], fills[..n]) + SignedOf(os[n].side, fills[n])
  }

  lemma {:induction false} NetFillsBounded(os: OrderState, instrument: Text, fills: seq<nat>)
    requires PartialFills(os, instrument, fills)
    ensures -SumOf(os, PendingOf(instrument, Sell)) <= NetFills(os, fills) <= SumOf(os, PendingOf(instrument, Buy))
    ensures 0 <= SumOf(os, PendingOf(instrument, Sell)) && 0 <= SumOf(os, PendingOf(instrument, Buy))
  {
    if os != [] {
      var n := |os| - 1;
      NetFillsBounded(os[..n], instrument, fills[..n]);
    }
  }

  /** No partial execution can leave more exposure than the held position plus the expansion. */
  lemma ExposureIsReserved(os: OrderState, instrument: Text, position: int, fills: seq<nat>)
    requires PartialFills(os, instrument, fills)
    ensures Abs(position + NetFills(os, fills)) <= Abs(position) + ExpansionValue(os, instrument, position)
  {
    NetFillsBounded(os, instrument, fills);
  }

  /** Reservation is sound: with non-negative available margin, any partial fills of the
      working orders leave a position whose initial margin equity still covers. */
  lemma ReservationIsSound(equity: i64, p: Position, instrument: Text, os: OrderState, mark: i64,
                           leverage: Leverage, profile: RiskProfile, fills: seq<nat>)
    requires PartialFills(os, instrument, fills)
    requires var s := Margin(equity, p, instrument, os, mark, leverage, profile);
             s.Ok? && s.value.availableMargin >= 0
    ensures var after := Abs(p.quantity + NetFills(os, fills));
            && MarginValue(after, mark, leverage, profile.math) <= equity
            && (after <= U64_MAX ==>
                  var r := InitialMargin(after, mark, leverage, profile.math);
                  if r.Ok? then r.value <= equity
                  else NotionalValue(after, mark, profile.math, Ceiling) > I64_MAX)
  {
    hide Margin, MarginValue, NotionalValue, InitialMargin, ExpansionValue;
    var held := Abs(p.quantity);
    var expansion := ExpansionValue(os, instrument, p.quantity);
    var after := Abs(p.quantity + NetFills(os, fills));
    MarginIsReserved(equity, p, instrument, os, mark, leverage, profile);
    ExposureIsReserved(os, instrument, p.quantity, fills);
    MarginMonotone(after, held + expansion, mark, leverage, profile.math);
    MarginSubadditive(held, expansion, mark, leverage, profile.math);
    if after <= U64_MAX { WithinBudget(after, mark, leverage, profile.math, equity); }
  }

  /** What a snapshot with non-negative available margin says about the ideal margins. */
  lemma MarginIsReserved(equity: i64, p: Position, instrument: Text, os: OrderState, mark: i64,
                         leverage: Leverage, profile: RiskProfile)
    requires var s := Margin(equity, p, instrument, os, mark, leverage, profile);
             s.Ok? && s.value.availableMargin >= 0
    ensures var held, expansion, m := Abs(p.quantity), ExpansionValue(os, instrument, p.quantity), profile.math;
            && mark > 0 && expansion >= 0
            && MarginValue(held, mark, leverage, m) + MarginValue(expansion, mark, leverage, m) <= equity
            && (held + expansion > 0 ==> Usable(m))
  {
    hide MarginValue, NotionalValue, InitialMargin, ExpansionValue, MaintenanceMargin;
    var held, expansion := Abs(p.quantity), ExpansionValue(os, instrument, p.quantity);
    InitialMarginValue(held, mark, leverage, profile.math);
    InitialMarginValue(expansion, mark, leverage, profile.math);
  }

  lemma WithinBudget(q: u64, mark: i64, leverage: Leverage, m: ContractMath, equity: i64)
    requires mark > 0 && (q > 0 ==> Usable(m)) && MarginValue(q, mark, leverage, m) <= equity
    ensures var r := InitialMargin(q, mark, leverage, m);
            if r.Ok? then r.value <= equity else NotionalValue(q, mark, m, Ceiling) > I64_MAX
  {
    hide NotionalValue;
    if q == 0 {
      ZeroNotional(mark, m);
      LeverageCeiling(0, leverage);
    } else {
      InitialMarginExact(q, mark, leverage, m);
    }
  }

  // -------------------------------------------------------------- risk state

  function ChangeLeverage(rs: RiskState, requested: Leverage, equity: i64, p: Position, instrument: Text,
                          os: OrderState, mark: i64, profile: RiskProfile): Result<(RiskState, MarginSnapshot), RiskError>
  {
    var s :- Margin(equity, p, instrument, os, mark, requested, profile);
    var required :- Lift(CheckedI64(s.positionInitialMargin + s.workingOrderMargin));
    if equity < required then Err(InsufficientMargin) else Ok((rs.(leverage := requested), s))
  }

  /** A leverage change is granted exactly when the margin snapshot at the new leverage leaves a
      non-negative balance, and it changes the leverage alone. */
  lemma LeverageChangeIsCovered(rs: RiskState, requested: Leverage, equity: i64, p: Position, instrument: Text,
                                os: OrderState, mark: i64, profile: RiskProfile)
    ensures var x := ChangeLeverage(rs, requested, equity, p, instrument, os, mark, profile);
            var s := Margin(equity, p, instrument, os, mark, requested, profile);
            && (x.Ok? <==> s.Ok? && s.value.availableMargin >= 0)
            && (x.Ok? ==> x.value.0 == rs.(leverage := requested) && x.value.1 == s.value)
  {
    hide InitialMargin, MaintenanceMargin, WorkingOrderExpansion;
  }

  /** After a granted change every partial fill of the live orders is still covered at the new leverage. */
  lemma LeverageChangeIsSound(rs: RiskState, requested: Leverage, equity: i64, p: Position, instrument: Text,
                              os: OrderState, mark: i64, profile: RiskProfile, fills: seq<nat>)
    requires PartialFills(os, instrument, fills)
    requires ChangeLeverage(rs, requested, equity, p, instrument, os, mark, profile).Ok?
    ensures MarginValue(Abs(p.quantity + NetFills(os, fills)), mark, requested, profile.math) <= equity
  {
    hide ChangeLeverage, Margin, MarginValue;
    LeverageChangeIsCovered(rs, requested, equity, p, instrument, os, mark, profile);
    ReservationIsSound(equity, p, instrument, os, mark, requested, profile, fills);
  }

  function EvaluateLiquidation(rs: RiskState, p: Position, s: MarginSnapshot): (RiskState, bool) {
    if rs.liquidation.Healthy? && p.quantity != 0 && s.equity <= s.maintenanceMargin
    then (rs.(liquidation := Triggered), true) else (rs, false)
  }

  // ---------------------------------------------------------- pre-trade check

  datatype PreTradeDecision = PreTradeDecision(
    closeQuantity: u64, requestedOpen: u64, acceptedOpen: u64, acceptedQuantity: u64,
    requestedFinalMargin: i64, budget: i64)

  /** k more atoms on top of base stay within the budget. */
  ghost predicate Affordable(base: nat, k: nat, budget: int, price: int, leverage: Leverage, m: ContractMath) {
    MarginValue(base + k, price, leverage, m) <= budget
  }

  /** The largest affordable addition up to a limit; zero if even the base is too dear. */
  ghost predicate IsLargestAffordable(k: nat, base: nat, limit: nat, budget: int, price: int,
                                      leverage: Leverage, m: ContractMath)
  {
    && k <= limit
    && (Affordable(base, 0, budget, price, leverage, m) ==> Affordable(base, k, budget, price, leverage, m))
    && (!Affordable(base, 0, budget, price, leverage, m) ==> k == 0)
    && forall j: nat :: k < j <= limit ==> !Affordable(base, j, budget, price, leverage, m)
  }

  /** Margin only grows, so past the first unaffordable quantity nothing is affordable. */
  lemma NoneAffordable(base: nat, k: nat, limit: nat, budget: int, price: int, leverage: Leverage, m: ContractMath)
    requires price > 0 && (budget < 0 || !Affordable(base, k, budget, price, leverage, m))
    ensures forall j: nat :: k <= j <= limit ==> !Affordable(base, j, budget, price, leverage, m)
  {
    forall j: nat | k <= j <= limit ensures !Affordable(base, j, budget, price, leverage, m) {
      MarginMonotone(base + k, base + j, price, leverage, m);
    }
  }

  /** Binary search.  It cannot fail: the margin of the whole request was computed by the caller. */
  method MaxAffordable(base: u64, limit: u64, budget: i64, price: i64, leverage: Leverage, m: ContractMath)
    returns (r: Result<u64, RiskError>)
    requires base + limit <= U64_MAX && limit > 0
    requires InitialMargin(base + limit, price, leverage, m).Ok?
    ensures r.Ok? && IsLargestAffordable(r.value, base, limit, budget, price, leverage, m)
  {
    InitialMarginValue(base + limit, price, leverage, m);
    if budget < 0 {
      NoneAffordable(base, 0, limit, budget, price, leverage, m);
      return Ok(0);
    }
    MarginWithin(base, limit, 0, price, leverage, m);
    var baseMargin := InitialMargin(base, price, leverage, m);
    if baseMargin.value > budget {
      NoneAffordable(base, 0, limit, budget, price, leverage, m);
      return Ok(0);
    }
    var low, high := 0, limit;
    while low < high
      invariant 0 <= low <= high <= limit
      invariant Affordable(base, low, budget, price, leverage, m)
      invariant forall j: nat :: high < j <= limit ==> !Affordable(base, j, budget, price, leverage, m)
      decreases high - low
    {
      var span := high - low;
      var midpoint := low + span / 2 + span % 2;
      MarginWithin(base, limit, midpoint, price, leverage, m);
      var margin := InitialMargin(base + midpoint, price, leverage, m);
      if margin.value <= budget {
        low := midpoint;
      } else {
        NoneAffordable(base, midpoint, limit, budget, price, leverage, m);
        high := midpoint - 1;
      }
    }
    return Ok(low);
  }

  /** Every quantity up to the request has a computable margin. */
  lemma MarginWithin(base: u64, limit: u64, k: nat, price: i64, leverage: Leverage, m: ContractMath)
    requires base + limit <= U64_MAX && limit > 0 && k <= limit
    requires InitialMargin(base + limit, price, leverage, m).Ok?
    ensures InitialMargin(base + k, price, leverage, m) == Ok(MarginValue(base + k, price, leverage, m))
  {
    InitialMarginValue(base + limit, price, leverage, m);
    InitialMarginExact(base + k, price, leverage, m);
    NotionalMonotone(base + k, base + limit, price, m);
  }

  /** How a request splits into a closing and an opening leg. */
  function ClosingLeg(position: int, side: Side, requested: nat): nat {
    if Reduces(side, position) then Min(requested, Abs(position)) else 0
  }

  method PrecheckFill(equity: i64, p: Position, side: Side, requested: u64, price: i64,
                      reserved: i64, leverage: Leverage, profile: RiskProfile)
    returns (r: Result<PreTradeDecision, RiskError>)
    ensures var close := ClosingLeg(p.quantity, side, requested);
            var base := if Reduces(side, p.quantity) && requested > close then 0
                        else Abs(p.quantity) - close;
            var final := base + requested - close;
            // It answers exactly when its inputs are valid and the full request can be priced.
            && (r.Ok? <==>
                  && ValidProfile(profile) && price > 0 && reserved >= 0 && final <= U64_MAX
                  && InitialMargin(final, price, leverage, profile.math).Ok?
                  && IsI64(equity - reserved))
            && (r.Ok? ==>
                  // The whole closing leg plus the largest affordable opening quantity.
                  && r.value.closeQuantity == close
                  && r.value.requestedOpen == requested - close
                  && r.value.acceptedQuantity == close + r.value.acceptedOpen
                  && r.value.requestedFinalMargin == MarginValue(final, price, leverage, profile.math)
                  && r.value.budget == equity - reserved
                  && (requested == close ==> r.value.acceptedOpen == 0)
                  && (requested > close ==>
                        IsLargestAffordable(r.value.acceptedOpen, base, requested - close, equity - reserved,
                                            price, leverage, profile.math)))
  {
    if !ValidProfile(profile) { return Err(InvalidMaintenanceRate); }
    if price <= 0 { return Err(RiskError.InvalidPrice); }
    if reserved < 0 { return Err(InsufficientMargin); }
    var held := Abs(p.quantity);
    var opposite := if side.Buy? then p.quantity < 0 else p.quantity > 0;
    var close := if opposite then Min(requested, held) else 0;
    var open := requested - close;
    var base := if open == 0 then held - close else if opposite then 0 else held;
    if base + open > U64_MAX { return Err(RiskNumeric(Overflow)); }
    var final := InitialMargin(base + open, price, leverage, profile.math);
    if final.Err? { return Err(final.error); }
    InitialMarginValue(base + open, price, leverage, profile.math);
    if !IsI64(equity - reserved) { return Err(RiskNumeric(Overflow)); }
    var budget := equity - reserved;
    var accepted := 0;
    if open > 0 {
      var most := MaxAffordable(base, open, budget, price, leverage, profile.math);
      accepted := most.value;
    }
    return Ok(PreTradeDecision(close, open, accepted, close + accepted, final.value, budget));
  }
}
