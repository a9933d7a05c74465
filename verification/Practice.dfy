/** The practice engine: one player session over a sealed price path.
    The value-level functions below specify each operation; class Session
    carries them out in place. */
module Practice {
  import opened Common

  const STARTING_EQUITY_CENTS := 1_000_000
  const HALF_SPREAD_CENTS := 500
  const TAKER_FEE_PPB := 500_000
  const MAKER_FEE_PPB := 200_000
  const MAINTENANCE_RATE_PPB := 5_000_000
  const PPB := 1_000_000_000
  const MAX_ORDER_MILLI := 100_000
  const MAX_SAFE_JSON_INTEGER := 9_007_199_254_740_991

  /** The built-in path of NewSession, in four quarters. */
  const PRICES_0: seq<int> := [
    6_425_000, 6_431_500, 6_418_000, 6_446_000, 6_459_500, 6_451_000,
    6_473_000, 6_498_000, 6_482_500, 6_511_000, 6_527_500, 6_504_000]
  const PRICES_1: seq<int> := [
    6_476_000, 6_442_500, 6_455_500, 6_421_000, 6_388_000, 6_405_500,
    6_371_000, 6_346_500, 6_329_000, 6_358_500, 6_392_000, 6_417_500]
  const PRICES_2: seq<int> := [
    6_446_500, 6_428_000, 6_461_000, 6_489_500, 6_517_000, 6_548_000,
    6_532_500, 6_571_000, 6_603_000, 6_584_500, 6_621_000, 6_647_500]
  const PRICES_3: seq<int> := [
    6_619_000, 6_592_000, 6_613_500, 6_654_000, 6_683_500, 6_661_000,
    6_702_000, 6_736_500, 6_714_000, 6_752_500, 6_781_000, 6_765_500]
  const PRACTICE_PRICES: seq<int> := PRICES_0 + PRICES_1 + PRICES_2 + PRICES_3

  datatype Intent = Buy | Sell | Short | Cover | Reverse | Close | UnknownIntent
  datatype Side = SideBuy | SideSell
  datatype PriceMode = Market | Bid | Ask | Mid | Stop | UnknownMode
  datatype OrderStatus = Filled | Working | Canceled | Rejected
  datatype SessionStatus = Active | Completed | Liquidated
  datatype ReasonCode =
    | Accepted | FilledReason | SystemLiquidation
    | NoOpenPosition | PostOnlyWouldTake | MarketableOnlyUnfilled
    | ReduceOnlyExhausted | InsufficientMargin
    | SessionCompletedReason | LiquidationCancel
  datatype ErrorCode =
    | SessionEnded | InvalidLeverage | InsufficientAvailableMargin
    | InvalidIntent | InvalidPriceMode | InvalidQuantity
    | IncompatibleFlags | InvalidStopPrice | InvalidAdvance

  datatype OrderRequest = OrderRequest(
    intent: Intent, quantity: int, mode: PriceMode, stopPrice: int,
    reduceOnly: bool, makerOnly: bool, takerOnly: bool)

  datatype Order = Order(
    id: int, intent: Intent, side: Side,
    quantity: int, filled: int, remaining: int,
    price: Option<int>, stop: Option<int>,
    reduceOnly: bool, makerOnly: bool, takerOnly: bool,
    status: OrderStatus, reason: ReasonCode,
    createdAtStep: int, simulatedMaker: bool, systemLiquidation: bool)

  datatype State = State(
    id: string, prices: seq<int>, cursor: nat, status: SessionStatus,
    startingEquity: int, leverage: int,
    position: int, averageEntry: Option<int>, realized: int, fees: int,
    peakEquity: int, maxDrawdown: int,
    nextOrderId: int, orders: seq<Order>)

  datatype RevealedPrice = RevealedPrice(step: nat, price: int)

  datatype Snapshot = Snapshot(
    id: string, status: SessionStatus, step: nat, totalSteps: int,
    revealed: seq<RevealedPrice>, mark: int, bid: int, ask: int,
    position: int, averageEntry: Option<int>, realized: int, unrealized: int,
    fees: int, equity: int, startingEquity: int, leverage: int,
    effectiveLeverageMilli: int, initialMargin: int, maintenanceMargin: int,
    availableMargin: int, liquidationBuffer: int,
    maxDrawdown: int, peakEquity: int, orders: seq<Order>)

  type Response = Result<Snapshot, ErrorCode>

  /** What every operation relies on: the cursor points into the path and
      leverage is a usable divisor. */
  ghost predicate WellFormed(s: State) {
    s.cursor < |s.prices| && 1 <= s.leverage <= 50
  }

  function InitialState(id: string, prices: seq<int>): State {
    State(id, prices, 0, Active, STARTING_EQUITY_CENTS, 5, 0, None, 0, 0,
          STARTING_EQUITY_CENTS, 0, 1, [])
  }

  // ---------------------------------------------------------------- views

  function Mark(s: State): int
    requires WellFormed(s)
  {
    s.prices[s.cursor]
  }

  function UnrealizedAt(position: int, averageEntry: Option<int>, mark: int): int {
    if position == 0 || averageEntry.None? then 0
    else Trunc(position * (mark - averageEntry.value), 1_000)
  }

  function Equity(s: State): int
    requires WellFormed(s)
  {
    s.startingEquity + s.realized + UnrealizedAt(s.position, s.averageEntry, Mark(s)) - s.fees
  }

  function NotionalAt(position: int, mark: int): int {
    Trunc(Abs(position) * mark, 1_000)
  }

  function MaintenanceAt(position: int, mark: int): int {
    Trunc(NotionalAt(position, mark) * MAINTENANCE_RATE_PPB, PPB)
  }

  function Revealed(prices: seq<int>, n: nat): (r: seq<RevealedPrice>)
    requires n <= |prices|
    ensures |r| == n
  {
    seq(n, i requires 0 <= i < n => RevealedPrice(i, prices[i]))
  }

  function Reversed(orders: seq<Order>): (r: seq<Order>)
    ensures |r| == |orders|
  {
    seq(|orders|, i requires 0 <= i < |orders| => orders[|orders| - 1 - i])
  }

  function View(s: State): Snapshot
    requires WellFormed(s)
  {
    var mark := Mark(s);
    var equity := Equity(s);
    var notional := NotionalAt(s.position, mark);
    var initial := Trunc(notional, s.leverage);
    var maintenance := MaintenanceAt(s.position, mark);
    var effective :=
      if notional > 0 && equity > 0 then Trunc(notional * 1_000, equity)
      else if notional > 0 then 50_000 else 0;
    Snapshot(s.id, s.status, s.cursor, |s.prices| - 1, Revealed(s.prices, s.cursor + 1),
             mark, mark - HALF_SPREAD_CENTS, mark + HALF_SPREAD_CENTS,
             s.position, s.averageEntry, s.realized,
             UnrealizedAt(s.position, s.averageEntry, mark),
             s.fees, equity, s.startingEquity, s.leverage, effective, initial, maintenance,
             equity - initial, equity - maintenance, s.maxDrawdown, s.peakEquity,
             Reversed(s.orders))
  }

  // ------------------------------------------------------- order handling

  function Closed(o: Order, status: OrderStatus, reason: ReasonCode): Order {
    o.(status := status, reason := reason)
  }

  function Close1(s: State, i: nat, status: OrderStatus, reason: ReasonCode): State
    requires i < |s.orders|
  {
    s.(orders := s.orders[i := Closed(s.orders[i], status, reason)])
  }

  function CancelWorking(orders: seq<Order>, reason: ReasonCode): (r: seq<Order>)
    ensures |r| == |orders|
  {
    seq(|orders|, i requires 0 <= i < |orders| =>
      if orders[i].status.Working? then Closed(orders[i], Canceled, reason) else orders[i])
  }

  datatype Projected = Projected(position: int, averageEntry: Option<int>, realized: int)

  function OrElse(o: Option<int>, d: int): int {
    if o.Some? then o.value else d
  }

  function ProjectPosition(position: int, averageEntry: Option<int>, realized: int,
                           signedFill: int, fillPrice: int): Projected
  {
    var after := position + signedFill;
    if position == 0 || Sign(position) == Sign(signedFill) then
      var total := Abs(after);
      var weighted := Abs(position) * OrElse(averageEntry, fillPrice) + Abs(signedFill) * fillPrice;
      Projected(after, if total != 0 then Some(Trunc(weighted, total)) else None, realized)
    else
      var closing := Min(Abs(position), Abs(signedFill));
      var direction := if position < 0 then -1 else 1;
      var gain := Trunc(closing * (direction * (fillPrice - OrElse(averageEntry, fillPrice))), 1_000);
      Projected(after,
                if after == 0 then None
                else if Sign(after) == Sign(position) then averageEntry
                else Some(fillPrice),
                realized + gain)
  }

  function FeeFor(quantity: int, price: int, maker: bool): int {
    Trunc(Trunc(quantity * price, 1_000) * (if maker then MAKER_FEE_PPB else TAKER_FEE_PPB), PPB)
  }

  predicate CreatesOrIncreasesExposure(before: int, after: int) {
    after != 0 && (before == 0 || Sign(before) != Sign(after) || Abs(after) > Abs(before))
  }

  function FillQuantity(position: int, o: Order): int {
    if o.reduceOnly
    then Min(o.remaining, Max(0, if o.side.SideBuy? then -position else position))
    else o.remaining
  }

  function SignedFill(side: Side, quantity: int): int {
    if side.SideSell? then -quantity else quantity
  }

  predicate MarginRefused(s: State, o: Order, pr: Projected, fee: int)
    requires WellFormed(s)
  {
    && !o.systemLiquidation
    && CreatesOrIncreasesExposure(s.position, pr.position)
    && Trunc(NotionalAt(pr.position, Mark(s)), s.leverage)
       > s.startingEquity + pr.realized + UnrealizedAt(pr.position, pr.averageEntry, Mark(s)) - s.fees - fee
  }

  function AfterFill(o: Order, quantity: int, price: int, taker: bool): Order {
    var done := o.(filled := o.filled + quantity, remaining := o.remaining - quantity,
                   price := Some(price), simulatedMaker := !taker);
    if done.remaining > 0 then Closed(done, Canceled, ReduceOnlyExhausted)
    else Closed(done, Filled, FilledReason)
  }

  /** Everything that one fill may touch is position, basis, realized P&L, fees and its own order. */
  predicate SameFrame(s: State, t: State) {
    && t == s.(position := t.position, averageEntry := t.averageEntry, realized := t.realized,
               fees := t.fees, orders := t.orders)
    && |t.orders| == |s.orders|
  }

  function FillOrder(s: State, i: nat, fillPrice: int, taker: bool): (t: State)
    requires WellFormed(s) && i < |s.orders|
    ensures SameFrame(s, t)
    ensures forall j :: 0 <= j < |s.orders| && j != i ==> t.orders[j] == s.orders[j]
  {
    var o := s.orders[i];
    var quantity := FillQuantity(s.position, o);
    if quantity == 0 then Close1(s, i, Canceled, ReduceOnlyExhausted)
    else
      var pr := ProjectPosition(s.position, s.averageEntry, s.realized,
                                SignedFill(o.side, quantity), fillPrice);
      var fee := FeeFor(quantity, fillPrice, !taker);
      if MarginRefused(s, o, pr, fee) then Close1(s, i, Rejected, InsufficientMargin)
      else s.(position := pr.position, averageEntry := pr.averageEntry, realized := pr.realized,
              fees := s.fees + fee, orders := s.orders[i := AfterFill(o, quantity, fillPrice, taker)])
  }

  function ExecutionPrice(s: State, side: Side): int
    requires WellFormed(s)
  {
    if side.SideBuy? then Mark(s) + HALF_SPREAD_CENTS else Mark(s) - HALF_SPREAD_CENTS
  }

  predicate StopTriggered(o: Order, mark: int)
    requires o.stop.Some?
  {
    (o.side.SideSell? && mark <= o.stop.value) || (o.side.SideBuy? && mark >= o.stop.value)
  }

  predicate LimitCrossed(o: Order, mark: int) {
    o.price.Some?
    && ((o.side.SideBuy? && mark <= o.price.value) || (o.side.SideSell? && mark >= o.price.value))
  }

  function ProcessOne(s: State, i: nat): (t: State)
    requires WellFormed(s) && i < |s.orders|
    ensures SameFrame(s, t)
    ensures forall j :: 0 <= j < |s.orders| && j != i ==> t.orders[j] == s.orders[j]
  {
    var o := s.orders[i];
    if !o.status.Working? then s
    else if o.stop.Some? then
      if StopTriggered(o, Mark(s)) then FillOrder(s, i, ExecutionPrice(s, o.side), true) else s
    else if LimitCrossed(o, Mark(s)) then FillOrder(s, i, o.price.value, false)
    else s
  }

  /** Offers the revealed price to orders i, i+1, ... in book order. */
  function ProcessFrom(s: State, i: nat): (t: State)
    requires WellFormed(s) && i <= |s.orders|
    ensures SameFrame(s, t)
    decreases |s.orders| - i
  {
    if i == |s.orders| then s else ProcessFrom(ProcessOne(s, i), i + 1)
  }

  function Mark2Market(s: State): State
    requires WellFormed(s)
  {
    var peak := Max(s.peakEquity, Equity(s));
    s.(peakEquity := peak, maxDrawdown := Max(s.maxDrawdown, peak - Equity(s)))
  }

  function LiquidationOrder(s: State): Order {
    Order(s.nextOrderId, Close, if s.position < 0 then SideBuy else SideSell,
          Abs(s.position), 0, Abs(s.position), None, None,
          true, false, true, Working, SystemLiquidation, s.cursor, false, true)
  }

  predicate MustLiquidate(s: State)
    requires WellFormed(s)
  {
    Equity(s) <= MaintenanceAt(s.position, Mark(s)) && s.position != 0
  }

  function Liquidate(s: State): (t: State)
    requires WellFormed(s)
    ensures WellFormed(t) && t.prices == s.prices && t.cursor == s.cursor
  {
    var o := LiquidationOrder(s);
    var open := Append(s.(orders := CancelWorking(s.orders, LiquidationCancel)), o);
    FillOrder(open, |s.orders|, ExecutionPrice(open, o.side), true).(status := Liquidated)
  }

  function UpdateRisk(s: State): (t: State)
    requires WellFormed(s)
    ensures WellFormed(t) && t.prices == s.prices && t.cursor == s.cursor
  {
    var m := Mark2Market(s);
    if MustLiquidate(m) then Liquidate(m) else m
  }

  // -------------------------------------------------------------- commands

  function Validate(r: OrderRequest): Option<ErrorCode> {
    if r.intent.UnknownIntent? then Some(InvalidIntent)
    else if r.mode.UnknownMode? then Some(InvalidPriceMode)
    else if r.quantity <= 0 || r.quantity > MAX_ORDER_MILLI then Some(InvalidQuantity)
    else if r.makerOnly && r.takerOnly then Some(IncompatibleFlags)
    else if r.mode.Market? && r.makerOnly then Some(IncompatibleFlags)
    else if r.mode.Stop? && r.makerOnly then Some(IncompatibleFlags)
    else if r.mode.Stop? && (r.stopPrice <= 0 || r.stopPrice > MAX_SAFE_JSON_INTEGER)
      then Some(InvalidStopPrice)
    else None
  }

  datatype Resolved = Resolved(side: Side, quantity: int, forceReduceOnly: bool)

  function ClosingSide(position: int): Side {
    if position < 0 then SideBuy else SideSell
  }

  function ResolveIntent(position: int, intent: Intent, requested: int): Resolved
    requires !intent.UnknownIntent?
  {
    match intent
    case Buy => Resolved(SideBuy, requested, false)
    case Sell => Resolved(SideSell, requested, false)
    case Short => Resolved(SideSell, requested, false)
    case Cover => Resolved(SideBuy, requested, true)
    case Close => Resolved(ClosingSide(position), Abs(position), true)
    case Reverse => Resolved(ClosingSide(position), Abs(position) + requested, false)
  }

  function PriceForMode(mark: int, mode: PriceMode): Option<int>
    requires !mode.UnknownMode?
  {
    match mode
    case Bid => Some(mark - HALF_SPREAD_CENTS)
    case Ask => Some(mark + HALF_SPREAD_CENTS)
    case Mid => Some(mark)
    case Market => None
    case Stop => None
  }

  function NewOrder(s: State, r: OrderRequest): Order
    requires WellFormed(s) && Validate(r).None?
  {
    var resolved := ResolveIntent(s.position, r.intent, r.quantity);
    Order(s.nextOrderId, r.intent, resolved.side, resolved.quantity, 0, resolved.quantity,
          PriceForMode(Mark(s), r.mode),
          if r.mode.Stop? then Some(r.stopPrice) else None,
          r.reduceOnly || resolved.forceReduceOnly, r.makerOnly, r.takerOnly || r.mode.Market?,
          Working, Accepted, s.cursor, false, false)
  }

  predicate Marketable(o: Order, mark: int) {
    o.price.None?
    || (if o.side.SideBuy? then o.price.value >= mark + HALF_SPREAD_CENTS
        else o.price.value <= mark - HALF_SPREAD_CENTS)
  }

  function Append(s: State, o: Order): State {
    s.(nextOrderId := s.nextOrderId + 1, orders := s.orders + [o])
  }

  /** Fills the last order of the book at the visible quote if it is marketable. */
  function TakeIfMarketable(s: State): (t: State)
    requires WellFormed(s) && |s.orders| > 0
    ensures SameFrame(s, t)
  {
    var n := |s.orders| - 1;
    if Marketable(s.orders[n], Mark(s))
    then FillOrder(s, n, ExecutionPrice(s, s.orders[n].side), true)
    else s
  }

  /** The book after a valid request was appended and, possibly, filled. */
  function Place(s: State, r: OrderRequest): (t: State)
    requires WellFormed(s) && Validate(r).None?
    ensures WellFormed(t) && t.prices == s.prices && t.cursor == s.cursor
  {
    var o := NewOrder(s, r);
    var n := |s.orders|;
    var open := Append(s, o);
    if o.quantity == 0 then Close1(open, n, Rejected, NoOpenPosition)
    else if r.mode.Stop? then open
    else if o.makerOnly && Marketable(o, Mark(s)) then Close1(open, n, Rejected, PostOnlyWouldTake)
    else if o.takerOnly && !Marketable(o, Mark(s)) then Close1(open, n, Canceled, MarketableOnlyUnfilled)
    else UpdateRisk(TakeIfMarketable(open))
  }

  function SubmitOrder(s: State, r: OrderRequest): (State, Response)
    requires WellFormed(s)
  {
    if !s.status.Active? then (s, Err(SessionEnded))
    else if Validate(r).Some? then (s, Err(Validate(r).value))
    else var t := Place(s, r); (t, Ok(View(t)))
  }

  function SetLeverage(s: State, leverage: int): (State, Response)
    requires WellFormed(s)
  {
    if !s.status.Active? then (s, Err(SessionEnded))
    else if leverage < 1 || leverage > 50 then (s, Err(InvalidLeverage))
    else
      var t := s.(leverage := leverage);
      if View(t).availableMargin < 0 then (s, Err(InsufficientAvailableMargin)) else (t, Ok(View(t)))
  }

  function Complete(s: State): State {
    s.(orders := CancelWorking(s.orders, SessionCompletedReason), status := Completed)
  }

  /** Reveals one more price, then lets the working orders and the risk check see it. */
  function Reveal(s: State): (t: State)
    requires WellFormed(s) && s.cursor + 1 < |s.prices|
    ensures WellFormed(t) && t.prices == s.prices && t.cursor == s.cursor + 1
  {
    UpdateRisk(ProcessFrom(s.(cursor := s.cursor + 1), 0))
  }

  function CompleteAtEnd(s: State): State {
    if s.cursor >= |s.prices| - 1 && s.status.Active? then Complete(s) else s
  }

  /** One turn of the Advance loop. */
  function AdvanceOne(s: State): (t: State)
    requires WellFormed(s)
    ensures WellFormed(t) && t.prices == s.prices
    ensures t.cursor == if s.cursor + 1 < |s.prices| then s.cursor + 1 else s.cursor
  {
    if s.cursor >= |s.prices| - 1 then Complete(s) else CompleteAtEnd(Reveal(s))
  }

  function AdvanceMany(s: State, steps: nat): (t: State)
    requires WellFormed(s)
    ensures WellFormed(t) && t.prices == s.prices && s.cursor <= t.cursor
    decreases steps
  {
    if steps == 0 || !s.status.Active? then s else AdvanceMany(AdvanceOne(s), steps - 1)
  }

  function Advance(s: State, steps: int): (State, Response)
    requires WellFormed(s)
  {
    if !s.status.Active? then (s, Err(SessionEnded))
    else if steps < 1 || steps > 8 then (s, Err(InvalidAdvance))
    else var t := AdvanceMany(s, steps); (t, Ok(View(t)))
  }

  datatype Command = CmdLeverage(leverage: int) | CmdSubmit(request: OrderRequest) | CmdAdvance(steps: int)

  function Step(s: State, c: Command): (r: (State, Response))
    requires WellFormed(s)
    ensures WellFormed(r.0) && r.0.prices == s.prices && s.cursor <= r.0.cursor
  {
    match c
    case CmdLeverage(l) => SetLeverage(s, l)
    case CmdSubmit(r) => SubmitOrder(s, r)
    case CmdAdvance(n) => Advance(s, n)
  }

  /** A whole session: the final state and everything the player was shown. */
  function Run(s: State, cs: seq<Command>): (r: (State, seq<Response>))
    requires WellFormed(s)
    ensures WellFormed(r.0) && r.0.prices == s.prices && s.cursor <= r.0.cursor
    ensures |r.1| == |cs|
    decreases |cs|
  {
    if cs == [] then (s, [])
    else
      var (t, shown) := Step(s, cs[0]);
      var (u, rest) := Run(t, cs[1..]);
      (u, [shown] + rest)
  }
}
