/** The simulator facade for tiers F0 and F1: one atomic transition per accepted input. */
module Facade {
  import opened Common
  import opened Numeric
  import opened Bytes
  import opened Orders
  import opened FacadeTypes
  import opened Codec
  import opened Kernel
  import opened Positions
  import opened Execution
  import opened Risk
  import opened Ledger
  import opened Economics

  const API_VERSION := 1
  const SNAPSHOT_FORMAT_VERSION := 1

  datatype Tier = F0 | F0T | F1 | F2 | F3

  datatype FacadeRules = FacadeRules(
    positionMath: ContractMath, riskProfile: RiskProfile, f0FeeRole: Role, makerFeeRate: i64, takerFeeRate: i64)

  datatype FacadeConfig = FacadeConfig(
    apiVersion: int, sessionId: Text, instrumentId: Text, tier: Tier, rules: FacadeRules)

  function ValidateConfig(c: FacadeConfig): Option<ErrorCode> {
    if c.apiVersion != API_VERSION then Some(UnsupportedApiVersion)
    else if c.sessionId == [] || c.instrumentId == [] then Some(InvalidConfiguration)
    else if c.tier.F0T? || c.tier.F3? then Some(UnsupportedExecutionTier)
    else if !ValidProfile(c.rules.riskProfile) then Some(RiskTransition)
    else if c.rules.positionMath != c.rules.riskProfile.math then Some(InvalidConfiguration)
    else None
  }

  datatype FacadeState = FacadeState(
    config: FacadeConfig, kernel: KernelState, lastTs: Option<i64>, marketSeq: Option<u64>,
    orders: OrderState, position: Position, ledger: LedgerState, posted: Posted, risk: RiskState)

  datatype ExecutionFill = ExecutionFill(quantity: u64, price: i64, role: Role)

  datatype Payload =
    | OrderSubmitted(order: Order)
    | OrderCancelled(orderId: u64)
    | OrderReplaced(order: Order)
    | ExecutionReported(orderId: u64, fills: seq<ExecutionFill>, status: OrderStatus, uncertainty: seq<Flag>)
    | PositionChanged(position: Position)
    | RealizedPnlPosted(amount: i64)
    | FeePosted(role: Role, amount: i64)
    | LeverageChanged(leverage: int, margin: MarginSnapshot)
    | RiskEvaluated(margin: MarginSnapshot, liquidation: LiquidationState, triggered: bool)
    | FundingProcessed(posted: bool, cashDelta: i64)

  datatype DomainEvent = DomainEvent(cause: KernelEvent, ordinal: nat, payload: Payload)

  /** A handled command: the next state and what it emitted. */
  type Handled = Result<(FacadeState, seq<Payload>), ErrorCode>

  function OrderCode(e: OrderError): ErrorCode {
    if e.UnknownOrder? then UnknownOrderCode
    else if e.ImmediateOrderRequiresAtomicExecution? || e.NotImmediateOrder? || e.PartialFokFill?
      then UnsupportedOrderCombination
    else OrderTransition
  }

  function F1Code(e: ExecError): ErrorCode {
    if e.ExecOrder? && (e.error.ImmediateOrderRequiresAtomicExecution? || e.error.NotImmediateOrder?
                        || e.error.PartialFokFill?)
    then UnsupportedOrderCombination else F1Execution
  }

  // -------------------------------------------------------------- order handlers

  function HandleSubmit(s: FacadeState, r: NewOrder, quote: Option<TopOfBook>): Handled
    requires Sound(s.orders)
  {
    if r.instrumentId != s.config.instrumentId then Err(InstrumentMismatch)
    else if r.submittedAt != (if s.marketSeq.Some? then s.marketSeq.value else 0) then Err(MarketSequenceRegression)
    else
      var x := Submit(s.orders, r, s.position.quantity, quote);
      if x.Err? then Err(OrderCode(x.error))
      else Ok((s.(orders := x.value.0), [OrderSubmitted(x.value.0[x.value.1.orderId])]))
  }

  function HandleCancel(s: FacadeState, id: u64): Handled {
    var x := Cancel(s.orders, id);
    if x.Err? then Err(OrderCode(x.error)) else Ok((s.(orders := x.value), [OrderCancelled(id)]))
  }

  function HandleReplace(s: FacadeState, id: u64, r: ReplaceOrder, quote: Option<TopOfBook>): Handled
    requires Sound(s.orders)
  {
    var x := Replace(s.orders, id, r, s.position.quantity, quote);
    if x.Err? then Err(OrderCode(x.error)) else Ok((s.(orders := x.value.0), [OrderReplaced(x.value.0[id])]))
  }

  // ------------------------------------------------------------------- execution

  function ObserveMarket(s: FacadeState, seqNo: u64): Result<FacadeState, ErrorCode> {
    if s.marketSeq.Some? && seqNo < s.marketSeq.value then Err(MarketSequenceRegression)
    else Ok(s.(marketSeq := Some(seqNo)))
  }

  /** Posts the realized P&L of each leg that has any. */
  function PostLegs(l: LedgerState, eventSeq: u64, legs: seq<PositionLeg>): Result<(LedgerState, seq<Payload>), ErrorCode> {
    if legs == [] then Ok((l, []))
    else
      var n := |legs| - 1;
      var amount := legs[n].realizedDelta;
      var (before, out) :- PostLegs(l, eventSeq, legs[..n]);
      if amount == 0 then Ok((before, out))
      else
        var next := PostCashFlow(before, eventSeq, "REALIZED_PNL", RealizedPnl, amount);
        if next.Err? then Err(LedgerTransition) else Ok((next.value, out + [RealizedPnlPosted(amount)]))
  }

  function FeeRate(rules: FacadeRules, role: Role): i64 {
    if role.Maker? then rules.makerFeeRate else rules.takerFeeRate
  }

  /** One fill: position, realized P&L, fee. */
  function ReconcileFill(s: FacadeState, eventSeq: u64, side: Side, f: ExecutionFill): Handled {
    var moved := Positions.ApplyFill(s.position, side, f.quantity, f.price, s.config.rules.positionMath);
    if moved.Err? then Err(PositionAccounting)
    else
      var (ledger, out) :- PostLegs(s.ledger, eventSeq, moved.value.1);
      var charged := PostExecutionFee(ledger, eventSeq, f.quantity, f.price, FeeRate(s.config.rules, f.role),
                                      f.role, s.config.rules.riskProfile.math);
      if charged.Err? then Err(EconomicsTransition)
      else Ok((s.(position := moved.value.0, ledger := charged.value.0), out + [FeePosted(f.role, charged.value.1)]))
  }

  function ReconcileFills(s: FacadeState, eventSeq: u64, side: Side, fs: seq<ExecutionFill>): Handled
    decreases |fs|
  {
    if fs == [] then Ok((s, []))
    else
      var n := |fs| - 1;
      var (before, out) :- ReconcileFills(s, eventSeq, side, fs[..n]);
      var (next, more) :- ReconcileFill(before, eventSeq, side, fs[n]);
      Ok((next, out + more))
  }

  function Reconcile(s: FacadeState, eventSeq: u64, side: Side, fs: seq<ExecutionFill>, out: Outcome): Handled {
    var report := ExecutionReported(out.orderId, fs, out.status, out.uncertainty);
    if fs == [] then Ok((s, [report]))
    else
      var (next, more) :- ReconcileFills(s, eventSeq, side, fs);
      Ok((next, [report] + more + [PositionChanged(next.position)]))
  }

  /** An execution outcome as a list of at most one fill. */
  function FillsOf(out: Outcome, role: Role): seq<ExecutionFill> {
    if out.fillPrice.Some? && out.filled > 0 then [ExecutionFill(out.filled, out.fillPrice.value, role)] else []
  }

  function HandleF0(s0: FacadeState, id: u64, b: Bar, c: F0Config, eventSeq: u64, sha: HashFn): Handled
    requires Sound(s0.orders)
  {
    if !s0.config.tier.F0? then Err(ExecutionTierMismatch)
    else
      var s :- ObserveMarket(s0, b.eventSeq);
      if id >= |s.orders| then Err(UnknownOrderCode)
      else
        var x := ExecuteBar(s.orders, id, b, c, sha);
        if x.Err? then Err(F0Execution)
        else Reconcile(s.(orders := x.value.0), eventSeq, s.orders[id].side,
                       FillsOf(x.value.1, s.config.rules.f0FeeRole), x.value.1)
  }

  function HandleF1Quote(s0: FacadeState, id: u64, q: BboQuote, c: F1Config, eventSeq: u64, logicalTs: i64): Handled
    requires Sound(s0.orders)
  {
    if !s0.config.tier.F1? then Err(ExecutionTierMismatch)
    else
      var s :- ObserveMarket(s0, q.eventSeq);
      if id >= |s.orders| then Err(UnknownOrderCode)
      else
        var x := ExecuteOnQuote(s.orders, id, q, logicalTs, c);
        if x.Err? then Err(F1Code(x.error))
        else Reconcile(s.(orders := x.value.0), eventSeq, s.orders[id].side,
                       if x.value.1.role.Some? then FillsOf(x.value.1, x.value.1.role.value) else [], x.value.1)
  }

  function HandleF1Trade(s0: FacadeState, id: u64, t: TradePrint, eligibleAfter: u64, ahead: u64, c: F1Config,
                         eventSeq: u64, logicalTs: i64): Handled
    requires Sound(s0.orders)
  {
    if !s0.config.tier.F1? then Err(ExecutionTierMismatch)
    else
      var s :- ObserveMarket(s0, t.eventSeq);
      if id >= |s.orders| then Err(UnknownOrderCode)
      else if !s.orders[id].timeInForce.Gtc? || !s.orders[id].kind.Limit? then Err(UnsupportedOrderCombination)
      else
        var x := ExecuteRestingOnTrade(s.orders, id, t, logicalTs, eligibleAfter, ahead, c);
        if x.Err? then Err(F1Code(x.error))
        else Reconcile(s.(orders := x.value.0), eventSeq, s.orders[id].side, FillsOf(x.value.1, Maker), x.value.1)
  }

  // -------------------------------------------------------------- risk and funding

  function HandleLeverage(s: FacadeState, leverage: int, equity: i64, mark: i64): Handled {
    if !(1 <= leverage <= 50) then Err(RiskTransition)
    else
      var x := ChangeLeverage(s.risk, leverage, equity, s.position, s.config.instrumentId, s.orders, mark,
                              s.config.rules.riskProfile);
      if x.Err? then Err(RiskTransition)
      else Ok((s.(risk := x.value.0), [LeverageChanged(leverage, x.value.1)]))
  }

  function HandleRisk(s: FacadeState, equity: i64, mark: i64): Handled {
    var m := Margin(equity, s.position, s.config.instrumentId, s.orders, mark, s.risk.leverage,
                    s.config.rules.riskProfile);
    if m.Err? then Err(RiskTransition)
    else
      var (risk, triggered) := EvaluateLiquidation(s.risk, s.position, m.value);
      Ok((s.(risk := risk), [RiskEvaluated(m.value, risk.liquidation, triggered)]))
  }

  function HandleFunding(s: FacadeState, id: ScheduledId, delta: i64, eventSeq: u64): Handled {
    var x := PostFunding(s.posted, s.ledger, id, eventSeq, delta);
    if x.Err? then Err(EconomicsTransition)
    else Ok((s.(posted := x.value.0, ledger := x.value.1), [FundingProcessed(x.value.2, delta)]))
  }

  function Dispatch(s: FacadeState, x: FacadeInput, eventSeq: u64, logicalTs: i64, sha: HashFn): Handled
    requires Sound(s.orders) && !s.config.tier.F2?
  {
    match x
    case SubmitInput(r, q) => HandleSubmit(s, r, q)
    case CancelInput(id) => HandleCancel(s, id)
    case ReplaceInput(id, r, q) => HandleReplace(s, id, r, q)
    case F0Input(id, b, c) => HandleF0(s, id, b, c, eventSeq, sha)
    case F1QuoteInput(id, q, c) => HandleF1Quote(s, id, q, c, eventSeq, logicalTs)
    case F1TradeInput(id, t, e, d, c) => HandleF1Trade(s, id, t, e, d, c, eventSeq, logicalTs)
    case F2SnapshotInput(_) => Err(ExecutionTierMismatch)
    case F2DeltaInput(_) => Err(ExecutionTierMismatch)
    case F2ExecuteInput(_, _) => Err(ExecutionTierMismatch)
    case LeverageInput(l, e, m) => HandleLeverage(s, l, e, m)
    case RiskInput(e, m) => HandleRisk(s, e, m)
    case FundingInput(id, d) => HandleFunding(s, id, d, eventSeq)
  }

  // ------------------------------------------------------------------ transitions

  function Numbered(cause: KernelEvent, ps: seq<Payload>): seq<DomainEvent> {
    seq(|ps|, i requires 0 <= i < |ps| => DomainEvent(cause, i, ps[i]))
  }

  /** Validation, kernel step and dispatch on a copy; the result replaces the state only on success. */
  function Attempt(s: FacadeState, e: InputEnvelope, sha: HashFn): Result<(FacadeState, seq<DomainEvent>), ErrorCode>
    requires Sound(s.orders) && !s.config.tier.F2?
  {
    if e.sessionId != s.config.sessionId then Err(SessionMismatch)
    else if s.lastTs.Some? && e.logicalTs < s.lastTs.value then Err(LogicalTimeRegression)
    else
      var command :- Decode(e.kind, e.payload);
      var k := KernelApply(s.kernel, e, sha);
      if k.Err? then Err(KernelTransition)
      else
        var (next, payloads) :- Dispatch(s.(kernel := k.value.0), command, k.value.1.eventSeq, e.logicalTs, sha);
        Ok((next.(lastTs := Some(e.logicalTs)), Numbered(k.value.1, payloads)))
  }

  type Answer = Result<seq<DomainEvent>, ErrorCode>

  function Apply(s: FacadeState, e: InputEnvelope, sha: HashFn): (FacadeState, Answer)
    requires Sound(s.orders) && !s.config.tier.F2?
  {
    var x := Attempt(s, e, sha);
    if x.Ok? then (x.value.0, Ok(x.value.1)) else (s, Err(x.error))
  }

  function NewFacade(config: FacadeConfig, position: Position, ledger: LedgerSnapshot, leverage: Leverage)
    : Result<FacadeState, ErrorCode>
  {
    if ValidateConfig(config).Some? then Err(ValidateConfig(config).value)
    else if !ValidPosition(position) then Err(PositionAccounting)
    else
      var l := FromSnapshot(ledger);
      if l.Err? then Err(LedgerTransition)
      else Ok(FacadeState(config, NEW_KERNEL, None, None, [], position, l.value, map[], RiskState(leverage, Healthy)))
  }

  // ------------------------------------------------------------ snapshot, restore

  datatype Snapshot = Snapshot(
    formatVersion: int, config: FacadeConfig, lastTs: Option<i64>, marketSeq: Option<u64>,
    kernel: KernelState, orders: OrderState, position: Position, ledger: LedgerSnapshot,
    posted: Posted, risk: RiskState)

  function TakeSnapshot(s: FacadeState): Snapshot {
    Snapshot(SNAPSHOT_FORMAT_VERSION, s.config, s.lastTs, s.marketSeq, s.kernel, s.orders, s.position,
             SnapshotOf(s.ledger), s.posted, s.risk)
  }

  function Restore(x: Snapshot): Result<FacadeState, ErrorCode> {
    if x.formatVersion != SNAPSHOT_FORMAT_VERSION then Err(UnsupportedSnapshotVersion)
    else if ValidateConfig(x.config).Some? then Err(ValidateConfig(x.config).value)
    else
      var kernel := KernelFromSnapshot(x.kernel);
      var ledger := FromSnapshot(x.ledger);
      if kernel.Err? || !ValidPosition(x.position) || ledger.Err? then Err(InvalidSnapshot)
      else if (kernel.value.stateVersion > 0) != x.lastTs.Some? then Err(InvalidSnapshot)
      else if exists i :: 0 <= i < |x.orders| && x.orders[i].instrumentId != x.config.instrumentId
        then Err(InvalidSnapshot)
      else Ok(FacadeState(x.config, kernel.value, x.lastTs, x.marketSeq, x.orders, x.position, ledger.value,
                          x.posted, x.risk))
  }
}
