/** The simulator facade as an object: handlers that mutate in place, and an atomic apply. */
module FacadeObject {
  import opened Common
  import opened Numeric
  import opened Orders
  import opened FacadeTypes
  import opened Codec
  import opened Kernel
  import opened Positions
  import opened Execution
  import opened Risk
  import opened Ledger
  import opened Economics
  import F = Facade

  type Events = Result<seq<F.Payload>, ErrorCode>

  /** A handler did what its specification says; after a failure the object is discarded. */
  ghost predicate Took(spec: F.Handled, after: F.FacadeState, r: Events) {
    if spec.Err? then r == Err(spec.error) else after == spec.value.0 && r == Ok(spec.value.1)
  }

  lemma {:induction false} LegsStop(l: LedgerState, eventSeq: u64, legs: seq<PositionLeg>, n: nat)
    requires n <= |legs| && F.PostLegs(l, eventSeq, legs[..n]).Err?
    ensures F.PostLegs(l, eventSeq, legs) == F.PostLegs(l, eventSeq, legs[..n])
    decreases |legs| - n
  {
    hide PostCashFlow;
    if n == |legs| {
      assert legs[..n] == legs;
    } else {
      assert legs[..n + 1][..n] == legs[..n];
      LegsStop(l, eventSeq, legs, n + 1);
    }
  }

  lemma {:induction false} FillsStop(s: F.FacadeState, eventSeq: u64, side: Side, fs: seq<F.ExecutionFill>, n: nat)
    requires n <= |fs| && F.ReconcileFills(s, eventSeq, side, fs[..n]).Err?
    ensures F.ReconcileFills(s, eventSeq, side, fs) == F.ReconcileFills(s, eventSeq, side, fs[..n])
    decreases |fs| - n
  {
    hide F.ReconcileFill;
    if n == |fs| {
      assert fs[..n] == fs;
    } else {
      assert fs[..n + 1][..n] == fs[..n];
      FillsStop(s, eventSeq, side, fs, n + 1);
    }
  }

  class SimulatorFacade {
    const config: F.FacadeConfig
    var kernel: KernelState
    var lastTs: Option<i64>
    var marketSeq: Option<u64>
    var orders: OrderState
    var position: Position
    var ledger: LedgerState
    var posted: Posted
    var risk: RiskState

    function Value(): F.FacadeState
      reads this
    {
      F.FacadeState(config, kernel, lastTs, marketSeq, orders, position, ledger, posted, risk)
    }

    /** A copy of the given state. */
    constructor Clone(s: F.FacadeState)
      ensures Value() == s
    {
      config := s.config;
      kernel, lastTs, marketSeq := s.kernel, s.lastTs, s.marketSeq;
      orders, position, ledger, posted, risk := s.orders, s.position, s.ledger, s.posted, s.risk;
    }

    // ----------------------------------------------------------------- accounting

    /** Posts the realized P&L of each leg, leg by leg. */
    method PostRealizedPnl(eventSeq: u64, legs: seq<PositionLeg>) returns (r: Events)
      modifies this`ledger
      ensures var spec := F.PostLegs(old(ledger), eventSeq, legs);
              if spec.Err? then r == Err(spec.error) else ledger == spec.value.0 && r == Ok(spec.value.1)
    {
      hide PostCashFlow;
      var out: seq<F.Payload> := [];
      for i := 0 to |legs|
        invariant F.PostLegs(old(ledger), eventSeq, legs[..i]) == Ok((ledger, out))
      {
        assert legs[..i + 1][..i] == legs[..i];
        var amount := legs[i].realizedDelta;
        if amount != 0 {
          var next := PostCashFlow(ledger, eventSeq, "REALIZED_PNL", RealizedPnl, amount);
          if next.Err? {
            LegsStop(old(ledger), eventSeq, legs, i + 1);
            return Err(LedgerTransition);
          }
          ledger := next.value;
          out := out + [F.RealizedPnlPosted(amount)];
        }
      }
      assert legs[..|legs|] == legs;
      return Ok(out);
    }

    method ReconcileOne(eventSeq: u64, side: Side, fill: F.ExecutionFill) returns (r: Events)
      modifies this
      ensures Took(F.ReconcileFill(old(Value()), eventSeq, side, fill), Value(), r)
    {
      hide F.PostLegs, Positions.ApplyFill, PostExecutionFee;
      var moved := Positions.ApplyFill(position, side, fill.quantity, fill.price, config.rules.positionMath);
      if moved.Err? { return Err(PositionAccounting); }
      position := moved.value.0;
      var gains := PostRealizedPnl(eventSeq, moved.value.1);
      if gains.Err? { return gains; }
      var charged := PostExecutionFee(ledger, eventSeq, fill.quantity, fill.price, F.FeeRate(config.rules, fill.role),
                                      fill.role, config.rules.riskProfile.math);
      if charged.Err? { return Err(EconomicsTransition); }
      ledger := charged.value.0;
      return Ok(gains.value + [F.FeePosted(fill.role, charged.value.1)]);
    }

    /** Position, P&L and fee of every fill of one execution, in order. */
    method ReconcileExecution(eventSeq: u64, side: Side, fills: seq<F.ExecutionFill>, out: Outcome) returns (r: Events)
      modifies this
      ensures Took(F.Reconcile(old(Value()), eventSeq, side, fills, out), Value(), r)
    {
      hide F.ReconcileFill;
      var report := F.ExecutionReported(out.orderId, fills, out.status, out.uncertainty);
      if fills == [] { return Ok([report]); }
      var more: seq<F.Payload> := [];
      for i := 0 to |fills|
        invariant F.ReconcileFills(old(Value()), eventSeq, side, fills[..i]) == Ok((Value(), more))
      {
        assert fills[..i + 1][..i] == fills[..i];
        var step := ReconcileOne(eventSeq, side, fills[i]);
        if step.Err? {
          FillsStop(old(Value()), eventSeq, side, fills, i + 1);
          return step;
        }
        more := more + step.value;
      }
      assert fills[..|fills|] == fills;
      return Ok([report] + more + [F.PositionChanged(position)]);
    }

    // ------------------------------------------------------------------- handlers

    method HandleSubmit(request: NewOrder, quote: Option<TopOfBook>) returns (r: Events)
      requires Sound(orders)
      modifies this
      ensures Took(F.HandleSubmit(old(Value()), request, quote), Value(), r)
    {
      if request.instrumentId != config.instrumentId { return Err(InstrumentMismatch); }
      if request.submittedAt != (if marketSeq.Some? then marketSeq.value else 0) { return Err(MarketSequenceRegression); }
      var x := Submit(orders, request, position.quantity, quote);
      if x.Err? { return Err(F.OrderCode(x.error)); }
      orders := x.value.0;
      return Ok([F.OrderSubmitted(orders[x.value.1.orderId])]);
    }

    method HandleCancel(id: u64) returns (r: Events)
      modifies this
      ensures Took(F.HandleCancel(old(Value()), id), Value(), r)
    {
      hide Cancel;
      var x := Cancel(orders, id);
      if x.Err? { return Err(F.OrderCode(x.error)); }
      orders := x.value;
      return Ok([F.OrderCancelled(id)]);
    }

    method HandleReplace(id: u64, replacement: ReplaceOrder, quote: Option<TopOfBook>) returns (r: Events)
      requires Sound(orders)
      modifies this
      ensures Took(F.HandleReplace(old(Value()), id, replacement, quote), Value(), r)
    {
      var x := Replace(orders, id, replacement, position.quantity, quote);
      if x.Err? { return Err(F.OrderCode(x.error)); }
      orders := x.value.0;
      return Ok([F.OrderReplaced(orders[id])]);
    }

    method HandleF0(id: u64, bar: Bar, c: F0Config, eventSeq: u64, sha: HashFn) returns (r: Events)
      requires Sound(orders)
      modifies this
      ensures Took(F.HandleF0(old(Value()), id, bar, c, eventSeq, sha), Value(), r)
    {
      hide ExecuteBar, F.Reconcile;
      if !config.tier.F0? { return Err(ExecutionTierMismatch); }
      if marketSeq.Some? && bar.eventSeq < marketSeq.value { return Err(MarketSequenceRegression); }
      marketSeq := Some(bar.eventSeq);
      if id >= |orders| { return Err(UnknownOrderCode); }
      var side := orders[id].side;
      var x := ExecuteBar(orders, id, bar, c, sha);
      if x.Err? { return Err(F0Execution); }
      orders := x.value.0;
      r := ReconcileExecution(eventSeq, side, F.FillsOf(x.value.1, config.rules.f0FeeRole), x.value.1);
    }

    method HandleF1Quote(id: u64, q: BboQuote, c: F1Config, eventSeq: u64, logicalTs: i64) returns (r: Events)
      requires Sound(orders)
      modifies this
      ensures Took(F.HandleF1Quote(old(Value()), id, q, c, eventSeq, logicalTs), Value(), r)
    {
      hide ExecuteOnQuote, F.Reconcile;
      if !config.tier.F1? { return Err(ExecutionTierMismatch); }
      if marketSeq.Some? && q.eventSeq < marketSeq.value { return Err(MarketSequenceRegression); }
      marketSeq := Some(q.eventSeq);
      if id >= |orders| { return Err(UnknownOrderCode); }
      var side := orders[id].side;
      var x := ExecuteOnQuote(orders, id, q, logicalTs, c);
      if x.Err? { return Err(F.F1Code(x.error)); }
      orders := x.value.0;
      var out := x.value.1;
      r := ReconcileExecution(eventSeq, side, if out.role.Some? then F.FillsOf(out, out.role.value) else [], out);
    }

    method HandleF1Trade(id: u64, t: TradePrint, eligibleAfter: u64, ahead: u64, c: F1Config, eventSeq: u64, logicalTs: i64)
      returns (r: Events)
      requires Sound(orders)
      modifies this
      ensures Took(F.HandleF1Trade(old(Value()), id, t, eligibleAfter, ahead, c, eventSeq, logicalTs), Value(), r)
    {
      hide ExecuteRestingOnTrade, F.Reconcile;
      if !config.tier.F1? { return Err(ExecutionTierMismatch); }
      if marketSeq.Some? && t.eventSeq < marketSeq.value { return Err(MarketSequenceRegression); }
      marketSeq := Some(t.eventSeq);
      if id >= |orders| { return Err(UnknownOrderCode); }
      var order := orders[id];
      if !order.timeInForce.Gtc? || !order.kind.Limit? { return Err(UnsupportedOrderCombination); }
      var x := ExecuteRestingOnTrade(orders, id, t, logicalTs, eligibleAfter, ahead, c);
      if x.Err? { return Err(F.F1Code(x.error)); }
      orders := x.value.0;
      r := ReconcileExecution(eventSeq, order.side, F.FillsOf(x.value.1, Maker), x.value.1);
    }

    method HandleLeverage(leverage: int, equity: i64, mark: i64) returns (r: Events)
      modifies this
      ensures Took(F.HandleLeverage(old(Value()), leverage, equity, mark), Value(), r)
    {
      hide ChangeLeverage;
      if !(1 <= leverage <= 50) { return Err(RiskTransition); }
      var x := ChangeLeverage(risk, leverage, equity, position, config.instrumentId, orders, mark, config.rules.riskProfile);
      if x.Err? { return Err(RiskTransition); }
      risk := x.value.0;
      return Ok([F.LeverageChanged(leverage, x.value.1)]);
    }

    method HandleRisk(equity: i64, mark: i64) returns (r: Events)
      modifies this
      ensures Took(F.HandleRisk(old(Value()), equity, mark), Value(), r)
    {
      hide Margin;
      var m := Margin(equity, position, config.instrumentId, orders, mark, risk.leverage, config.rules.riskProfile);
      if m.Err? { return Err(RiskTransition); }
      var evaluated := EvaluateLiquidation(risk, position, m.value);
      risk := evaluated.0;
      return Ok([F.RiskEvaluated(m.value, risk.liquidation, evaluated.1)]);
    }

    method HandleFunding(id: ScheduledId, delta: i64, eventSeq: u64) returns (r: Events)
      modifies this
      ensures Took(F.HandleFunding(old(Value()), id, delta, eventSeq), Value(), r)
    {
      hide PostFunding;
      var x := PostFunding(posted, ledger, id, eventSeq, delta);
      if x.Err? { return Err(EconomicsTransition); }
      posted, ledger := x.value.0, x.value.1;
      return Ok([F.FundingProcessed(x.value.2, delta)]);
    }

    method Dispatch(x: FacadeInput, eventSeq: u64, logicalTs: i64, sha: HashFn) returns (r: Events)
      requires Sound(orders) && !config.tier.F2?
      modifies this
      ensures Took(F.Dispatch(old(Value()), x, eventSeq, logicalTs, sha), Value(), r)
    {
      hide F.HandleSubmit, F.HandleCancel, F.HandleReplace, F.HandleF0, F.HandleF1Quote, F.HandleF1Trade,
           F.HandleLeverage, F.HandleRisk, F.HandleFunding;
      match x
      case SubmitInput(request, q) => r := HandleSubmit(request, q);
      case CancelInput(id) => r := HandleCancel(id);
      case ReplaceInput(id, replacement, q) => r := HandleReplace(id, replacement, q);
      case F0Input(id, b, c) => r := HandleF0(id, b, c, eventSeq, sha);
      case F1QuoteInput(id, q, c) => r := HandleF1Quote(id, q, c, eventSeq, logicalTs);
      case F1TradeInput(id, t, e, d, c) => r := HandleF1Trade(id, t, e, d, c, eventSeq, logicalTs);
      case F2SnapshotInput(_) => r := Err(ExecutionTierMismatch);
      case F2DeltaInput(_) => r := Err(ExecutionTierMismatch);
      case F2ExecuteInput(_, _) => r := Err(ExecutionTierMismatch);
      case LeverageInput(l, e, m) => r := HandleLeverage(l, e, m);
      case RiskInput(e, m) => r := HandleRisk(e, m);
      case FundingInput(id, d) => r := HandleFunding(id, d, eventSeq);
    }

    // ---------------------------------------------------------------------- apply

    /** Clone, apply to the clone, and commit it only when everything succeeded. */
    method Apply(input: InputEnvelope, sha: HashFn) returns (answer: F.Answer)
      requires Sound(orders) && !config.tier.F2?
      modifies this
      ensures (Value(), answer) == F.Apply(old(Value()), input, sha)
      ensures answer.Err? ==> Value() == old(Value())
    {
      hide F.Dispatch, Decode, KernelApply;
      if input.sessionId != config.sessionId { return Err(SessionMismatch); }
      if lastTs.Some? && input.logicalTs < lastTs.value { return Err(LogicalTimeRegression); }
      var command := Decode(input.kind, input.payload);
      if command.Err? { return Err(command.error); }
      var next := new SimulatorFacade.Clone(Value());
      var stepped := KernelApply(next.kernel, input, sha);
      if stepped.Err? { return Err(KernelTransition); }
      next.kernel := stepped.value.0;
      var cause := stepped.value.1;
      var events := next.Dispatch(command.value, cause.eventSeq, input.logicalTs, sha);
      if events.Err? { return Err(events.error); }
      next.lastTs := Some(input.logicalTs);
      kernel, lastTs, marketSeq := next.kernel, next.lastTs, next.marketSeq;
      orders, position, ledger, posted, risk := next.orders, next.position, next.ledger, next.posted, next.risk;
      return Ok(F.Numbered(cause, events.value));
    }
  }
}
