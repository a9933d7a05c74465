/** F0 execution on completed bars and F1 execution on visible quotes and later prints. */
module Execution {
  import opened Common
  import opened Numeric
  import opened Bytes
  import opened Canonical
  import opened Orders
  import opened OrderInvariants
  import opened FacadeTypes
  import opened Kernel

  datatype Flag = IntrabarAmbiguous | MakerQueueApproximation
  datatype Role = Maker | Taker

  /** Result of offering one market event to one order. */
  datatype Outcome = Outcome(
    orderId: u64, filled: u64, fillPrice: Option<i64>, role: Option<Role>, triggered: bool,
    status: OrderStatus, uncertainty: seq<Flag>)

  datatype ExecError =
    | InvalidBar | PriceArithmetic | InvalidQuote | InvalidTrade | FutureMarketData
    | StaleQuote | StaleTrade | ExecOrder(error: OrderError)

  type Executed = Result<(OrderState, Outcome), ExecError>

  function LiftOrder<T>(r: Result<T, OrderError>): Result<T, ExecError> {
    match r case Ok(v) => Ok(v) case Err(e) => Err(ExecOrder(e))
  }

  function NoFill(o: Order, triggered: bool, flags: seq<Flag>): Outcome {
    Outcome(o.id, 0, None, None, triggered, o.status, flags)
  }

  // ------------------------------------------------------------------------- F0

  predicate ValidBar(b: Bar) {
    b.open > 0 && b.high > 0 && b.low > 0 && b.close > 0
    && b.low <= b.open && b.low <= b.close && b.high >= b.open && b.high >= b.close && b.low <= b.high
  }

  predicate StopTouched(side: Side, stop: int, b: Bar) {
    if side.Buy? then b.high >= stop else b.low <= stop
  }

  predicate LimitTouched(side: Side, limit: int, b: Bar) {
    if side.Buy? then b.low <= limit else b.high >= limit
  }

  function LimitFillPrice(side: Side, limit: i64, open: i64): i64 {
    if side.Buy? then Min(open, limit) else Max(open, limit)
  }

  predicate GapTriggered(side: Side, stop: int, b: Bar) {
    if side.Buy? then b.open >= stop else b.open <= stop
  }

  function StopMarketBase(side: Side, stop: i64, b: Bar): i64 {
    if GapTriggered(side, stop, b) then b.open else stop
  }

  function AdverseSlippage(price: i64, side: Side, atoms: u64): Result<i64, ExecError> {
    var value: int := if side.Buy? then price + atoms else price - atoms;
    if atoms > I64_MAX || !IsI64(value) || value <= 0 then Err(PriceArithmetic) else Ok(value)
  }

  predicate SameBarAmbiguous(side: Side, k: OrderKind, b: Bar) {
    k.StopLimit? && !GapTriggered(side, k.stopPrice, b)
    && (if side.Buy? then k.limitPrice < k.stopPrice && b.low <= k.limitPrice && b.high >= k.stopPrice
        else k.limitPrice > k.stopPrice && b.high >= k.limitPrice && b.low <= k.stopPrice)
  }

  const INTRABAR_TAG: Bytes := Label("trl:f0:intrabar:v1")

  predicate FavorableChoice(policy: IntrabarPolicy, eventSeq: u64, id: u64, sha: HashFn) {
    match policy
    case Pessimistic => false
    case Optimistic => true
    case Seeded(seed) =>
      sha(INTRABAR_TAG + PutU64(seed, PutU64(eventSeq, PutU64(id, []))))[0] % 2 == 1
  }

  /** How a triggered stop arrived: its original kind and, for a stop-market, its price. */
  datatype Trigger = Trigger(original: OrderKind, marketPrice: Option<i64>)

  datatype Decision = Decision(fill: bool, price: i64, flags: seq<Flag>)

  function DecideF0(o: Order, b: Bar, c: F0Config, trig: Option<Trigger>, sha: HashFn): Result<Decision, ExecError> {
    match o.kind
    case Market =>
      var price :- if trig.Some? && trig.value.marketPrice.Some? then Ok(trig.value.marketPrice.value)
                   else AdverseSlippage(b.open, o.side, c.marketSlippage);
      Ok(Decision(true, price, []))
    case Limit(l) =>
      if !LimitTouched(o.side, l, b) then Ok(Decision(false, l, []))
      else if trig.Some? && SameBarAmbiguous(o.side, trig.value.original, b) then
        Ok(Decision(FavorableChoice(c.policy, b.eventSeq, o.id, sha), LimitFillPrice(o.side, l, b.open),
                    [IntrabarAmbiguous]))
      else Ok(Decision(true, LimitFillPrice(o.side, l, b.open), []))
    case _ => Err(ExecOrder(InvalidState))
  }

  /** Fills available quantity by the order's time in force; says how much was taken. */
  function TakeAvailable(os: OrderState, id: nat, available: u64): Result<(OrderState, u64), OrderError>
    requires Sound(os) && id < |os|
  {
    var o := os[id];
    if o.timeInForce.Gtc? then
      var filled := Min(available, Remaining(o));
      if filled == 0 then Ok((os, 0))
      else
        var next :- RecordFill(os, id, filled);
        Ok((next, filled))
    else ExecuteImmediate(os, id, available)
  }

  function FillActiveF0(os: OrderState, id: nat, b: Bar, c: F0Config, trig: Option<Trigger>, sha: HashFn): Executed
    requires Sound(os) && id < |os|
  {
    var o := os[id];
    if !Executable(o) then Ok((os, NoFill(o, trig.Some?, [])))
    else
      var d :- DecideF0(o, b, c, trig, sha);
      if !d.fill then Ok((os, NoFill(o, trig.Some?, d.flags)))
      else
        var (next, filled) :- LiftOrder<(OrderState, u64)>(TakeAvailable(os, id, Remaining(o)));
        Ok((next, Outcome(id, filled, if filled > 0 then Some(d.price) else None, None,
                          trig.Some?, next[id].status, d.flags)))
  }

  function ExecuteBar(os: OrderState, id: u64, b: Bar, c: F0Config, sha: HashFn): Executed
    requires Sound(os)
  {
    if !ValidBar(b) then Err(InvalidBar)
    else if id >= |os| then Err(ExecOrder(UnknownOrder))
    else
      var o := os[id];
      if Terminal(o.status) || b.eventSeq <= o.submittedAt then Ok((os, NoFill(o, false, [])))
      else if !o.status.Dormant? then FillActiveF0(os, id, b, c, None, sha)
      else if !IsStop(o.kind) then Err(ExecOrder(InvalidState))
      else if !StopTouched(o.side, o.kind.stopPrice, b) then Ok((os, NoFill(o, false, [])))
      else
        var price :- if o.kind.StopMarket? then
                       var p :- AdverseSlippage(StopMarketBase(o.side, o.kind.stopPrice, b), o.side, c.marketSlippage);
                       Ok(Some(p))
                     else Ok(None);
        var (next, trigger) :- LiftOrder<(OrderState, TriggerOutcome)>(TriggerStop(os, id, o.kind.stopPrice, None));
        if trigger.TriggerRejected? then Ok((next, NoFill(next[id], true, [])))
        else FillActiveF0(next, id, b, c, Some(Trigger(o.kind, price)), sha)
  }

  // ------------------------------------------------------------------------- F1

  function CheckAge(eventTime: i64, logicalTime: i64, maxAge: u64, stale: ExecError): Option<ExecError> {
    if eventTime > logicalTime then Some(FutureMarketData)
    else if logicalTime - eventTime > maxAge then Some(stale)
    else None
  }

  function Cap(quantity: u64, cap: Option<u64>): u64 {
    if cap.Some? then Min(quantity, cap.value) else quantity
  }

  function FillActiveF1(os: OrderState, id: nat, q: BboQuote, c: F1Config, triggered: bool): Executed
    requires Sound(os) && id < |os|
  {
    var o := os[id];
    if !Executable(o) then Ok((os, NoFill(o, triggered, [])))
    else if IsStop(o.kind) then Err(ExecOrder(InvalidState))
    else
      var crosses := o.kind.Market?
                     || (if o.side.Buy? then o.kind.limitPrice >= q.ask else o.kind.limitPrice <= q.bid);
      if !crosses then
        if o.timeInForce.Gtc? then Ok((os, NoFill(o, triggered, [])))
        else
          var (next, filled) :- LiftOrder<(OrderState, u64)>(ExecuteImmediate(os, id, 0));
          Ok((next, Outcome(id, filled, None, None, triggered, next[id].status, [])))
      else
        var (price, displayed) := if o.side.Buy? then (q.ask, q.askSize) else (q.bid, q.bidSize);
        var (next, filled) :- LiftOrder<(OrderState, u64)>(TakeAvailable(os, id, Cap(displayed, c.maxTakerFill)));
        Ok((next, Outcome(id, filled, if filled > 0 then Some(price) else None,
                          if filled > 0 then Some(Taker) else None, triggered, next[id].status, [])))
  }

  /** The facade passes the quote's own sequence as the visible frontier, so only its age is checked. */
  function ExecuteOnQuote(os: OrderState, id: u64, q: BboQuote, logicalTime: i64, c: F1Config): Executed
    requires Sound(os)
  {
    var top := MakeTopOfBook(q.bid, q.ask);
    if top.Err? then Err(ExecError.InvalidQuote)
    else
      var aged := CheckAge(q.eventTime, logicalTime, c.maxQuoteAge, StaleQuote);
      if aged.Some? then Err(aged.value)
      else if id >= |os| then Err(ExecOrder(UnknownOrder))
      else
        var o := os[id];
        if Terminal(o.status) then Ok((os, NoFill(o, false, [])))
        else if !o.status.Dormant? then FillActiveF1(os, id, q, c, false)
        else if q.eventSeq <= o.submittedAt then Ok((os, NoFill(o, false, [])))
        else
          var (next, trigger) :- LiftOrder<(OrderState, TriggerOutcome)>(TriggerStop(os, id, if o.side.Buy? then q.ask else q.bid, Some(top.value)));
          if trigger.NotTriggered? then Ok((os, NoFill(o, false, [])))
          else if trigger.TriggerRejected? then Ok((next, NoFill(next[id], true, [])))
          else FillActiveF1(next, id, q, c, true)
  }

  /** A print consumes the displayed quantity ahead before it reaches the player. */
  function QueueFill(remaining: int, printed: u64, ahead: u64): int {
    Min(Max(0, printed - ahead), remaining)
  }

  function ExecuteRestingOnTrade(os: OrderState, id: u64, t: TradePrint, logicalTime: i64, eligibleAfter: u64,
                                 ahead: u64, c: F1Config): Executed
    requires Sound(os)
  {
    if t.price <= 0 || t.quantity == 0 then Err(InvalidTrade)
    else
      var aged := CheckAge(t.eventTime, logicalTime, c.maxTradeAge, StaleTrade);
      if aged.Some? then Err(aged.value)
      else if id >= |os| then Err(ExecOrder(UnknownOrder))
      else
        var o := os[id];
        if !Executable(o) then Ok((os, NoFill(o, false, [])))
        else if !o.timeInForce.Gtc? then Err(ExecOrder(ImmediateOrderRequiresAtomicExecution))
        else if t.eventSeq <= Max(o.submittedAt, eligibleAfter) then Ok((os, NoFill(o, false, [])))
        else if IsStop(o.kind) then Err(ExecOrder(InvalidState))
        else if o.kind.Market? then Ok((os, NoFill(o, false, [])))
        else if !(if o.side.Buy? then t.price <= o.kind.limitPrice else t.price >= o.kind.limitPrice)
          then Ok((os, NoFill(o, false, [])))
        else
          var available := Cap(QueueFill(Remaining(o), t.quantity, ahead), c.maxMakerFill);
          if available == 0 then Ok((os, NoFill(o, false, [MakerQueueApproximation])))
          else
            var next :- LiftOrder(RecordFill(os, id, available));
            Ok((next, Outcome(id, available, Some(o.kind.limitPrice), Some(Maker), false,
                              next[id].status, [MakerQueueApproximation])))
  }

  // ---------------------------------------------------------------------- effect

  /** One order, and only its kind, status and fill count, may have changed; the fill count
      grew by exactly the reported quantity, which has a price; a closed order is left alone. */
  ghost predicate Effect(os: OrderState, id: nat, next: OrderState, out: Outcome) {
    && id < |os| == |next|
    && (forall j :: 0 <= j < |os| && j != id ==> next[j] == os[j])
    && next[id] == os[id].(kind := next[id].kind, status := next[id].status, filled := next[id].filled)
    && next[id].filled == os[id].filled + out.filled
    && (out.filled > 0 ==> out.fillPrice.Some?)
    && (Terminal(os[id].status) ==> next[id] == os[id])
    && Lifecycle(next)
  }

  /** What an order's time in force lets it take of the size on offer. */
  function Taken(o: Order, available: int): int {
    if o.timeInForce.Fok? && available < Remaining(o) then 0 else Min(available, Remaining(o))
  }

  lemma TakeEffect(os: OrderState, id: nat, available: u64)
    requires Lifecycle(os) && id < |os| && TakeAvailable(os, id, available).Ok?
    ensures var (next, filled) := TakeAvailable(os, id, available).value;
            && |next| == |os| && (forall j :: 0 <= j < |os| && j != id ==> next[j] == os[j])
            && next[id] == os[id].(status := next[id].status, filled := next[id].filled)
            && next[id].filled == os[id].filled + filled && filled == Taken(os[id], available) && Lifecycle(next)
  {
    hide Consistent, Disciplined, ValidateKind;
    if os[id].timeInForce.Gtc? {
      if Min(available, Remaining(os[id])) > 0 {
        StepKeepsLifecycle(os, OpFill(id, Min(available, Remaining(os[id]))), 0);
      }
    } else {
      ImmediateKeeps(os, id, available);
    }
  }

  lemma BarEffect(os: OrderState, id: u64, b: Bar, c: F0Config, sha: HashFn)
    requires Lifecycle(os) && ExecuteBar(os, id, b, c, sha).Ok?
    ensures var (next, out) := ExecuteBar(os, id, b, c, sha).value; Effect(os, id, next, out)
  {
    hide FillActiveF0, Consistent, Disciplined;
    var o := os[id];
    if Terminal(o.status) || b.eventSeq <= o.submittedAt {
    } else if !o.status.Dormant? {
      FillF0Effect(os, id, b, c, None, sha);
    } else if StopTouched(o.side, o.kind.stopPrice, b) {
      TriggerKeeps(os, id, o.kind.stopPrice, None);
      var (mid, trigger) := TriggerStop(os, id, o.kind.stopPrice, None).value;
      if !trigger.TriggerRejected? {
        var price := if o.kind.StopMarket?
                     then Some(AdverseSlippage(StopMarketBase(o.side, o.kind.stopPrice, b), o.side, c.marketSlippage).value)
                     else None;
        FillF0Effect(mid, id, b, c, Some(Trigger(o.kind, price)), sha);
      }
    }
  }

  lemma FillF0Effect(os: OrderState, id: nat, b: Bar, c: F0Config, trig: Option<Trigger>, sha: HashFn)
    requires Lifecycle(os) && id < |os| && FillActiveF0(os, id, b, c, trig, sha).Ok?
    ensures var (next, out) := FillActiveF0(os, id, b, c, trig, sha).value; Effect(os, id, next, out)
  {
    var o := os[id];
    if Executable(o) && TakeAvailable(os, id, Remaining(o)).Ok? { TakeEffect(os, id, Remaining(o)); }
  }

  lemma FillF1Effect(os: OrderState, id: nat, q: BboQuote, c: F1Config, triggered: bool)
    requires Lifecycle(os) && id < |os| && FillActiveF1(os, id, q, c, triggered).Ok?
    ensures var (next, out) := FillActiveF1(os, id, q, c, triggered).value; Effect(os, id, next, out)
  {
    hide TakeAvailable, Consistent, Disciplined;
    var o := os[id];
    if Executable(o) {
      ImmediateKeeps(os, id, 0);
      var available := Cap(if o.side.Buy? then q.askSize else q.bidSize, c.maxTakerFill);
      if TakeAvailable(os, id, available).Ok? { TakeEffect(os, id, available); }
    }
  }

  lemma QuoteEffect(os: OrderState, id: u64, q: BboQuote, logicalTime: i64, c: F1Config)
    requires Lifecycle(os) && ExecuteOnQuote(os, id, q, logicalTime, c).Ok?
    ensures var (next, out) := ExecuteOnQuote(os, id, q, logicalTime, c).value; Effect(os, id, next, out)
  {
    var o := os[id];
    if Terminal(o.status) {
    } else if !o.status.Dormant? {
      FillF1Effect(os, id, q, c, false);
    } else if q.eventSeq > o.submittedAt {
      var price := if o.side.Buy? then q.ask else q.bid;
      var top := Some(MakeTopOfBook(q.bid, q.ask).value);
      TriggerKeeps(os, id, price, top);
      var (mid, trigger) := TriggerStop(os, id, price, top).value;
      if trigger.Activated? { FillF1Effect(mid, id, q, c, true); }
    }
  }

  lemma TradeEffect(os: OrderState, id: u64, t: TradePrint, logicalTime: i64, eligibleAfter: u64, ahead: u64, c: F1Config)
    requires Lifecycle(os) && ExecuteRestingOnTrade(os, id, t, logicalTime, eligibleAfter, ahead, c).Ok?
    ensures var (next, out) := ExecuteRestingOnTrade(os, id, t, logicalTime, eligibleAfter, ahead, c).value;
            Effect(os, id, next, out)
  {
    var o := os[id];
    var available := Cap(QueueFill(Remaining(o), t.quantity, ahead), c.maxMakerFill);
    StepKeepsLifecycle(os, OpFill(id, available), 0);
  }
}
