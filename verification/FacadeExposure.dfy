/** Reduce-only orders on the facade, where the position moves under them. */
module FacadeExposure {
  import opened Common
  import opened Numeric
  import opened Bytes
  import opened Orders
  import opened OrderInvariants
  import opened FacadeTypes
  import opened Codec
  import opened Kernel
  import opened Positions
  import opened Execution
  import opened Risk
  import opened Ledger
  import opened Facade
  import opened FacadeAccounting

  // ---------------------------------------------------------------- the fill to come

  datatype OrderFill = OrderFill(id: nat, quantity: u64)

  function FillIn(id: u64, x: Executed): Option<OrderFill> {
    if x.Ok? then Some(OrderFill(id, x.value.1.filled)) else None
  }

  /** The order an input offers a market event to and the quantity it will take, from the
      orders and the event alone: the position has no part in it. */
  function Planned(os: OrderState, x: FacadeInput, ts: i64, sha: HashFn): Option<OrderFill>
    requires Sound(os)
  {
    match x
    case F0Input(id, b, c) => FillIn(id, ExecuteBar(os, id, b, c, sha))
    case F1QuoteInput(id, q, c) => FillIn(id, ExecuteOnQuote(os, id, q, ts, c))
    case F1TradeInput(id, t, e, d, c) => FillIn(id, ExecuteRestingOnTrade(os, id, t, ts, e, d, c))
    case _ => None
  }

  /** The size a market event offers to one order. */
  function Offered(o: Order, x: FacadeInput): int {
    match x
    case F1QuoteInput(_, q, c) => Cap(if o.side.Buy? then q.askSize else q.bidSize, c.maxTakerFill)
    case F1TradeInput(_, t, _, ahead, c) =>
      var queue := QueueFill(Remaining(o), t.quantity, ahead);
      if c.maxMakerFill.Some? then Min(queue, c.maxMakerFill.value) else queue
    case _ => Remaining(o)
  }

  lemma QuoteTakes(os: OrderState, id: u64, q: BboQuote, ts: i64, c: F1Config)
    requires Lifecycle(os) && ExecuteOnQuote(os, id, q, ts, c).Ok?
    ensures var f := ExecuteOnQuote(os, id, q, ts, c).value.1.filled;
            f == 0 || f == Taken(os[id], Offered(os[id], F1QuoteInput(id, q, c)))
  {
    hide TakeAvailable, Consistent, Disciplined;
    var o := os[id];
    if Terminal(o.status) {
    } else if !o.status.Dormant? {
      QuoteFillTakes(os, id, q, c, false);
    } else if q.eventSeq > o.submittedAt {
      var price := if o.side.Buy? then q.ask else q.bid;
      var top := Some(MakeTopOfBook(q.bid, q.ask).value);
      TriggerKeeps(os, id, price, top);
      var (mid, trigger) := TriggerStop(os, id, price, top).value;
      if trigger.Activated? { QuoteFillTakes(mid, id, q, c, true); }
    }
  }

  lemma QuoteFillTakes(os: OrderState, id: nat, q: BboQuote, c: F1Config, triggered: bool)
    requires Lifecycle(os) && id < |os| && id <= U64_MAX && FillActiveF1(os, id, q, c, triggered).Ok?
    ensures var f := FillActiveF1(os, id, q, c, triggered).value.1.filled;
            f == 0 || f == Taken(os[id], Offered(os[id], F1QuoteInput(id, q, c)))
  {
    hide TakeAvailable, Consistent, Disciplined;
    var o := os[id];
    var available := Cap(if o.side.Buy? then q.askSize else q.bidSize, c.maxTakerFill);
    if TakeAvailable(os, id, available).Ok? { TakeEffect(os, id, available); }
  }

  lemma BarTakes(os: OrderState, id: u64, b: Bar, c: F0Config, sha: HashFn)
    requires Lifecycle(os) && ExecuteBar(os, id, b, c, sha).Ok?
    ensures var f := ExecuteBar(os, id, b, c, sha).value.1.filled; f == 0 || f == Remaining(os[id])
  {
    hide FillActiveF0, Consistent, Disciplined;
    var o := os[id];
    if Terminal(o.status) || b.eventSeq <= o.submittedAt {
    } else if !o.status.Dormant? {
      BarFillTakes(os, id, b, c, None, sha);
    } else if StopTouched(o.side, o.kind.stopPrice, b) {
      TriggerKeeps(os, id, o.kind.stopPrice, None);
      var (mid, trigger) := TriggerStop(os, id, o.kind.stopPrice, None).value;
      if !trigger.TriggerRejected? {
        var price := if o.kind.StopMarket?
                     then Some(AdverseSlippage(StopMarketBase(o.side, o.kind.stopPrice, b), o.side, c.marketSlippage).value)
                     else None;
        BarFillTakes(mid, id, b, c, Some(Trigger(o.kind, price)), sha);
      }
    }
  }

  lemma BarFillTakes(os: OrderState, id: nat, b: Bar, c: F0Config, trig: Option<Trigger>, sha: HashFn)
    requires Lifecycle(os) && id < |os| && FillActiveF0(os, id, b, c, trig, sha).Ok?
    ensures var f := FillActiveF0(os, id, b, c, trig, sha).value.1.filled; f == 0 || f == Remaining(os[id])
  {
    hide TakeAvailable, DecideF0, Consistent, Disciplined;
    var o := os[id];
    if Executable(o) && TakeAvailable(os, id, Remaining(o)).Ok? { TakeEffect(os, id, Remaining(o)); }
  }

  /** An event that fills an order at all fills it by what its time in force lets it take of
      the size on offer. */
  lemma PlannedIsTaken(os: OrderState, x: FacadeInput, ts: i64, sha: HashFn)
    requires Lifecycle(os)
    ensures var p := Planned(os, x, ts, sha);
            p.Some? ==>
              && p.value.id < |os|
              && (p.value.quantity == 0
                  || p.value.quantity == Taken(os[p.value.id], Offered(os[p.value.id], x)))
  {
    hide ExecuteBar, ExecuteOnQuote, Consistent, Disciplined;
    if Planned(os, x, ts, sha).Some? {
      match x {
        case F0Input(id, b, c) =>
          BarEffect(os, id, b, c, sha);
          BarTakes(os, id, b, c, sha);
        case F1QuoteInput(id, q, c) =>
          QuoteEffect(os, id, q, ts, c);
          QuoteTakes(os, id, q, ts, c);
        case F1TradeInput(id, t, e, d, c) =>
          TradeEffect(os, id, t, ts, e, d, c);
      }
    }
  }

  // ------------------------------------------------------------- one handled input

  /** One order took a quantity; no other order changed, and a closed order takes nothing. */
  ghost predicate Took(os: OrderState, f: OrderFill, next: OrderState) {
    && f.id < |os| == |next| && next == os[f.id := next[f.id]]
    && var (o, n) := (os[f.id], next[f.id]);
       && n == o.(kind := n.kind, status := n.status, filled := n.filled)
       && n.filled == o.filled + f.quantity <= o.quantity
       && (Terminal(o.status) ==> n == o)
  }

  lemma EffectTakes(os: OrderState, id: nat, next: OrderState, out: Outcome)
    requires Effect(os, id, next, out)
    ensures Took(os, OrderFill(id, out.filled), next)
  {
    hide Consistent, Disciplined;
  }

  lemma ReconcileSettles(s: FacadeState, id: nat, next: OrderState, out: Outcome, role: Role, fs: seq<ExecutionFill>,
                         eventSeq: u64)
    requires Sane(s) && Effect(s.orders, id, next, out)
    requires fs == FillsOf(out, role) || (fs == [] && out.filled == 0)
    requires Reconcile(s.(orders := next), eventSeq, s.orders[id].side, fs, out).Ok?
    ensures var t := Reconcile(s.(orders := next), eventSeq, s.orders[id].side, fs, out).value.0;
            && t.orders == next
            && t.position.quantity == s.position.quantity + SignedOf(s.orders[id].side, out.filled)
  {
    hide Lifecycle, ReconcileFill;
    FillsMove(s.(orders := next), eventSeq, s.orders[id].side, fs);
    if fs != [] {
      SumAppend([], FillQty, fs[0]);
      assert [] + [fs[0]] == fs;
    }
  }

  /** What the handlers make of a planned fill: the order records it and the position moves by it. */
  ghost predicate Settles(s: FacadeState, f: Option<OrderFill>, t: FacadeState) {
    match f
    case None => t.position.quantity == s.position.quantity
    case Some(f) =>
      && Took(s.orders, f, t.orders)
      && t.position.quantity == s.position.quantity + SignedOf(s.orders[f.id].side, f.quantity)
  }

  lemma F0Settles(s: FacadeState, id: u64, b: Bar, c: F0Config, eventSeq: u64, ts: i64, sha: HashFn)
    requires Sane(s) && HandleF0(s, id, b, c, eventSeq, sha).Ok?
    ensures Planned(s.orders, F0Input(id, b, c), ts, sha).Some?
    ensures Settles(s, Planned(s.orders, F0Input(id, b, c), ts, sha), HandleF0(s, id, b, c, eventSeq, sha).value.0)
  {
    hide ExecuteBar, Reconcile, Took, Effect, Consistent, Disciplined;
    BarEffect(s.orders, id, b, c, sha);
    var (next, out) := ExecuteBar(s.orders, id, b, c, sha).value;
    EffectTakes(s.orders, id, next, out);
    var role := s.config.rules.f0FeeRole;
    ReconcileSettles(ObserveMarket(s, b.eventSeq).value, id, next, out, role, FillsOf(out, role), eventSeq);
  }

  lemma QuoteSettles(s: FacadeState, id: u64, q: BboQuote, c: F1Config, eventSeq: u64, ts: i64, sha: HashFn)
    requires Sane(s) && HandleF1Quote(s, id, q, c, eventSeq, ts).Ok?
    ensures Planned(s.orders, F1QuoteInput(id, q, c), ts, sha).Some?
    ensures Settles(s, Planned(s.orders, F1QuoteInput(id, q, c), ts, sha),
                    HandleF1Quote(s, id, q, c, eventSeq, ts).value.0)
  {
    hide ExecuteOnQuote, Reconcile, Took, Effect, Consistent, Disciplined;
    QuoteEffect(s.orders, id, q, ts, c);
    QuoteFillsHaveRole(s.orders, id, q, ts, c);
    var (next, out) := ExecuteOnQuote(s.orders, id, q, ts, c).value;
    EffectTakes(s.orders, id, next, out);
    var role := if out.role.Some? then out.role.value else Taker;
    ReconcileSettles(ObserveMarket(s, q.eventSeq).value, id, next, out, role,
                     if out.role.Some? then FillsOf(out, role) else [], eventSeq);
  }

  lemma TradeSettles(s: FacadeState, id: u64, t: TradePrint, e: u64, d: u64, c: F1Config, eventSeq: u64, ts: i64,
                     sha: HashFn)
    requires Sane(s) && HandleF1Trade(s, id, t, e, d, c, eventSeq, ts).Ok?
    ensures Planned(s.orders, F1TradeInput(id, t, e, d, c), ts, sha).Some?
    ensures Settles(s, Planned(s.orders, F1TradeInput(id, t, e, d, c), ts, sha),
                    HandleF1Trade(s, id, t, e, d, c, eventSeq, ts).value.0)
  {
    hide ExecuteRestingOnTrade, Reconcile, Took, Effect, Consistent, Disciplined;
    TradeEffect(s.orders, id, t, ts, e, d, c);
    var (next, out) := ExecuteRestingOnTrade(s.orders, id, t, ts, e, d, c).value;
    EffectTakes(s.orders, id, next, out);
    ReconcileSettles(ObserveMarket(s, t.eventSeq).value, id, next, out, Maker, FillsOf(out, Maker), eventSeq);
  }

  lemma DispatchSettles(s: FacadeState, x: FacadeInput, eventSeq: u64, ts: i64, sha: HashFn)
    requires Sane(s) && Dispatch(s, x, eventSeq, ts, sha).Ok?
    ensures Settles(s, Planned(s.orders, x, ts, sha), Dispatch(s, x, eventSeq, ts, sha).value.0)
    ensures Planned(s.orders, x, ts, sha).Some? <==> x.F0Input? || x.F1QuoteInput? || x.F1TradeInput?
  {
    hide HandleF0, HandleF1Quote, HandleF1Trade, ExecuteBar, ExecuteOnQuote, ExecuteRestingOnTrade, Took, Consistent, Disciplined;
    match x {
      case F0Input(id, b, c) => F0Settles(s, id, b, c, eventSeq, ts, sha);
      case F1QuoteInput(id, q, c) => QuoteSettles(s, id, q, c, eventSeq, ts, sha);
      case F1TradeInput(id, t, e, d, c) => TradeSettles(s, id, t, e, d, c, eventSeq, ts, sha);
      case _ =>
    }
  }

  // --------------------------------------------------------- does a fill only reduce?

  /** The exposure got no larger and did not change sides. */
  predicate OnlyReduced(before: int, after: int) {
    0 <= after <= before || before <= after <= 0
  }

  /** A fill reduces and does no more exactly when its order is on the reducing side and it is
      no larger than the position.  Nothing in the handlers checks this, whether or not the
      order is reduce-only. */
  lemma FillReducesExactly(s: FacadeState, x: FacadeInput, eventSeq: u64, ts: i64, sha: HashFn)
    requires Sane(s) && Dispatch(s, x, eventSeq, ts, sha).Ok?
    requires Planned(s.orders, x, ts, sha).Some? && Planned(s.orders, x, ts, sha).value.quantity > 0
    ensures var f := Planned(s.orders, x, ts, sha).value;
            var held := s.position.quantity;
            && f.id < |s.orders|
            && (OnlyReduced(held, Dispatch(s, x, eventSeq, ts, sha).value.0.position.quantity)
                <==> Reduces(s.orders[f.id].side, held) && f.quantity <= Abs(held))
  {
    hide Dispatch, Planned, Lifecycle;
    DispatchSettles(s, x, eventSeq, ts, sha);
  }

  // ----------------------------------------------------------- covered reservations

  /** Live reduce-only quantity on one side. */
  function Reserved(s: FacadeState, side: Side): int {
    SumOf(s.orders, ReservesOf(s.config.instrumentId, side, None))
  }

  /** Every live reduce-only order can still fill in full without growing or flipping the position. */
  ghost predicate Covered(s: FacadeState) {
    WithinExposure(s.orders, s.position.quantity)
  }

  function Capacity(side: Side, position: int): int {
    if Reduces(side, position) then Abs(position) else 0
  }

  lemma {:induction false} ForeignReservesNothing(os: OrderState, own: Text, other: Text, side: Side)
    requires own != other && forall i :: 0 <= i < |os| ==> os[i].instrumentId == own
    ensures SumOf(os, ReservesOf(other, side, None)) == 0
  {
    if os != [] { ForeignReservesNothing(os[..|os| - 1], own, other, side); }
  }

  lemma CoveredMeans(s: FacadeState)
    requires Sane(s)
    ensures Covered(s) <==> Reserved(s, Buy) <= Capacity(Buy, s.position.quantity)
                            && Reserved(s, Sell) <= Capacity(Sell, s.position.quantity)
  {
    if Reserved(s, Buy) <= Capacity(Buy, s.position.quantity) && Reserved(s, Sell) <= Capacity(Sell, s.position.quantity) {
      forall instrument: Text, side: Side
        ensures SumOf(s.orders, ReservesOf(instrument, side, None)) <= Capacity(side, s.position.quantity)
      {
        assert side == Buy || side == Sell;
        if instrument != s.config.instrumentId {
          ForeignReservesNothing(s.orders, s.config.instrumentId, instrument, side);
        }
      }
    }
  }

  /** A fill of an ordinary order on the reducing side that leaves less position than the live
      reduce-only orders on that side still want to reduce. */
  predicate Undercuts(s: FacadeState, x: FacadeInput, ts: i64, sha: HashFn)
    requires Sound(s.orders)
  {
    match Planned(s.orders, x, ts, sha)
    case None => false
    case Some(f) =>
      && f.id < |s.orders| && f.quantity > 0
      && var o := s.orders[f.id];
         && !o.reduceOnly && Reduces(o.side, s.position.quantity)
         && 0 < Reserved(s, o.side)
         && Abs(s.position.quantity) < Reserved(s, o.side) + f.quantity
  }

  lemma ReservedAfter(s: FacadeState, f: OrderFill, t: FacadeState, side: Side)
    requires Sane(s) && Sane(t) && t.config == s.config && Took(s.orders, f, t.orders)
    ensures var o := s.orders[f.id];
            && 0 <= Reserved(t, side) <= Reserved(s, side)
            && (o.side != side || !o.reduceOnly ==> Reserved(t, side) == Reserved(s, side))
            && (o.side == side && o.reduceOnly ==> f.quantity <= Reserved(s, side) - Reserved(t, side))
  {
    var pick := ReservesOf(s.config.instrumentId, side, None);
    SumUpdate(s.orders, pick, f.id, t.orders[f.id]);
    ReservedIsNonNegative(t.orders, s.config.instrumentId, side, None);
  }

  lemma FillKeepsCover(s: FacadeState, x: FacadeInput, f: OrderFill, t: FacadeState, ts: i64, sha: HashFn)
    requires Sane(s) && Sane(t) && t.config == s.config && Covered(s)
    requires Planned(s.orders, x, ts, sha) == Some(f) && Settles(s, Some(f), t)
    ensures Covered(t) <==> !Undercuts(s, x, ts, sha)
  {
    hide Planned, Lifecycle, Covered, Reserved;
    CoveredMeans(s);
    CoveredMeans(t);
    assert s.orders[f.id].side == Buy || s.orders[f.id].side == Sell;
    ReservedAfter(s, f, t, Buy);
    ReservedAfter(s, f, t, Sell);
  }

  /** From a covered state, a handled input leaves a covered state exactly when it does not undercut:
      accepted orders are capped at the exposure, and a reduce-only fill takes as much from the
      reservation as from the position. */
  lemma DispatchKeepsCover(s: FacadeState, x: FacadeInput, eventSeq: u64, ts: i64, sha: HashFn)
    requires Sane(s) && Covered(s) && Dispatch(s, x, eventSeq, ts, sha).Ok?
    ensures Covered(Dispatch(s, x, eventSeq, ts, sha).value.0) <==> !Undercuts(s, x, ts, sha)
  {
    hide HandleF0, HandleF1Quote, HandleF1Trade, ExecuteBar, ExecuteOnQuote, ExecuteRestingOnTrade, Took, Consistent,
         Disciplined, WithinExposure;
    DispatchConserves(s, x, eventSeq, ts, sha);
    DispatchSettles(s, x, eventSeq, ts, sha);
    var t := Dispatch(s, x, eventSeq, ts, sha).value.0;
    var held := s.position.quantity;
    var fill := Planned(s.orders, x, ts, sha);
    if fill.Some? { FillKeepsCover(s, x, fill.value, t, ts, sha); }
    match x {
      case SubmitInput(r, q) => StepWithinExposure(s.orders, OpSubmit(r, q), held);
      case CancelInput(id) => StepWithinExposure(s.orders, OpCancel(id), held);
      case ReplaceInput(id, r, q) => StepWithinExposure(s.orders, OpReplace(id, r, q), held);
      case _ =>
    }
  }

  // -------------------------------------------------------------------- whole runs

  /** An accepted envelope carries an input that undercuts. */
  ghost predicate UndercutBy(s: FacadeState, e: InputEnvelope, sha: HashFn)
    requires Sane(s)
  {
    Attempt(s, e, sha).Ok? && Undercuts(s, Decode(e.kind, e.payload).value, e.logicalTs, sha)
  }

  lemma ApplyKeepsCover(s: FacadeState, e: InputEnvelope, sha: HashFn)
    requires Sane(s) && Covered(s)
    ensures Covered(Apply(s, e, sha).0) <==> !UndercutBy(s, e, sha)
  {
    hide Dispatch, Decode, KernelApply, Consistent, Disciplined, WithinExposure, Planned;
    if Attempt(s, e, sha).Ok? {
      var x := Decode(e.kind, e.payload).value;
      var (k, event) := KernelApply(s.kernel, e, sha).value;
      DispatchKeepsCover(s.(kernel := k), x, event.eventSeq, e.logicalTs, sha);
    }
  }

  ghost function StateAt(s: FacadeState, es: seq<InputEnvelope>, i: nat, sha: HashFn): (t: FacadeState)
    requires Sane(s) && i <= |es|
    ensures Sane(t)
  {
    RunFacade(s, es[..i], sha).0
  }

  lemma StateAtNext(s: FacadeState, es: seq<InputEnvelope>, i: nat, sha: HashFn)
    requires Sane(s) && i < |es|
    ensures StateAt(s, es, i + 1, sha) == Apply(StateAt(s, es, i, sha), es[i], sha).0
  {
    hide Apply;
    assert es[..i + 1][..i] == es[..i];
  }

  ghost predicate CoveredThrough(s: FacadeState, es: seq<InputEnvelope>, n: nat, sha: HashFn)
    requires Sane(s) && n <= |es|
  {
    forall i :: 0 <= i <= n ==> Covered(StateAt(s, es, i, sha))
  }

  ghost predicate NeverUndercut(s: FacadeState, es: seq<InputEnvelope>, n: nat, sha: HashFn)
    requires Sane(s) && n <= |es|
  {
    forall i :: 0 <= i < n ==> !UndercutBy(StateAt(s, es, i, sha), es[i], sha)
  }

  /** A run is covered throughout exactly when it starts covered and no accepted input undercuts. */
  lemma {:induction false} RunKeepsCover(s: FacadeState, es: seq<InputEnvelope>, n: nat, sha: HashFn)
    requires Sane(s) && n <= |es|
    ensures CoveredThrough(s, es, n, sha) <==> Covered(s) && NeverUndercut(s, es, n, sha)
  {
    hide Covered, UndercutBy, Apply;
    assert StateAt(s, es, 0, sha) == s;
    if n > 0 {
      RunKeepsCover(s, es, n - 1, sha);
      StateAtNext(s, es, n - 1, sha);
      if Covered(StateAt(s, es, n - 1, sha)) { ApplyKeepsCover(StateAt(s, es, n - 1, sha), es[n - 1], sha); }
    }
  }

  /** An accepted envelope fills a reduce-only order. */
  ghost predicate ReduceOnlyFill(s: FacadeState, e: InputEnvelope, sha: HashFn)
    requires Sane(s)
  {
    && Attempt(s, e, sha).Ok?
    && var p := Planned(s.orders, Decode(e.kind, e.payload).value, e.logicalTs, sha);
       p.Some? && p.value.quantity > 0 && p.value.id < |s.orders| && s.orders[p.value.id].reduceOnly
  }

  /** While reservations are covered, a reduce-only fill only reduces. */
  lemma CoveredFillReduces(s: FacadeState, e: InputEnvelope, sha: HashFn)
    requires Sane(s) && Covered(s) && ReduceOnlyFill(s, e, sha)
    ensures OnlyReduced(s.position.quantity, Apply(s, e, sha).0.position.quantity)
  {
    hide Dispatch, Decode, KernelApply, Consistent, Disciplined, WithinExposure, Planned;
    var x := Decode(e.kind, e.payload).value;
    var (k, event) := KernelApply(s.kernel, e, sha).value;
    var mid := s.(kernel := k);
    var f := Planned(s.orders, x, e.logicalTs, sha).value;
    DispatchSettles(mid, x, event.eventSeq, e.logicalTs, sha);
    DispatchConserves(mid, x, event.eventSeq, e.logicalTs, sha);
    var t := Dispatch(mid, x, event.eventSeq, e.logicalTs, sha).value.0;
    ReservedAfter(mid, f, t, s.orders[f.id].side);
    CoveredMeans(s);
  }

  /** As long as no accepted ordinary fill undercuts the live reduce-only orders, no reduce-only
      fill ever grows or flips the position. */
  lemma ReduceOnlyIsSafe(s: FacadeState, es: seq<InputEnvelope>, i: nat, sha: HashFn)
    requires Sane(s) && Covered(s) && i < |es|
    requires NeverUndercut(s, es, i, sha) && ReduceOnlyFill(StateAt(s, es, i, sha), es[i], sha)
    ensures OnlyReduced(StateAt(s, es, i, sha).position.quantity, StateAt(s, es, i + 1, sha).position.quantity)
  {
    hide StateAt, Apply, Covered, UndercutBy, ReduceOnlyFill, NeverUndercut, Consistent, Disciplined;
    RunKeepsCover(s, es, i, sha);
    StateAtNext(s, es, i, sha);
    CoveredFillReduces(StateAt(s, es, i, sha), es[i], sha);
  }

  lemma NewIsCovered(config: FacadeConfig, position: Position, ledger: LedgerSnapshot, leverage: Leverage)
    requires !config.tier.F2? && NewFacade(config, position, ledger, leverage).Ok?
    ensures var s := NewFacade(config, position, ledger, leverage).value; Sane(s) && Covered(s)
  {
  }
}
