/** Accounting invariants over every run of the facade. */
module FacadeAccounting {
  import opened Common
  import opened Numeric
  import opened Orders
  import opened OrderInvariants
  import opened FacadeTypes
  import opened Codec
  import opened Kernel
  import opened Positions
  import opened Execution
  import opened Risk
  import opened Ledger
  import opened Economics
  import opened Facade

  function SignedFilled(o: Order): int {
    SignedOf(o.side, o.filled)
  }

  function Bal(s: FacadeState, a: Account): int {
    Balance(s.ledger.balances, a)
  }

  function FeeIn(p: Payload): int {
    if p.FeePosted? then p.amount else 0
  }

  /** The accounts that no input of these tiers ever posts to. */
  predicate Idle(a: Account) {
    a.PositionCost? || a.Borrow? || a.Dividends? || a.SettlementAccount?
  }

  /** From s to t, emitting ps: ledger movements are exactly the realized P&L, the fees
      reported and the funding posted; the books stay balanced. */
  ghost predicate LedgerMoves(s: FacadeState, t: FacadeState, ps: seq<Payload>) {
    && Total(t.ledger.balances) == Total(s.ledger.balances)
    && Bal(t, RealizedPnl) + t.position.realized == Bal(s, RealizedPnl) + s.position.realized
    && Bal(t, Funding) + TotalPosted(t.posted) == Bal(s, Funding) + TotalPosted(s.posted)
    && Bal(t, Fees) == Bal(s, Fees) + SumOf(ps, FeeIn)
    && (forall a :: Idle(a) ==> Bal(t, a) == Bal(s, a))
  }

  ghost predicate Sane(s: FacadeState) {
    Lifecycle(s.orders) && ValidPosition(s.position) && !s.config.tier.F2?
    && forall i :: 0 <= i < |s.orders| ==> s.orders[i].instrumentId == s.config.instrumentId
  }

  /** One handled command. */
  ghost predicate Conserves(s: FacadeState, t: FacadeState, ps: seq<Payload>) {
    && Sane(t) && t.config == s.config && t.kernel == s.kernel
    && t.position.quantity - s.position.quantity == SumOf(t.orders, SignedFilled) - SumOf(s.orders, SignedFilled)
    && LedgerMoves(s, t, ps)
  }

  // ------------------------------------------------------------------------ fills

  lemma {:induction false} SumConcat(a: seq<Payload>, b: seq<Payload>, f: Payload -> int)
    ensures SumOf(a + b, f) == SumOf(a, f) + SumOf(b, f)
  {
    if b == [] {
      assert a + b == a;
    } else {
      var n := |b| - 1;
      SumConcat(a, b[..n], f);
      assert (a + b)[..|a + b| - 1] == a + b[..n];
    }
  }

  lemma SumOne(p: Payload, f: Payload -> int)
    ensures SumOf([p], f) == f(p)
  {
    SumAppend([], f, p);
    assert [] + [p] == [p];
  }

  lemma {:induction false} LegsPost(l: LedgerState, eventSeq: u64, legs: seq<PositionLeg>)
    requires PostLegs(l, eventSeq, legs).Ok?
    ensures var (after, out) := PostLegs(l, eventSeq, legs).value;
            && Total(after.balances) == Total(l.balances)
            && Balance(after.balances, RealizedPnl) == Balance(l.balances, RealizedPnl) - SumOf(legs, LegPnl)
            && SumOf(out, FeeIn) == 0
            && forall a: Account :: !a.Cash? && !a.RealizedPnl? ==> Balance(after.balances, a) == Balance(l.balances, a)
  {
    if legs != [] {
      var n := |legs| - 1;
      LegsPost(l, eventSeq, legs[..n]);
      var amount := legs[n].realizedDelta;
      var (before, out) := PostLegs(l, eventSeq, legs[..n]).value;
      if amount != 0 {
        CashFlowEffect(before, eventSeq, "REALIZED_PNL", RealizedPnl, amount);
        SumAppend(out, FeeIn, RealizedPnlPosted(amount));
      }
    }
  }

  lemma FillMoves(s: FacadeState, eventSeq: u64, side: Side, f: ExecutionFill)
    requires ReconcileFill(s, eventSeq, side, f).Ok?
    ensures var (t, ps) := ReconcileFill(s, eventSeq, side, f).value;
            && t == s.(position := t.position, ledger := t.ledger)
            && ValidPosition(t.position)
            && t.position.quantity == s.position.quantity + SignedOf(side, f.quantity)
            && LedgerMoves(s, t, ps)
  {
    var m := s.config.rules.positionMath;
    FillAccounts(s.position, side, f.quantity, f.price, m);
    var (p, legs) := Positions.ApplyFill(s.position, side, f.quantity, f.price, m).value;
    LegsPost(s.ledger, eventSeq, legs);
    var (mid, out) := PostLegs(s.ledger, eventSeq, legs).value;
    FeeMoves(mid, eventSeq, f, FeeRate(s.config.rules, f.role), s.config.rules.riskProfile.math);
    var charged := PostExecutionFee(mid, eventSeq, f.quantity, f.price, FeeRate(s.config.rules, f.role),
                                    f.role, s.config.rules.riskProfile.math).value;
    SumAppend(out, FeeIn, FeePosted(f.role, charged.1));
  }

  lemma FeeMoves(l: LedgerState, eventSeq: u64, f: ExecutionFill, rate: i64, m: ContractMath)
    requires PostExecutionFee(l, eventSeq, f.quantity, f.price, rate, f.role, m).Ok?
    ensures var (after, fee) := PostExecutionFee(l, eventSeq, f.quantity, f.price, rate, f.role, m).value;
            && Total(after.balances) == Total(l.balances)
            && Balance(after.balances, Fees) == Balance(l.balances, Fees) + fee
            && forall a: Account :: !a.Cash? && !a.Fees? ==> Balance(after.balances, a) == Balance(l.balances, a)
  {
    var fee := ExecutionFee(f.quantity, f.price, rate, m).value;
    CashFlowEffect(l, eventSeq, if f.role.Maker? then "MAKER_FEE" else "TAKER_FEE", Fees, Neg(fee));
  }

  function FillQty(f: ExecutionFill): int { f.quantity }

  lemma {:induction false} FillsMove(s: FacadeState, eventSeq: u64, side: Side, fs: seq<ExecutionFill>)
    requires ValidPosition(s.position) && ReconcileFills(s, eventSeq, side, fs).Ok?
    ensures var (t, ps) := ReconcileFills(s, eventSeq, side, fs).value;
            && t == s.(position := t.position, ledger := t.ledger)
            && ValidPosition(t.position)
            && t.position.quantity == s.position.quantity + SignedOf(side, SumOf(fs, FillQty))
            && LedgerMoves(s, t, ps)
    decreases |fs|
  {
    if fs != [] {
      var n := |fs| - 1;
      FillsMove(s, eventSeq, side, fs[..n]);
      var (mid, out) := ReconcileFills(s, eventSeq, side, fs[..n]).value;
      FillMoves(mid, eventSeq, side, fs[n]);
      var (t, more) := ReconcileFill(mid, eventSeq, side, fs[n]).value;
      SumConcat(out, more, FeeIn);
    }
  }

  /** An execution that the order book recorded as filled reaches position and ledger in full. */
  lemma ReconcileConserves(s: FacadeState, id: nat, next: OrderState, out: Outcome, role: Role, fs: seq<ExecutionFill>,
                           eventSeq: u64)
    requires Sane(s) && Effect(s.orders, id, next, out)
    requires fs == FillsOf(out, role)
    requires Reconcile(s.(orders := next), eventSeq, s.orders[id].side, fs, out).Ok?
    ensures var (t, ps) := Reconcile(s.(orders := next), eventSeq, s.orders[id].side, fs, out).value;
            Conserves(s, t, ps)
  {
    hide Lifecycle, ReconcileFill;
    var side := s.orders[id].side;
    var mid := s.(orders := next);
    assert next == s.orders[id := next[id]];
    SumUpdate(s.orders, SignedFilled, id, next[id]);
    FillsMove(mid, eventSeq, side, fs);
    assert SumOf(fs, FillQty) == out.filled by {
      if fs != [] {
        SumAppend([], FillQty, fs[0]);
        assert [] + [fs[0]] == fs;
      }
    }
    var report := ExecutionReported(out.orderId, fs, out.status, out.uncertainty);
    SumOne(report, FeeIn);
    if fs != [] {
      var (t, more) := ReconcileFills(mid, eventSeq, side, fs).value;
      SumConcat([report], more, FeeIn);
      SumAppend([report] + more, FeeIn, PositionChanged(t.position));
    }
    assert Sane(mid);
  }

  // --------------------------------------------------------------------- handlers

  lemma F0Conserves(s: FacadeState, id: u64, b: Bar, c: F0Config, eventSeq: u64, sha: HashFn)
    requires Sane(s) && HandleF0(s, id, b, c, eventSeq, sha).Ok?
    ensures var (t, ps) := HandleF0(s, id, b, c, eventSeq, sha).value; Conserves(s, t, ps)
  {
    hide ExecuteBar, Reconcile;
    var seen := ObserveMarket(s, b.eventSeq).value;
    BarEffect(s.orders, id, b, c, sha);
    var (next, out) := ExecuteBar(s.orders, id, b, c, sha).value;
    ReconcileConserves(seen, id, next, out, s.config.rules.f0FeeRole,
                       FillsOf(out, s.config.rules.f0FeeRole), eventSeq);
  }

  lemma QuoteConserves(s: FacadeState, id: u64, q: BboQuote, c: F1Config, eventSeq: u64, ts: i64)
    requires Sane(s) && HandleF1Quote(s, id, q, c, eventSeq, ts).Ok?
    ensures var (t, ps) := HandleF1Quote(s, id, q, c, eventSeq, ts).value; Conserves(s, t, ps)
  {
    hide ExecuteOnQuote, Reconcile;
    var seen := ObserveMarket(s, q.eventSeq).value;
    QuoteEffect(s.orders, id, q, ts, c);
    var (next, out) := ExecuteOnQuote(s.orders, id, q, ts, c).value;
    QuoteFillsHaveRole(s.orders, id, q, ts, c);
    var role := if out.role.Some? then out.role.value else Taker;
    ReconcileConserves(seen, id, next, out, role, if out.role.Some? then FillsOf(out, role) else [], eventSeq);
  }

  lemma QuoteFillsHaveRole(os: OrderState, id: u64, q: BboQuote, ts: i64, c: F1Config)
    requires Lifecycle(os) && ExecuteOnQuote(os, id, q, ts, c).Ok?
    ensures var out := ExecuteOnQuote(os, id, q, ts, c).value.1; out.filled > 0 ==> out.role.Some?
  {
    QuoteEffect(os, id, q, ts, c);
  }

  lemma TradeConserves(s: FacadeState, id: u64, t: TradePrint, e: u64, d: u64, c: F1Config, eventSeq: u64, ts: i64)
    requires Sane(s) && HandleF1Trade(s, id, t, e, d, c, eventSeq, ts).Ok?
    ensures var (u, ps) := HandleF1Trade(s, id, t, e, d, c, eventSeq, ts).value; Conserves(s, u, ps)
  {
    hide ExecuteRestingOnTrade, Reconcile;
    var seen := ObserveMarket(s, t.eventSeq).value;
    TradeEffect(s.orders, id, t, ts, e, d, c);
    var (next, out) := ExecuteRestingOnTrade(s.orders, id, t, ts, e, d, c).value;
    ReconcileConserves(seen, id, next, out, Maker, FillsOf(out, Maker), eventSeq);
  }

  lemma SubmitConserves(s: FacadeState, r: NewOrder, q: Option<TopOfBook>)
    requires Sane(s) && HandleSubmit(s, r, q).Ok?
    ensures var (t, ps) := HandleSubmit(s, r, q).value; Conserves(s, t, ps)
  {
    SubmitKeeps(s.orders, r, s.position.quantity, q);
    var (t, ps) := HandleSubmit(s, r, q).value;
    SumAppend(s.orders, SignedFilled, t.orders[|s.orders|]);
    assert t.orders == s.orders + [t.orders[|s.orders|]];
    SumOne(ps[0], FeeIn);
  }

  lemma CancelConserves(s: FacadeState, id: u64)
    requires Sane(s) && HandleCancel(s, id).Ok?
    ensures var (t, ps) := HandleCancel(s, id).value; Conserves(s, t, ps)
  {
    StepKeepsLifecycle(s.orders, OpCancel(id), 0);
    var (t, ps) := HandleCancel(s, id).value;
    SumUpdate(s.orders, SignedFilled, id, t.orders[id]);
    SumOne(ps[0], FeeIn);
  }

  lemma ReplaceConserves(s: FacadeState, id: u64, r: ReplaceOrder, q: Option<TopOfBook>)
    requires Sane(s) && HandleReplace(s, id, r, q).Ok?
    ensures var (t, ps) := HandleReplace(s, id, r, q).value; Conserves(s, t, ps)
  {
    ReplaceKeeps(s.orders, id, r, s.position.quantity, q);
    var (t, ps) := HandleReplace(s, id, r, q).value;
    SumUpdate(s.orders, SignedFilled, id, t.orders[id]);
    assert t.orders == s.orders[id := t.orders[id]];
    SumOne(ps[0], FeeIn);
  }

  lemma FundingConserves(s: FacadeState, id: ScheduledId, d: i64, eventSeq: u64)
    requires Sane(s) && HandleFunding(s, id, d, eventSeq).Ok?
    ensures var (t, ps) := HandleFunding(s, id, d, eventSeq).value; Conserves(s, t, ps)
  {
    var (t, ps) := HandleFunding(s, id, d, eventSeq).value;
    SumOne(ps[0], FeeIn);
    if id !in s.posted {
      CashFlowEffect(s.ledger, eventSeq, "FUNDING", Funding, d);
      TotalPostedInsert(s.posted, id, Fingerprint(eventSeq, "FUNDING", Funding, d));
    }
  }

  lemma DispatchConserves(s: FacadeState, x: FacadeInput, eventSeq: u64, ts: i64, sha: HashFn)
    requires Sane(s) && Dispatch(s, x, eventSeq, ts, sha).Ok?
    ensures var (t, ps) := Dispatch(s, x, eventSeq, ts, sha).value; Conserves(s, t, ps)
  {
    match x {
      case SubmitInput(r, q) => SubmitConserves(s, r, q);
      case CancelInput(id) => CancelConserves(s, id);
      case ReplaceInput(id, r, q) => ReplaceConserves(s, id, r, q);
      case F0Input(id, b, c) => F0Conserves(s, id, b, c, eventSeq, sha);
      case F1QuoteInput(id, q, c) => QuoteConserves(s, id, q, c, eventSeq, ts);
      case F1TradeInput(id, t, e, d, c) => TradeConserves(s, id, t, e, d, c, eventSeq, ts);
      case FundingInput(id, d) => FundingConserves(s, id, d, eventSeq);
      case LeverageInput(l, e, m) => RiskConserves(s, HandleLeverage(s, l, e, m).value);
      case RiskInput(e, m) => RiskConserves(s, HandleRisk(s, e, m).value);
      case _ =>
    }
  }

  lemma RiskConserves(s: FacadeState, r: (FacadeState, seq<Payload>))
    requires Sane(s) && r.0 == s.(risk := r.0.risk) && |r.1| == 1 && FeeIn(r.1[0]) == 0
    ensures Conserves(s, r.0, r.1)
  {
    SumOne(r.1[0], FeeIn);
    assert r.1 == [r.1[0]];
  }

  // ------------------------------------------------------------------- whole runs

  function EventFee(e: DomainEvent): int {
    FeeIn(e.payload)
  }

  /** Everything emitted by the accepted inputs of a run, with the final state. */
  ghost function RunFacade(s: FacadeState, es: seq<InputEnvelope>, sha: HashFn): (r: (FacadeState, seq<DomainEvent>))
    requires Sane(s)
    ensures Sane(r.0)
    decreases |es|
  {
    if es == [] then (s, [])
    else
      var (before, log) := RunFacade(s, es[..|es| - 1], sha);
      var (after, answer) := Apply(before, es[|es| - 1], sha);
      ApplyConserves(before, es[|es| - 1], sha);
      (after, if answer.Ok? then log + answer.value else log)
  }

  lemma {:induction false} NumberedFees(cause: KernelEvent, ps: seq<Payload>)
    ensures SumOf(Numbered(cause, ps), EventFee) == SumOf(ps, FeeIn)
  {
    if ps != [] {
      var n := |ps| - 1;
      NumberedFees(cause, ps[..n]);
      assert Numbered(cause, ps)[..n] == Numbered(cause, ps[..n]);
    }
  }

  lemma {:induction false} EventFeesConcat(a: seq<DomainEvent>, b: seq<DomainEvent>)
    ensures SumOf(a + b, EventFee) == SumOf(a, EventFee) + SumOf(b, EventFee)
  {
    if b == [] {
      assert a + b == a;
    } else {
      var n := |b| - 1;
      EventFeesConcat(a, b[..n]);
      assert (a + b)[..|a + b| - 1] == a + b[..n];
    }
  }

  /** What the account has moved by between two states, given the log in between. */
  ghost predicate Accounted(s: FacadeState, t: FacadeState, log: seq<DomainEvent>) {
    && t.config == s.config
    && t.position.quantity - s.position.quantity == SumOf(t.orders, SignedFilled) - SumOf(s.orders, SignedFilled)
    && Total(t.ledger.balances) == Total(s.ledger.balances)
    && Bal(t, RealizedPnl) + t.position.realized == Bal(s, RealizedPnl) + s.position.realized
    && Bal(t, Funding) + TotalPosted(t.posted) == Bal(s, Funding) + TotalPosted(s.posted)
    && Bal(t, Fees) == Bal(s, Fees) + SumOf(log, EventFee)
    && (forall a :: Idle(a) ==> Bal(t, a) == Bal(s, a))
  }

  lemma ApplyConserves(s: FacadeState, e: InputEnvelope, sha: HashFn)
    requires Sane(s)
    ensures var (t, answer) := Apply(s, e, sha);
            && Sane(t)
            && (answer.Err? ==> t == s)
            && (answer.Ok? ==> Accounted(s, t, answer.value))
  {
    hide Dispatch, Decode, KernelApply;
    var x := Attempt(s, e, sha);
    if x.Ok? {
      var command := Decode(e.kind, e.payload).value;
      var (k, event) := KernelApply(s.kernel, e, sha).value;
      var mid := s.(kernel := k);
      assert Sane(mid);
      DispatchConserves(mid, command, event.eventSeq, e.logicalTs, sha);
      var (next, ps) := Dispatch(mid, command, event.eventSeq, e.logicalTs, sha).value;
      NumberedFees(event, ps);
      assert Sane(next.(lastTs := Some(e.logicalTs)));
    }
  }

  /** Every run, whatever is rejected on the way, is fully accounted for. */
  lemma {:induction false} RunIsAccounted(s: FacadeState, es: seq<InputEnvelope>, sha: HashFn)
    requires Sane(s)
    ensures var (t, log) := RunFacade(s, es, sha); Accounted(s, t, log)
    decreases |es|
  {
    hide Attempt;
    if es != [] {
      var n := |es| - 1;
      RunIsAccounted(s, es[..n], sha);
      var (before, log) := RunFacade(s, es[..n], sha);
      ApplyConserves(before, es[n], sha);
      var (after, answer) := Apply(before, es[n], sha);
      if answer.Ok? { EventFeesConcat(log, answer.value); }
    }
  }

  lemma CashFollows(b: Balances)
    ensures Total(b) == Balance(b, Cash) + Balance(b, PositionCost) + Balance(b, RealizedPnl) + Balance(b, Fees)
                        + Balance(b, Funding) + Balance(b, Borrow) + Balance(b, Dividends) + Balance(b, SettlementAccount)
  {
    SumFrom(b, 0);
    SumFrom(b, 1);
    SumFrom(b, 2);
    SumFrom(b, 3);
    SumFrom(b, 4);
    SumFrom(b, 5);
    SumFrom(b, 6);
    SumFrom(b, 7);
  }

  lemma SumFrom(b: Balances, k: nat)
    requires k < 8
    ensures SumBalances(b, ACCOUNTS[k..]) == Balance(b, ACCOUNTS[k]) + SumBalances(b, ACCOUNTS[k + 1..])
    ensures ACCOUNTS[0..] == ACCOUNTS && ACCOUNTS[8..] == []
  {
    assert ACCOUNTS[k..][1..] == ACCOUNTS[k + 1..];
  }

  /** In every state reachable from a new facade: the position is the initial one plus bought
      minus sold, the books balance, and each account moved by exactly its cause. */
  lemma EveryFacadeIsAccounted(config: FacadeConfig, position: Position, ledger: LedgerSnapshot, leverage: Leverage,
                               es: seq<InputEnvelope>, sha: HashFn)
    requires !config.tier.F2? && NewFacade(config, position, ledger, leverage).Ok?
    ensures var s := NewFacade(config, position, ledger, leverage).value;
            Sane(s) &&
            var (t, log) := RunFacade(s, es, sha);
            && t.position.quantity == position.quantity + SumOf(t.orders, SignedFilled)
            && Total(t.ledger.balances) == 0
            && Bal(t, RealizedPnl) == Bal(s, RealizedPnl) - (t.position.realized - position.realized)
            && Bal(t, Funding) == Bal(s, Funding) - TotalPosted(t.posted)
            && Bal(t, Fees) == Bal(s, Fees) + SumOf(log, EventFee)
            && Bal(t, Cash) == Bal(s, Cash) + (t.position.realized - position.realized)
                               + TotalPosted(t.posted) - SumOf(log, EventFee)
  {
    hide RunFacade, ValidateConfig;
    var s := NewFacade(config, position, ledger, leverage).value;
    RunIsAccounted(s, es, sha);
    var (t, log) := RunFacade(s, es, sha);
    LoadedIsBalanced(ledger.balances, map[], 0);
    CashFollows(s.ledger.balances);
    CashFollows(t.ledger.balances);
    assert Idle(PositionCost) && Idle(Borrow) && Idle(Dividends) && Idle(SettlementAccount);
  }

  /** A loaded ledger has the aggregate that was summed while loading. */
  lemma {:induction false} LoadedIsBalanced(entries: seq<(Account, i64)>, b: Balances, sum: i64)
    requires Total(b) == sum && Load(entries, b, sum).Ok?
    ensures Total(Load(entries, b, sum).value.0) == Load(entries, b, sum).value.1
    decreases |entries|
  {
    if entries != [] {
      var (a, v) := entries[0];
      TotalUpdate(b, a, v);
      LoadedIsBalanced(entries[1..], b[a := v], sum + v);
    }
  }
}
