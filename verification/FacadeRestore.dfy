/** Snapshot then restore: the restored facade answers every later input like the original. */
module FacadeRestore {
  import opened Common
  import opened Numeric
  import opened Bytes
  import opened Orders
  import opened FacadeTypes
  import opened Codec
  import opened Kernel
  import opened Positions
  import opened Execution
  import opened Risk
  import opened Ledger
  import opened Economics
  import opened Facade
  import opened FacadeAccounting

  /** Equal but for ledger history. */
  ghost predicate SameBooks(l: LedgerState, m: LedgerState) {
    m == l.(transactions := m.transactions)
  }

  ghost predicate Bisimilar(s: FacadeState, t: FacadeState) {
    SameBooks(s.ledger, t.ledger) && t == s.(ledger := t.ledger)
  }

  // -------------------------------------------------- history never decides anything

  lemma CashFlowAlike(l: LedgerState, m: LedgerState, eventSeq: u64, kind: string, account: Account, delta: i64)
    requires SameBooks(l, m)
    ensures var x, y := PostCashFlow(l, eventSeq, kind, account, delta), PostCashFlow(m, eventSeq, kind, account, delta);
            if x.Ok? then y.Ok? && SameBooks(x.value, y.value) else y == x
  {
  }

  lemma {:induction false} LegsAlike(l: LedgerState, m: LedgerState, eventSeq: u64, legs: seq<PositionLeg>)
    requires SameBooks(l, m)
    ensures var x, y := PostLegs(l, eventSeq, legs), PostLegs(m, eventSeq, legs);
            if x.Ok? then y.Ok? && SameBooks(x.value.0, y.value.0) && x.value.1 == y.value.1 else y == x
  {
    if legs != [] {
      var n := |legs| - 1;
      LegsAlike(l, m, eventSeq, legs[..n]);
      var x, y := PostLegs(l, eventSeq, legs[..n]), PostLegs(m, eventSeq, legs[..n]);
      if x.Ok? {
        CashFlowAlike(x.value.0, y.value.0, eventSeq, "REALIZED_PNL", RealizedPnl, legs[n].realizedDelta);
      }
    }
  }

  lemma FeeAlike(l: LedgerState, m: LedgerState, eventSeq: u64, quantity: u64, price: i64, rate: i64, role: Role, k: ContractMath)
    requires SameBooks(l, m)
    ensures var x := PostExecutionFee(l, eventSeq, quantity, price, rate, role, k);
            var y := PostExecutionFee(m, eventSeq, quantity, price, rate, role, k);
            if x.Ok? then y.Ok? && SameBooks(x.value.0, y.value.0) && x.value.1 == y.value.1 else y == x
  {
    var fee := ExecutionFee(quantity, price, rate, k);
    if fee.Ok? && IsI64(Neg(fee.value)) {
      CashFlowAlike(l, m, eventSeq, if role.Maker? then "MAKER_FEE" else "TAKER_FEE", Fees, Neg(fee.value));
    }
  }

  ghost predicate Alike(x: Handled, y: Handled) {
    if x.Ok? then y.Ok? && Bisimilar(x.value.0, y.value.0) && x.value.1 == y.value.1 else y == x
  }

  lemma FillAlike(s: FacadeState, t: FacadeState, eventSeq: u64, side: Side, f: ExecutionFill)
    requires Bisimilar(s, t)
    ensures Alike(ReconcileFill(s, eventSeq, side, f), ReconcileFill(t, eventSeq, side, f))
  {
    var moved := Positions.ApplyFill(s.position, side, f.quantity, f.price, s.config.rules.positionMath);
    if moved.Ok? {
      LegsAlike(s.ledger, t.ledger, eventSeq, moved.value.1);
      var x, y := PostLegs(s.ledger, eventSeq, moved.value.1), PostLegs(t.ledger, eventSeq, moved.value.1);
      if x.Ok? {
        FeeAlike(x.value.0, y.value.0, eventSeq, f.quantity, f.price, FeeRate(s.config.rules, f.role), f.role,
                 s.config.rules.riskProfile.math);
      }
    }
  }

  lemma {:induction false} FillsAlike(s: FacadeState, t: FacadeState, eventSeq: u64, side: Side, fs: seq<ExecutionFill>)
    requires Bisimilar(s, t)
    ensures Alike(ReconcileFills(s, eventSeq, side, fs), ReconcileFills(t, eventSeq, side, fs))
    decreases |fs|
  {
    if fs != [] {
      var n := |fs| - 1;
      FillsAlike(s, t, eventSeq, side, fs[..n]);
      var x, y := ReconcileFills(s, eventSeq, side, fs[..n]), ReconcileFills(t, eventSeq, side, fs[..n]);
      if x.Ok? { FillAlike(x.value.0, y.value.0, eventSeq, side, fs[n]); }
    }
  }

  lemma ReconcileAlike(s: FacadeState, t: FacadeState, eventSeq: u64, side: Side, fs: seq<ExecutionFill>, out: Outcome)
    requires Bisimilar(s, t)
    ensures Alike(Reconcile(s, eventSeq, side, fs, out), Reconcile(t, eventSeq, side, fs, out))
  {
    FillsAlike(s, t, eventSeq, side, fs);
  }

  lemma F0Alike(s: FacadeState, t: FacadeState, id: u64, b: Bar, c: F0Config, eventSeq: u64, sha: HashFn)
    requires Sane(s) && Bisimilar(s, t)
    ensures Alike(HandleF0(s, id, b, c, eventSeq, sha), HandleF0(t, id, b, c, eventSeq, sha))
  {
    var seen := ObserveMarket(s, b.eventSeq);
    if seen.Ok? && id < |s.orders| && ExecuteBar(s.orders, id, b, c, sha).Ok? {
      var (next, out) := ExecuteBar(s.orders, id, b, c, sha).value;
      ReconcileAlike(seen.value.(orders := next), t.(marketSeq := Some(b.eventSeq), orders := next), eventSeq,
                     s.orders[id].side, FillsOf(out, s.config.rules.f0FeeRole), out);
    }
  }

  lemma QuoteAlike(s: FacadeState, t: FacadeState, id: u64, q: BboQuote, c: F1Config, eventSeq: u64, ts: i64)
    requires Sane(s) && Bisimilar(s, t)
    ensures Alike(HandleF1Quote(s, id, q, c, eventSeq, ts), HandleF1Quote(t, id, q, c, eventSeq, ts))
  {
    var seen := ObserveMarket(s, q.eventSeq);
    if seen.Ok? && id < |s.orders| && ExecuteOnQuote(s.orders, id, q, ts, c).Ok? {
      var (next, out) := ExecuteOnQuote(s.orders, id, q, ts, c).value;
      ReconcileAlike(seen.value.(orders := next), t.(marketSeq := Some(q.eventSeq), orders := next), eventSeq,
                     s.orders[id].side, if out.role.Some? then FillsOf(out, out.role.value) else [], out);
    }
  }

  lemma TradeAlike(s: FacadeState, t: FacadeState, id: u64, p: TradePrint, e: u64, d: u64, c: F1Config, eventSeq: u64, ts: i64)
    requires Sane(s) && Bisimilar(s, t)
    ensures Alike(HandleF1Trade(s, id, p, e, d, c, eventSeq, ts), HandleF1Trade(t, id, p, e, d, c, eventSeq, ts))
  {
    var seen := ObserveMarket(s, p.eventSeq);
    if seen.Ok? && id < |s.orders| && ExecuteRestingOnTrade(s.orders, id, p, ts, e, d, c).Ok? {
      var (next, out) := ExecuteRestingOnTrade(s.orders, id, p, ts, e, d, c).value;
      ReconcileAlike(seen.value.(orders := next), t.(marketSeq := Some(p.eventSeq), orders := next), eventSeq,
                     s.orders[id].side, FillsOf(out, Maker), out);
    }
  }

  lemma FundingAlike(s: FacadeState, t: FacadeState, id: ScheduledId, d: i64, eventSeq: u64)
    requires Bisimilar(s, t)
    ensures Alike(HandleFunding(s, id, d, eventSeq), HandleFunding(t, id, d, eventSeq))
  {
    CashFlowAlike(s.ledger, t.ledger, eventSeq, "FUNDING", Funding, d);
  }

  lemma DispatchAlike(s: FacadeState, t: FacadeState, x: FacadeInput, eventSeq: u64, ts: i64, sha: HashFn)
    requires Sane(s) && Bisimilar(s, t)
    ensures Alike(Dispatch(s, x, eventSeq, ts, sha), Dispatch(t, x, eventSeq, ts, sha))
  {
    match x {
      case F0Input(id, b, c) => F0Alike(s, t, id, b, c, eventSeq, sha);
      case F1QuoteInput(id, q, c) => QuoteAlike(s, t, id, q, c, eventSeq, ts);
      case F1TradeInput(id, p, e, d, c) => TradeAlike(s, t, id, p, e, d, c, eventSeq, ts);
      case FundingInput(id, d) => FundingAlike(s, t, id, d, eventSeq);
      case SubmitInput(r, q) =>
      case CancelInput(id) =>
      case ReplaceInput(id, r, q) =>
      case LeverageInput(l, e, m) =>
      case RiskInput(e, m) =>
      case _ =>
    }
  }

  /** One step of the bisimulation: the same answer, and bisimilar states after it. */
  lemma StepAlike(s: FacadeState, t: FacadeState, e: InputEnvelope, sha: HashFn)
    requires Sane(s) && Bisimilar(s, t)
    ensures Apply(s, e, sha).1 == Apply(t, e, sha).1
    ensures Bisimilar(Apply(s, e, sha).0, Apply(t, e, sha).0)
  {
    hide Decode, KernelApply, Dispatch;
    var command := Decode(e.kind, e.payload);
    var k := KernelApply(s.kernel, e, sha);
    if command.Ok? && k.Ok? {
      DispatchAlike(s.(kernel := k.value.0), t.(kernel := k.value.0), command.value, k.value.1.eventSeq, e.logicalTs, sha);
    }
  }

  /** Answers of a run, in order. */
  ghost function Answers(s: FacadeState, es: seq<InputEnvelope>, sha: HashFn): (r: (FacadeState, seq<Answer>))
    requires Sane(s)
    ensures Sane(r.0)
    decreases |es|
  {
    if es == [] then (s, [])
    else
      ApplyConserves(s, es[0], sha);
      var (t, answer) := Apply(s, es[0], sha);
      var (u, rest) := Answers(t, es[1..], sha);
      (u, [answer] + rest)
  }

  lemma {:induction false} RunsAlike(s: FacadeState, t: FacadeState, es: seq<InputEnvelope>, sha: HashFn)
    requires Sane(s) && Sane(t) && Bisimilar(s, t)
    ensures Answers(s, es, sha).1 == Answers(t, es, sha).1
    ensures Bisimilar(Answers(s, es, sha).0, Answers(t, es, sha).0)
    decreases |es|
  {
    if es != [] {
      ApplyConserves(s, es[0], sha);
      ApplyConserves(t, es[0], sha);
      StepAlike(s, t, es[0], sha);
      RunsAlike(Apply(s, es[0], sha).0, Apply(t, es[0], sha).0, es[1..], sha);
    }
  }

  /** Restoring a snapshot, when it succeeds, yields a facade that gives the same events,
      errors and snapshots on every later input sequence. */
  lemma RestoredIsBisimilar(s: FacadeState, es: seq<InputEnvelope>, sha: HashFn)
    requires Sane(s) && Restore(TakeSnapshot(s)).Ok?
    ensures var r := Restore(TakeSnapshot(s)).value;
            && Sane(r)
            && Answers(r, es, sha).1 == Answers(s, es, sha).1
            && TakeSnapshot(Answers(r, es, sha).0) == TakeSnapshot(Answers(s, es, sha).0)
  {
    RestoreLedger(s.ledger);
    var r := Restore(TakeSnapshot(s)).value;
    assert r == s.(ledger := s.ledger.(transactions := []));
    RunsAlike(s, r, es, sha);
  }

  // ------------------------------------------------------------ when restore succeeds

  ghost predicate HashNeverZero(sha: HashFn) {
    forall m: Bytes :: sha(m) != ZERO_HASH
  }

  /** What every facade that was ever created and driven satisfies. */
  ghost predicate Continuable(s: FacadeState) {
    && Sane(s) && Total(s.ledger.balances) == 0 && ValidateConfig(s.config).None?
    && s.kernel.nextInputSeq == s.kernel.nextEventSeq == s.kernel.stateVersion
    && (s.kernel.stateVersion > 0 <==> s.lastTs.Some?)
    && (s.kernel.stateVersion > 0 <==> s.kernel.currentHash != ZERO_HASH)
  }

  lemma ApplyKeepsContinuable(s: FacadeState, e: InputEnvelope, sha: HashFn)
    requires Continuable(s) && HashNeverZero(sha)
    ensures Continuable(Apply(s, e, sha).0)
  {
    ApplyConserves(s, e, sha);
    var x := Attempt(s, e, sha);
    if x.Ok? {
      var command := Decode(e.kind, e.payload).value;
      var (k, event) := KernelApply(s.kernel, e, sha).value;
      DispatchConserves(s.(kernel := k), command, event.eventSeq, e.logicalTs, sha);
    }
  }

  lemma {:induction false} RunKeepsContinuable(s: FacadeState, es: seq<InputEnvelope>, sha: HashFn)
    requires Continuable(s) && HashNeverZero(sha)
    ensures Continuable(Answers(s, es, sha).0)
    decreases |es|
  {
    if es != [] {
      ApplyKeepsContinuable(s, es[0], sha);
      RunKeepsContinuable(Apply(s, es[0], sha).0, es[1..], sha);
    }
  }

  /** For a reachable facade, restore succeeds exactly when the ledger's running sums in
      account order fit 64 bits, and then it loses nothing but ledger history. */
  lemma RestoreSucceedsExactly(s: FacadeState)
    requires Continuable(s)
    ensures Restore(TakeSnapshot(s))
            == if RunningSumsFit(s.ledger.balances, ACCOUNTS, 0)
               then Ok(s.(ledger := s.ledger.(transactions := []))) else Err(InvalidSnapshot)
  {
    RestoreLedger(s.ledger);
  }

  lemma NewIsContinuable(config: FacadeConfig, position: Position, ledger: LedgerSnapshot, leverage: Leverage)
    requires !config.tier.F2? && NewFacade(config, position, ledger, leverage).Ok?
    ensures Continuable(NewFacade(config, position, ledger, leverage).value)
  {
    LoadedIsBalanced(ledger.balances, map[], 0);
  }
}
