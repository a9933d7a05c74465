/** Facade runs that show where two promises stop: a reduce-only order that flips the position,
    and a reachable facade whose snapshot is refused. */
module FacadeWitnesses {
  import opened Common
  import opened Numeric
  import opened Bytes
  import opened Canonical
  import opened Orders
  import opened OrderInvariants
  import opened FacadeTypes
  import opened Codec
  import opened CodecProofs
  import opened Kernel
  import opened Positions
  import opened Execution
  import PositionValue
  import opened Risk
  import opened Ledger
  import opened Economics
  import opened Facade
  import opened FacadeAccounting
  import opened FacadeRestore
  import opened FacadeExposure

  const NAME: Text := Label("X")
  const UNIT_MATH := ContractMath(1, 0, 0, 0, 0, TowardZero)
  const FREE_CONFIG := FacadeConfig(API_VERSION, NAME, NAME, F0,
                                    FacadeRules(UNIT_MATH, RiskProfile(0, UNIT_MATH), Taker, 0, 0))

  /** The n-th input of a session, at logical time zero. */
  function Sent(n: u64, x: FacadeInput): Envelope
    requires InLimits(x)
  {
    Envelope(NAME, n, n, 0, KindOf(x), Encode(x))
  }

  /** A facade of this configuration that has taken n inputs at logical time zero. */
  ghost predicate Driven(s: FacadeState, n: u64) {
    && Sane(s) && s.config == FREE_CONFIG && s.lastTs == (if n == 0 then None else Some(0))
    && s.kernel.nextInputSeq == s.kernel.nextEventSeq == s.kernel.stateVersion == n
  }

  /** Delivering an input is dispatching it. */
  lemma Delivered(s: FacadeState, n: u64, x: FacadeInput, sha: HashFn)
    requires Driven(s, n) && n < U64_MAX && InLimits(x) && |Encode(x)| + |KindOf(x)| < 0x1000_0000
    ensures |NAME| == 1
    ensures var e: InputEnvelope := Sent(n, x);
            var k := KernelApply(s.kernel, e, sha).value.0;
            var d := Dispatch(s.(kernel := k), x, n, 0, sha);
            && Decode(e.kind, e.payload) == Ok(x)
            && (d.Ok? ==> Attempt(s, e, sha).Ok? && Apply(s, e, sha).0 == d.value.0.(lastTs := Some(0))
                          && Driven(Apply(s, e, sha).0, n + 1))
  {
    hide Decode, Dispatch, Encode, KindOf, Consistent, Disciplined;
    DecodeInvertsEncode(x);
    assert |NAME| == 1;
    var e: InputEnvelope := Sent(n, x);
    ApplyConserves(s, e, sha);
    var k := KernelApply(s.kernel, e, sha).value.0;
    if Dispatch(s.(kernel := k), x, n, 0, sha).Ok? {
      DispatchConserves(s.(kernel := k), x, n, 0, sha);
    }
  }

  // -------------------------------------------------------- a reduce-only order that flips

  const LONG := Position(10, Some(100), 0)
  const FLAT := Position(0, None, 0)
  const SHORT := Position(-10, Some(100), 0)

  const BAR := Bar(1, 100, 100, 100, 100, 0)
  const BAR_CONFIG := F0Config(Pessimistic, 0)
  const PROTECT := NewOrder(NAME, NAME, Sell, 10, Limit(100), Gtc, true, false, false, 0)
  const EXIT := NewOrder(NAME, NAME, Sell, 10, OrderKind.Market, Gtc, false, false, false, 0)

  /** A protective reduce-only order, an ordinary exit, and a bar offered to each. */
  const STEPS: seq<FacadeInput> :=
    [SubmitInput(PROTECT, None), SubmitInput(EXIT, None), F0Input(1, BAR, BAR_CONFIG), F0Input(0, BAR, BAR_CONFIG)]

  function Placed(id: u64, r: NewOrder): Order {
    Order(id, r.clientOrderId, r.instrumentId, r.side, r.quantity, 0, r.kind, r.timeInForce, r.reduceOnly, r.postOnly,
          r.marketableOnly, r.submittedAt, 0, Working)
  }

  function Done(o: Order): Order { o.(filled := o.quantity, status := OrderStatus.Filled) }

  ghost predicate Quiet(l: LedgerState) {
    l.nextId < 10 && forall a: Account :: Balance(l.balances, a) == 0
  }

  lemma DividesByOne(n: nat)
    requires n <= I64_MAX
    ensures DivRound(n, 1, TowardZero) == Ok(n)
  {
    assert Trunc(n, 1) == n;
  }

  /** One settlement unit per contract and price unit. */
  lemma UnitNotional(qty: u64, price: i64, m: ContractMath)
    requires PositionValue.ZeroScales(m) && m.multiplier == 1 && 0 <= qty * price <= I64_MAX
    ensures LinearNotional(qty, price, m, TowardZero) == Ok(qty * price)
  {
    hide DivRound, Pow10;
    var product := qty * price;
    assert product * m.multiplier == product && IsI128(product) && SourceScale(m) == 0;
    NoShift();
    DividesByOne(product);
    assert DivRound(product, Pow10(0), TowardZero) == Ok(product);
  }

  lemma NoShift()
    ensures Pow10(0) == 1
  {
  }

  lemma NoFee()
    ensures ExecutionFee(10, 100, 0, UNIT_MATH) == Ok(0)
  {
    hide LinearNotional, DivRound;
    UnitNotional(10, 100, UNIT_MATH);
    assert DivRound(0, PPB_ONE, TowardZero) == Ok(0) by { ZeroDivided(PPB_ONE); }
  }

  lemma ZeroDivided(d: int)
    requires d > 0
    ensures DivRound(0, d, TowardZero) == Ok(0)
  {
    assert Trunc(0, d) == 0;
  }

  /** A cash flow that fits is posted. */
  lemma CashFlowFits(l: LedgerState, eventSeq: u64, kind: string, account: Account, delta: i64)
    requires account != Cash && kind != "" && l.nextId < U64_MAX && IsI64(Neg(delta))
    requires IsI64(Balance(l.balances, Cash) + delta) && IsI64(Balance(l.balances, account) - delta)
    ensures var r := PostCashFlow(l, eventSeq, kind, account, delta);
            && r.Ok? && r.value.nextId == l.nextId + 1
            && r.value.balances == l.balances[Cash := Balance(l.balances, Cash) + delta]
                                             [account := Balance(l.balances, account) - delta]
  {
    var t := CashFlow(eventSeq, kind, account, delta);
    var first := Posting(Cash, delta);
    assert t.postings[..1] == [first] && [first][..0] == [];
    assert PostAll(l.balances, []) == Ok((l.balances, 0));
    assert PostAll(l.balances, [first]) == Ok((l.balances[Cash := Balance(l.balances, Cash) + delta], delta));
  }

  lemma NothingPosted(l: LedgerState, eventSeq: u64)
    requires Quiet(l)
    ensures var r := PostExecutionFee(l, eventSeq, 10, 100, 0, Taker, UNIT_MATH);
            && r.Ok? && r.value.1 == 0 && r.value.0.nextId == l.nextId + 1
            && forall a: Account :: Balance(r.value.0.balances, a) == 0
  {
    hide ExecutionFee, PostCashFlow;
    NoFee();
    assert Neg(0) == 0;
    CashFlowFits(l, eventSeq, "TAKER_FEE", Fees, 0);
    var after := PostExecutionFee(l, eventSeq, 10, 100, 0, Taker, UNIT_MATH).value.0;
    forall a: Account ensures Balance(after.balances, a) == 0 {
      assert Balance(l.balances, a) == 0 && Balance(l.balances, Cash) == 0 && Balance(l.balances, Fees) == 0;
    }
  }

  lemma NoGain()
    ensures RealizedClosePnl(10, 100, 100, true, UNIT_MATH) == Ok(0)
  {
    hide LinearNotional;
    UnitNotional(10, 100, UNIT_MATH);
  }

  lemma FlatPrices(p: Position)
    requires p == LONG || p == FLAT
    ensures Positions.ApplyFill(p, Sell, 10, 100, UNIT_MATH)
            == if p == LONG then Ok((FLAT, [PositionLeg(Close, -10, 100, 0)]))
               else Ok((SHORT, [PositionLeg(Open, -10, 100, 0)]))
  {
    hide RealizedClosePnl, WeightedAverage;
    NoGain();
  }

  lemma FreeFill(s: FacadeState, eventSeq: u64)
    requires s.config == FREE_CONFIG && Quiet(s.ledger) && (s.position == LONG || s.position == FLAT)
    ensures var r := ReconcileFill(s, eventSeq, Sell, ExecutionFill(10, 100, Taker));
            && r.Ok? && r.value.0 == s.(position := if s.position == LONG then FLAT else SHORT, ledger := r.value.0.ledger)
            && r.value.0.ledger.nextId == s.ledger.nextId + 1
            && forall a: Account :: Balance(r.value.0.ledger.balances, a) == 0
  {
    hide Positions.ApplyFill, PostExecutionFee;
    FlatPrices(s.position);
    NothingPosted(s.ledger, eventSeq);
    var legs := Positions.ApplyFill(s.position, Sell, 10, 100, UNIT_MATH).value.1;
    assert PostLegs(s.ledger, eventSeq, []) == Ok((s.ledger, []));
    assert legs[..0] == [];
    assert PostLegs(s.ledger, eventSeq, legs) == Ok((s.ledger, []));
  }

  lemma BarExecutes(os: OrderState, id: u64, sha: HashFn)
    requires Sound(os) && id < |os| && (os[id] == Placed(id, PROTECT) || os[id] == Placed(id, EXIT))
    ensures ExecuteBar(os, id, BAR, BAR_CONFIG, sha)
            == Ok((os[id := Done(os[id])],
                   Outcome(id, 10, Some(100), None, false, OrderStatus.Filled, [])))
  {
  }

  /** A bar fills either order and moves the position by ten, whatever it was. */
  lemma BarFills(s: FacadeState, id: u64, eventSeq: u64, sha: HashFn)
    requires Sane(s) && s.config == FREE_CONFIG && Quiet(s.ledger) && (s.marketSeq.None? || s.marketSeq == Some(1))
    requires id < |s.orders| && (s.orders[id] == Placed(id, PROTECT) || s.orders[id] == Placed(id, EXIT))
    requires s.position == LONG || s.position == FLAT
    ensures Planned(s.orders, F0Input(id, BAR, BAR_CONFIG), 0, sha) == Some(OrderFill(id, 10))
    ensures var d := Dispatch(s, F0Input(id, BAR, BAR_CONFIG), eventSeq, 0, sha);
            && d.Ok? && d.value.0.config == s.config
            && d.value.0.orders == s.orders[id := Done(s.orders[id])]
            && d.value.0.position == (if s.position == LONG then FLAT else SHORT)
            && d.value.0.marketSeq == Some(1)
            && d.value.0.ledger.nextId == s.ledger.nextId + 1
            && forall a: Account :: Balance(d.value.0.ledger.balances, a) == 0
  {
    hide ExecuteBar, ReconcileFill, Consistent, Disciplined;
    BarExecutes(s.orders, id, sha);
    var seen := s.(marketSeq := Some(1), orders := s.orders[id := Done(s.orders[id])]);
    var f := ExecutionFill(10, 100, Taker);
    FreeFill(seen, eventSeq);
    assert [f][..0] == [];
    assert ReconcileFills(seen, eventSeq, Sell, []) == Ok((seen, []));
    assert ReconcileFills(seen, eventSeq, Sell, [f]).Ok?;
  }

  /** The orders after n inputs. */
  function OrdersAt(n: nat): OrderState {
    var (protect, exit) := (Placed(0, PROTECT), Placed(1, EXIT));
    match n
    case 0 => []
    case 1 => [protect]
    case 2 => [protect, exit]
    case 3 => [protect, Done(exit)]
    case _ => [Done(protect), Done(exit)]
  }

  function PositionAt(n: nat): Position {
    if n <= 2 then LONG else if n == 3 then FLAT else SHORT
  }

  ghost predicate At(s: FacadeState, n: u64) {
    && Driven(s, n) && s.orders == OrdersAt(n) && s.position == PositionAt(n)
    && s.ledger.nextId <= n && Quiet(s.ledger) && s.marketSeq == if n <= 2 then None else Some(1)
  }

  lemma StepsAreShort(n: nat)
    requires n < 4
    ensures InLimits(STEPS[n]) && |Encode(STEPS[n])| + |KindOf(STEPS[n])| < 0x1000_0000
  {
    hide U64Bytes, I64Bytes, ValidUtf8;
    assert TextFits(NAME) by { LabelIsText("X"); }
  }

  /** What each step's handler does. */
  lemma StepHandled(s: FacadeState, n: u64, eventSeq: u64, sha: HashFn)
    requires n < 4 && Sane(s) && s.config == FREE_CONFIG && s.orders == OrdersAt(n) && s.position == PositionAt(n)
    requires s.ledger.nextId <= n && Quiet(s.ledger) && s.marketSeq == if n <= 2 then None else Some(1)
    ensures var d := Dispatch(s, STEPS[n], eventSeq, 0, sha);
            && d.Ok? && d.value.0.orders == OrdersAt(n + 1) && d.value.0.position == PositionAt(n + 1)
            && d.value.0.ledger.nextId <= n + 1 && Quiet(d.value.0.ledger)
            && d.value.0.marketSeq == if n + 1 <= 2 then None else Some(1)
  {
    hide HandleF0, Consistent, Disciplined;
    if n == 2 { BarFills(s, 1, eventSeq, sha); }
    if n == 3 { BarFills(s, 0, eventSeq, sha); }
  }

  ghost function RunEnvelope(n: u64): InputEnvelope
    requires n < 4
  {
    StepsAreShort(n);
    Sent(n, STEPS[n])
  }

  lemma StepTaken(s: FacadeState, n: u64, sha: HashFn)
    requires n < 4 && At(s, n)
    ensures At(Apply(s, RunEnvelope(n), sha).0, n + 1)
    ensures Attempt(s, RunEnvelope(n), sha).Ok? && Decode(RunEnvelope(n).kind, RunEnvelope(n).payload) == Ok(STEPS[n])
  {
    hide Decode, Dispatch, Encode, KindOf, Consistent, Disciplined, OrdersAt, PositionAt, Apply, Attempt;
    StepsAreShort(n);
    Delivered(s, n, STEPS[n], sha);
    var k := KernelApply(s.kernel, RunEnvelope(n), sha).value.0;
    StepHandled(s.(kernel := k), n, n, sha);
  }

  ghost function WitnessRun(): seq<InputEnvelope> {
    [RunEnvelope(0), RunEnvelope(1), RunEnvelope(2), RunEnvelope(3)]
  }

  lemma {:induction false} RunReaches(s: FacadeState, n: nat, sha: HashFn)
    requires n <= 4 && At(s, 0)
    ensures At(StateAt(s, WitnessRun(), n, sha), n)
  {
    hide OrdersAt, PositionAt, Quiet, Consistent, Disciplined, Apply, RunEnvelope;
    if n > 0 {
      RunReaches(s, n - 1, sha);
      StateAtNext(s, WitnessRun(), n - 1, sha);
      StepTaken(StateAt(s, WitnessRun(), n - 1, sha), n - 1, sha);
    }
  }

  lemma Opens()
    ensures var start := NewFacade(FREE_CONFIG, LONG, LedgerSnapshot(0, []), 1); start.Ok? && At(start.value, 0)
  {
  }

  lemma ExitUndercuts(s: FacadeState, sha: HashFn)
    requires At(s, 2)
    ensures UndercutBy(s, RunEnvelope(2), sha)
  {
    hide Attempt, Decode, Planned, Encode, KindOf, Reserved, Consistent, Disciplined;
    StepsAreShort(2);
    StepTaken(s, 2, sha);
    BarFills(s, 1, 0, sha);
    TenReserved(s);
  }

  lemma ProtectFills(s: FacadeState, sha: HashFn)
    requires At(s, 3)
    ensures ReduceOnlyFill(s, RunEnvelope(3), sha)
  {
    hide Attempt, Decode, Planned, Encode, KindOf, Consistent, Disciplined;
    StepsAreShort(3);
    StepTaken(s, 3, sha);
    BarFills(s, 0, 0, sha);
  }

  /** Long ten with a reduce-only sell of ten resting, an ordinary sell of ten leaves the position
      flat; the reduce-only order is then filled in full and opens a short. */
  lemma ReduceOnlyCanFlip(sha: HashFn)
    ensures var start := NewFacade(FREE_CONFIG, LONG, LedgerSnapshot(0, []), 1);
            && start.Ok? && Sane(start.value)
            && var (run, s) := (WitnessRun(), start.value);
               && StateAt(s, run, 2, sha).position.quantity == 10
               && UndercutBy(StateAt(s, run, 2, sha), run[2], sha)
               && StateAt(s, run, 3, sha).position.quantity == 0
               && ReduceOnlyFill(StateAt(s, run, 3, sha), run[3], sha)
               && StateAt(s, run, 4, sha).position.quantity == -10
  {
    hide NewFacade, StateAt, RunEnvelope, UndercutBy, ReduceOnlyFill, Consistent, Disciplined, Quiet, OrdersAt;
    Opens();
    var s := NewFacade(FREE_CONFIG, LONG, LedgerSnapshot(0, []), 1).value;
    RunReaches(s, 2, sha);
    RunReaches(s, 3, sha);
    RunReaches(s, 4, sha);
    ExitUndercuts(StateAt(s, WitnessRun(), 2, sha), sha);
    ProtectFills(StateAt(s, WitnessRun(), 3, sha), sha);
  }

  lemma TenReserved(s: FacadeState)
    requires At(s, 2)
    ensures Reserved(s, Sell) == 10
  {
    var pick := ReservesOf(NAME, Sell, None);
    SumAppend([], pick, Placed(0, PROTECT));
    SumAppend([Placed(0, PROTECT)], pick, Placed(1, EXIT));
    assert [] + [Placed(0, PROTECT)] == [Placed(0, PROTECT)];
    assert [Placed(0, PROTECT)] + [Placed(1, EXIT)] == OrdersAt(2);
  }

  // -------------------------------------------------- a reachable snapshot that is refused

  const FULL := LedgerSnapshot(0, [(Cash, I64_MAX - 5), (Fees, 5), (Funding, -I64_MAX)])
  const PAYMENT := FundingInput(ScheduledId(NAME, NAME), 1)

  lemma PaymentIsShort()
    ensures InLimits(PAYMENT) && |Encode(PAYMENT)| + |KindOf(PAYMENT)| < 0x1000_0000
  {
    hide U64Bytes, I64Bytes, ValidUtf8;
    assert TextFits(NAME) by { LabelIsText("X"); }
  }

  ghost function PaymentEnvelope(): InputEnvelope {
    PaymentIsShort();
    Sent(0, PAYMENT)
  }

  lemma FullLoads()
    ensures FromSnapshot(FULL) == Ok(LedgerState(0, map[Cash := I64_MAX - 5, Fees := 5, Funding := -I64_MAX], []))
  {
    var (b0, b1, b2) := (map[][Cash := I64_MAX - 5], map[Cash := I64_MAX - 5, Fees := 5],
                         map[Cash := I64_MAX - 5, Fees := 5, Funding := -I64_MAX]);
    var xs := FULL.balances;
    assert Load(xs[3..], b2, 0) == Ok((b2, 0));
    assert xs[2..][1..] == xs[3..] && b1[Funding := -I64_MAX] == b2;
    assert Load(xs[2..], b1, I64_MAX) == Ok((b2, 0));
    assert xs[1..][1..] == xs[2..] && b0[Fees := 5] == b1;
    assert Load(xs[1..], b0, I64_MAX - 5) == Ok((b2, 0));
    assert Load(xs, map[], 0) == Ok((b2, 0));
  }

  lemma FitFrom(b: Balances, k: nat, sum: int)
    requires k < 8
    ensures ACCOUNTS[0..] == ACCOUNTS
    ensures RunningSumsFit(b, ACCOUNTS[k..], sum)
            <==> IsI64(sum + Balance(b, ACCOUNTS[k])) && RunningSumsFit(b, ACCOUNTS[k + 1..], sum + Balance(b, ACCOUNTS[k]))
  {
    assert ACCOUNTS[k..][1..] == ACCOUNTS[k + 1..] && ACCOUNTS[k..][0] == ACCOUNTS[k];
  }

  lemma FullFits(b: Balances)
    requires b == map[Cash := I64_MAX - 5, Fees := 5, Funding := -I64_MAX]
    ensures RunningSumsFit(b, ACCOUNTS, 0)
  {
    hide RunningSumsFit;
    FitFrom(b, 0, 0);
    FitFrom(b, 1, I64_MAX - 5);
    FitFrom(b, 2, I64_MAX - 5);
    FitFrom(b, 3, I64_MAX - 5);
    FitFrom(b, 4, I64_MAX);
    FitFrom(b, 5, 0);
    FitFrom(b, 6, 0);
    FitFrom(b, 7, 0);
    NothingLeft(b);
  }

  lemma NothingLeft(b: Balances)
    ensures RunningSumsFit(b, ACCOUNTS[8..], 0)
  {
  }

  lemma OverfullOverflows(b: Balances)
    requires b == map[Cash := I64_MAX - 4, Fees := 5, Funding := I64_MIN]
    ensures !RunningSumsFit(b, ACCOUNTS, 0)
  {
    hide RunningSumsFit;
    FitFrom(b, 0, 0);
    FitFrom(b, 1, I64_MAX - 4);
    FitFrom(b, 2, I64_MAX - 4);
    FitFrom(b, 3, I64_MAX - 4);
  }

  lemma PaymentPosts(s: FacadeState, eventSeq: u64)
    requires s.posted == map[] && FromSnapshot(FULL) == Ok(s.ledger)
    ensures var r := HandleFunding(s, PAYMENT.id, 1, eventSeq);
            r.Ok? && r.value.0.ledger.balances == map[Cash := I64_MAX - 4, Fees := 5, Funding := I64_MIN]
  {
    hide FromSnapshot, PostCashFlow;
    FullLoads();
    CashFlowFits(s.ledger, eventSeq, "FUNDING", Funding, 1);
  }

  /** A balanced ledger takes a funding payment of one and its snapshot can no longer be restored:
      the balances still add up to zero, but their running sum passes 64 bits on the way. */
  lemma ReachableSnapshotIsRefused(sha: HashFn)
    requires HashNeverZero(sha)
    ensures var start := NewFacade(FREE_CONFIG, FLAT, FULL, 1);
            && start.Ok? && Continuable(start.value) && Restore(TakeSnapshot(start.value)).Ok?
            && var (s, answer) := Apply(start.value, PaymentEnvelope(), sha);
               answer.Ok? && Continuable(s) && Restore(TakeSnapshot(s)) == Err(InvalidSnapshot)
  {
    hide FromSnapshot, RunningSumsFit, Decode, Encode, KindOf, HandleFunding, Restore, Attempt;
    FullLoads();
    NewIsContinuable(FREE_CONFIG, FLAT, FULL, 1);
    var start := NewFacade(FREE_CONFIG, FLAT, FULL, 1).value;
    FullFits(start.ledger.balances);
    RestoreSucceedsExactly(start);
    PaymentIsShort();
    Delivered(start, 0, PAYMENT, sha);
    PaymentPosts(start.(kernel := KernelApply(start.kernel, PaymentEnvelope(), sha).value.0), 0);
    ApplyKeepsContinuable(start, PaymentEnvelope(), sha);
    var s := Apply(start, PaymentEnvelope(), sha).0;
    OverfullOverflows(s.ledger.balances);
    RestoreSucceedsExactly(s);
  }
}
