/** The drawdown a session reports, and what a forced close-out adds to the real one. */
module PracticeDrawdown {
  import opened Common
  import opened Practice
  import opened PracticeInvariants
  import opened PracticeMargin

  /** Equity lost by closing a position at the visible quote: the half spread with its
      truncations, and the taker fee. */
  function CloseOutCost(position: int, entry: int, mark: int): int {
    var exit := mark - Sign(position) * HALF_SPREAD_CENTS;
    UnrealizedAt(position, Some(entry), mark)
    - Trunc(Abs(position) * (Sign(position) * (exit - entry)), 1_000)
    + FeeFor(Abs(position), exit, false)
  }

  /** The reported drawdown covers the real one. */
  predicate DrawdownCovered(s: State)
    requires WellFormed(s)
  {
    s.peakEquity - Equity(s) <= s.maxDrawdown
  }

  lemma CloseOutFill(s: State, i: nat)
    requires WellFormed(s) && s.position != 0 && s.averageEntry.Some? && i < |s.orders|
    requires var o := s.orders[i];
             o.systemLiquidation && o.reduceOnly && o.remaining == Abs(s.position) && o.side == ClosingSide(s.position)
    ensures var t := FillOrder(s, i, ExecutionPrice(s, s.orders[i].side), true);
            Equity(t) == Equity(s) - CloseOutCost(s.position, s.averageEntry.value, Mark(s))
  {
    hide FeeFor, Trunc;
  }

  /** A close-out lowers equity by its cost and leaves peak and drawdown alone, so the reported
      drawdown covers the real one afterwards exactly when it had room for the cost before. */
  lemma CloseOutExactly(s: State)
    requires Books(s) && s.position != 0
    ensures var t := Liquidate(s);
            var cost := CloseOutCost(s.position, s.averageEntry.value, Mark(s));
            && Equity(t) == Equity(s) - cost
            && t.peakEquity == s.peakEquity && t.maxDrawdown == s.maxDrawdown
            && (DrawdownCovered(t) <==> s.peakEquity - Equity(s) + cost <= s.maxDrawdown)
  {
    hide FillOrder;
    var o := LiquidationOrder(s);
    var open := Append(s.(orders := CancelWorking(s.orders, LiquidationCancel)), o);
    CloseOutFill(open, |s.orders|);
    var t := FillOrder(open, |s.orders|, ExecutionPrice(open, o.side), true);
    assert Equity(t.(status := Liquidated)) == Equity(t);
  }

  lemma TruncGap(a: int, b: nat)
    ensures Trunc(a, 1_000) >= Trunc(a - b, 1_000)
    ensures b >= 1_999 ==> Trunc(a, 1_000) > Trunc(a - b, 1_000)
  {
  }

  lemma FeeIsNoGain(quantity: nat, price: nat)
    ensures FeeFor(quantity, price, false) >= 0
  {
    assert quantity * price >= 0;
  }

  /** The half spread is what an exit at the quote misses of the gain at the mark. */
  lemma ExitGain(position: int, entry: int, mark: int)
    requires position != 0
    ensures var exit := mark - Sign(position) * HALF_SPREAD_CENTS;
            Abs(position) * (Sign(position) * (exit - entry)) == position * (mark - entry) - 500 * Abs(position)
  {
    var gap := mark - entry;
    if position > 0 {
      assert position * (gap - 500) == position * gap - 500 * position;
    } else {
      assert -position * -(gap + 500) == position * gap + 500 * position;
    }
  }

  /** Where the exit price is not negative the cost is never a gain, and from four thousandths
      on it is a loss. */
  lemma CloseOutCosts(position: int, entry: int, mark: int)
    requires position != 0 && mark >= HALF_SPREAD_CENTS
    ensures CloseOutCost(position, entry, mark) >= 0
    ensures Abs(position) >= 4 ==> CloseOutCost(position, entry, mark) > 0
  {
    hide FeeFor, Trunc;
    ExitGain(position, entry, mark);
    TruncGap(position * (mark - entry), 500 * Abs(position));
    FeeIsNoGain(Abs(position), mark - Sign(position) * HALF_SPREAD_CENTS);
  }

  /** A session that is closed out at its worst point reports too small a drawdown, by exactly
      the cost of the close-out. */
  lemma WorstPointIsUnderstated(s: State)
    requires Books(s) && s.status.Active? && UpdateRisk(s).status.Liquidated?
    requires s.maxDrawdown <= Max(s.peakEquity, Equity(s)) - Equity(s)
    ensures var t := UpdateRisk(s);
            s.position != 0 && s.averageEntry.Some?
            && t.peakEquity - Equity(t) == t.maxDrawdown + CloseOutCost(s.position, s.averageEntry.value, Mark(s))
  {
    hide CloseOutCost, Liquidate, OrdersOk;
    var m := Mark2Market(s);
    assert Books(m) && Equity(m) == Equity(s);
    CloseOutExactly(m);
  }

  // -------------------------------------------------- a close-out on the built-in path

  lemma {:induction false} NothingWorks(s: State, i: nat)
    requires WellFormed(s) && i <= |s.orders| && NoneWorking(s.orders)
    ensures ProcessFrom(s, i) == s
    decreases |s.orders| - i
  {
    if i < |s.orders| { NothingWorks(s, i + 1); }
  }

  /** With nothing working, one reveal only marks the account to the new price. */
  lemma Held(s: State)
    requires WellFormed(s) && s.status.Active? && NoneWorking(s.orders) && s.cursor + 2 < |s.prices|
    ensures var m := s.(cursor := s.cursor + 1); AdvanceOne(s) == UpdateRisk(m)
  {
    hide UpdateRisk, ProcessFrom;
    var m := s.(cursor := s.cursor + 1);
    NothingWorks(m, 0);
  }

  const SHORT := OrderRequest(Sell, 7_300, Market, 0, false, false, false)

  /** The first eleven prices as half spreads above the short's entry of 6,424,500, and the peak
      and drawdown a short of 7.3 has seen by then. */
  const AWAY: seq<int> := [1, 14, -13, 43, 70, 53, 97, 147, 116, 173, 206]
  const PEAKS: seq<int> := [1_000_000, 1_000_000, 1_024_001, 1_024_001, 1_024_001, 1_024_001, 1_024_001, 1_024_001, 1_024_001, 1_024_001, 1_024_001]
  const DRAWDOWNS: seq<int> :=
    [27_099, 74_549, 74_549, 204_400, 302_950, 302_950, 401_500, 584_000, 584_000, 678_900, 799_350]

  function Shorted(id: string, k: nat): State
    requires k < 11
  {
    var s := InitialState(id, PRACTICE_PRICES).(leverage := 50);
    s.(cursor := k, position := -7_300, averageEntry := Some(6_424_500), fees := 23_449,
       peakEquity := PEAKS[k], maxDrawdown := DRAWDOWNS[k], nextOrderId := 2,
       orders := [AfterFill(NewOrder(s, SHORT), 7_300, 6_424_500, true)])
  }

  lemma FirstPrices(k: nat)
    requires k < 11
    ensures |PRACTICE_PRICES| == 48 && PRACTICE_PRICES[k] == 6_424_500 + 500 * AWAY[k]
  {
    assert PRACTICE_PRICES[k] == PRICES_0[k];
  }

  lemma ShortAt(s: State, j: int)
    requires WellFormed(s) && s.startingEquity == 1_000_000 && s.realized == 0 && s.fees == 23_449
    requires s.position == -7_300 && s.averageEntry == Some(6_424_500) && Mark(s) == 6_424_500 + 500 * j
    ensures Equity(s) == 976_551 - 3_650 * j
  {
    assert -7_300 * (500 * j) == 1_000 * (-3_650 * j);
  }

  lemma ShortMaintenance(mark: int)
    requires 0 < mark <= 6_527_500
    ensures MaintenanceAt(-7_300, mark) <= 238_254
    ensures mark == 6_527_500 ==> MaintenanceAt(-7_300, mark) >= 238_253
  {
    MaintenanceIsHalfPercent(Trunc(7_300 * mark, 1_000));
  }

  lemma ShortHolds(id: string, k: nat)
    requires k < 9
    ensures AdvanceOne(Shorted(id, k)) == Shorted(id, k + 1)
  {
    hide Equity, MaintenanceAt;
    var s := Shorted(id, k);
    FirstPrices(k + 1);
    Held(s);
    var m := s.(cursor := k + 1);
    ShortAt(m, AWAY[k + 1]);
    ShortMaintenance(Mark(m));
    ShortAt(Mark2Market(m), AWAY[k + 1]);
  }

  lemma {:induction false} ShortAdvances(id: string, k: nat, n: nat)
    requires k + n <= 9
    ensures AdvanceMany(Shorted(id, k), n) == Shorted(id, k + n)
    decreases n
  {
    hide AdvanceOne;
    if n > 0 {
      ShortHolds(id, k);
      ShortAdvances(id, k + 1, n - 1);
    }
  }

  lemma ShortFee()
    ensures FeeFor(7_300, 6_424_500, false) == 23_449
  {
    Cut(7_300 * 6_424_500, 1_000, 46_898_850);
    Cut(46_898_850 * TAKER_FEE_PPB, PPB, 23_449);
  }

  lemma ShortOpens(id: string)
    ensures var s := InitialState(id, PRACTICE_PRICES);
            Step(s, CmdLeverage(50)).0 == s.(leverage := 50)
            && Step(s.(leverage := 50), CmdSubmit(SHORT)).0 == Shorted(id, 0)
  {
    hide FeeFor, MaintenanceAt;
    FirstPrices(0);
    ShortFee();
    ShortMaintenance(6_425_000);
    var s := InitialState(id, PRACTICE_PRICES).(leverage := 50);
    var open := Append(s, NewOrder(s, SHORT));
    var t := TakeIfMarketable(open);
    assert t == Shorted(id, 0).(maxDrawdown := 0);
    ShortAt(t, 1);
    ShortAt(Mark2Market(t), 1);
  }

  lemma ShortEnds(id: string)
    ensures var t := AdvanceOne(Shorted(id, 9));
            t.status.Liquidated? && t.peakEquity - Equity(t) > t.maxDrawdown
  {
    hide Equity, MaintenanceAt, UpdateRisk, CloseOutCost, Invariant, Books;
    var s := Shorted(id, 9);
    ShortKeeps(id);
    FirstPrices(10);
    Held(s);
    var m := s.(cursor := 10);
    assert Books(m) by { MovedBooks(s, 10); }
    ShortAt(m, 206);
    ShortMaintenance(6_527_500);
    ShortIsClosedOut(m);
    WorstPointIsUnderstated(m);
    CloseOutCosts(-7_300, 6_424_500, 6_527_500);
  }

  lemma MovedBooks(s: State, k: nat)
    requires Books(s) && k < |s.prices|
    ensures Books(s.(cursor := k))
  {
  }

  lemma ShortIsClosedOut(m: State)
    requires WellFormed(m) && m.position == -7_300 && Mark(m) == 6_527_500 && Equity(m) == 224_651
    ensures UpdateRisk(m).status.Liquidated?
  {
    hide MaintenanceAt, FillOrder;
    ShortMaintenance(6_527_500);
    assert Equity(Mark2Market(m)) == Equity(m);
  }

  lemma ShortKeeps(id: string)
    ensures Books(Shorted(id, 9))
  {
    hide Shorted, Step, AdvanceMany;
    var s := InitialState(id, PRACTICE_PRICES);
    ShortOpens(id);
    StepKeeps(s, CmdLeverage(50));
    StepKeeps(s.(leverage := 50), CmdSubmit(SHORT));
    ShortAdvances(id, 0, 9);
    AdvanceManyKeeps(Shorted(id, 0), 9);
  }

  /** On the built-in path: short 7.3 at fifty times leverage and hold for ten prices.  The account
      is closed out and its real drawdown is larger than the one it reports. */
  lemma DrawdownIsUnderstated(id: string)
    ensures var cs := [CmdLeverage(50), CmdSubmit(SHORT), CmdAdvance(8), CmdAdvance(2)];
            var t := Run(InitialState(id, PRACTICE_PRICES), cs).0;
            t.status.Liquidated? && t.peakEquity - Equity(t) > t.maxDrawdown
  {
    hide Shorted, SetLeverage, SubmitOrder, AdvanceOne, Equity, View;
    var cs := [CmdLeverage(50), CmdSubmit(SHORT), CmdAdvance(8), CmdAdvance(2)];
    var s := InitialState(id, PRACTICE_PRICES);
    ShortOpens(id);
    ShortAdvances(id, 0, 8);
    ShortHolds(id, 8);
    ShortEnds(id);
    var t := AdvanceOne(Shorted(id, 9));
    ActiveShort(id, 0);
    ActiveShort(id, 8);
    ActiveShort(id, 9);
    assert AdvanceMany(t, 0) == t && AdvanceMany(Shorted(id, 9), 1) == t && AdvanceMany(Shorted(id, 8), 2) == t;
    assert cs[1..] == [CmdSubmit(SHORT), CmdAdvance(8), CmdAdvance(2)];
    assert cs[1..][1..] == [CmdAdvance(8), CmdAdvance(2)] && cs[1..][1..][1..] == [CmdAdvance(2)];
    assert [CmdAdvance(2)][1..] == [] && Run(t, []).0 == t;
    assert Run(Shorted(id, 8), [CmdAdvance(2)]).0 == t;
    assert Run(Shorted(id, 0), [CmdAdvance(8), CmdAdvance(2)]).0 == t;
    assert Run(s.(leverage := 50), cs[1..]).0 == t;
  }

  lemma ActiveShort(id: string, k: nat)
    requires k < 11
    ensures Shorted(id, k).status.Active? && WellFormed(Shorted(id, k))
  {
    FirstPrices(k);
  }
}
