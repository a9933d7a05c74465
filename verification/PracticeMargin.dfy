/** A player's own order never liquidates the account.  Initial margin covers
    fills that add exposure; for fills that reduce it, the maintenance margin
    released outweighs spread, fee and every truncation once the mark is at
    least SAFE_MARK_CENTS. */
module PracticeMargin {
  import opened Common
  import opened Practice
  import opened PracticeInvariants

  const SAFE_MARK_CENTS := 400_000

  lemma InitialMarginExceedsMaintenance(notional: int, leverage: int)
    requires notional >= 200 && 1 <= leverage <= 50
    ensures Trunc(notional, leverage) > Trunc(notional * MAINTENANCE_RATE_PPB, PPB)
  {
    var q := Trunc(notional, leverage);
    assert leverage * q <= 50 * q;
  }

  /** From position p down to position p1 on the same side, closing c. */
  ghost predicate Reduces(p: int, p1: int, c: int) {
    p != 0 && p1 != 0 && Sign(p) == Sign(p1) && c > 0 && Abs(p) == Abs(p1) + c
  }

  /** Closing at the visible quote costs at most half the spread, plus rounding. */
  lemma ReductionCost(p: int, p1: int, c: int, mark: int, entry: int)
    requires Reduces(p, p1, c)
    ensures var exit := mark - Sign(p) * HALF_SPREAD_CENTS;
            1_000 * (Trunc(c * (Sign(p) * (exit - entry)), 1_000)
                     + UnrealizedAt(p1, Some(entry), mark) - UnrealizedAt(p, Some(entry), mark))
            >= -500 * c - 1_998
  {
    var gap := mark - entry;
    if p > 0 {
      assert c * (Sign(p) * (gap - 500)) == c * gap - 500 * c;
      assert p * gap == c * gap + p1 * gap;
    } else {
      assert c * (Sign(p) * (gap + 500)) == -(c * gap) - 500 * c;
      assert p * gap == -(c * gap) + p1 * gap;
    }
  }

  lemma FeeBound(c: int, price: int, mark: int)
    requires c > 0 && 0 < price <= mark + HALF_SPREAD_CENTS
    ensures 2_000_000 * FeeFor(c, price, false) <= c * mark + 500 * c
  {
    assert 0 < c * price <= c * mark + 500 * c;
  }

  lemma MaintenanceIsHalfPercent(notional: nat)
    ensures var m := Trunc(notional * MAINTENANCE_RATE_PPB, PPB); 200 * m <= notional < 200 * m + 200
  {
  }

  lemma MaintenanceReleased(p: int, p1: int, c: int, mark: int)
    requires Reduces(p, p1, c) && mark > 0
    ensures 200_000 * (MaintenanceAt(p, mark) - MaintenanceAt(p1, mark) + 1) > c * mark
  {
    var (all, kept) := (Abs(p) * mark, Abs(p1) * mark);
    assert all == c * mark + kept && c * mark > 0 && kept > 0;
    var (n, n1) := (Trunc(all, 1_000), Trunc(kept, 1_000));
    assert 1_000 * (n - n1) >= c * mark - 999;
    MaintenanceIsHalfPercent(n);
    MaintenanceIsHalfPercent(n1);
  }

  lemma ReductionStaysSolvent(p: int, p1: int, c: int, mark: int, entry: int, base: int)
    requires Reduces(p, p1, c) && mark >= SAFE_MARK_CENTS
    requires base + UnrealizedAt(p, Some(entry), mark) > MaintenanceAt(p, mark)
    ensures var exit := mark - Sign(p) * HALF_SPREAD_CENTS;
            base + Trunc(c * (Sign(p) * (exit - entry)), 1_000) - FeeFor(c, exit, false)
            + UnrealizedAt(p1, Some(entry), mark) > MaintenanceAt(p1, mark)
  {
    var exit := mark - Sign(p) * HALF_SPREAD_CENTS;
    ReductionCost(p, p1, c, mark, entry);
    FeeBound(c, exit, mark);
    MaintenanceReleased(p, p1, c, mark);
    ReleaseOutweighsCost(c, mark,
      Trunc(c * (Sign(p) * (exit - entry)), 1_000)
      + UnrealizedAt(p1, Some(entry), mark) - UnrealizedAt(p, Some(entry), mark),
      FeeFor(c, exit, false), MaintenanceAt(p, mark) - MaintenanceAt(p1, mark));
  }

  lemma ReleaseOutweighsCost(c: int, mark: int, gain: int, fee: int, released: int)
    requires c > 0 && mark >= SAFE_MARK_CENTS
    requires 1_000 * gain >= -500 * c - 1_998
    requires 2_000_000 * fee <= c * mark + 500 * c
    requires 200_000 * (released + 1) > c * mark
    ensures gain - fee + released > -1
  {
    assert c * mark >= SAFE_MARK_CENTS * c;
  }

  /** A taker fill of one fresh player order leaves the account solvent. */
  lemma TakerFillStaysSolvent(s: State, i: nat)
    requires WellFormed(s) && i < |s.orders| && Fillable(s.orders[i]) && !s.orders[i].systemLiquidation
    requires s.position != 0 <==> s.averageEntry.Some?
    requires s.position == 0 || Equity(s) > MaintenanceAt(s.position, Mark(s))
    requires Mark(s) >= SAFE_MARK_CENTS
    ensures var t := FillOrder(s, i, ExecutionPrice(s, s.orders[i].side), true);
            t.position == 0 || Equity(t) > MaintenanceAt(t.position, Mark(t))
  {
    var o := s.orders[i];
    var q := FillQuantity(s.position, o);
    var price := ExecutionPrice(s, o.side);
    var signed := SignedFill(o.side, q);
    if q != 0 {
      var pr := ProjectPosition(s.position, s.averageEntry, s.realized, signed, price);
      var fee := FeeFor(q, price, false);
      ProjectionKeepsBasis(s.position, s.averageEntry, s.realized, signed, price);
      if MarginRefused(s, o, pr, fee) || pr.position == 0 {
      } else if CreatesOrIncreasesExposure(s.position, pr.position) {
        NotionalAtLeast(pr.position, Mark(s));
        InitialMarginExceedsMaintenance(NotionalAt(pr.position, Mark(s)), s.leverage);
      } else {
        PartialReduction(s, q, o.side);
      }
    }
  }

  lemma NotionalAtLeast(position: int, mark: int)
    requires position != 0 && mark >= SAFE_MARK_CENTS
    ensures NotionalAt(position, mark) >= 400
  {
    assert Abs(position) * mark >= mark;
  }

  lemma PartialReduction(s: State, q: int, side: Side)
    requires WellFormed(s) && s.averageEntry.Some? && s.position != 0 && q > 0
    requires Equity(s) > MaintenanceAt(s.position, Mark(s)) && Mark(s) >= SAFE_MARK_CENTS
    requires s.position + SignedFill(side, q) != 0
    requires !CreatesOrIncreasesExposure(s.position, s.position + SignedFill(side, q))
    ensures var pr := ProjectPosition(s.position, s.averageEntry, s.realized, SignedFill(side, q), ExecutionPrice(s, side));
            s.startingEquity + pr.realized + UnrealizedAt(pr.position, pr.averageEntry, Mark(s))
            - s.fees - FeeFor(q, ExecutionPrice(s, side), false) > MaintenanceAt(pr.position, Mark(s))
  {
    var after := s.position + SignedFill(side, q);
    assert Reduces(s.position, after, q);
    ReductionStaysSolvent(s.position, after, q, Mark(s), s.averageEntry.value,
                          s.startingEquity + s.realized - s.fees);
  }

  lemma PlaceStaysActive(s: State, r: OrderRequest)
    requires Invariant(s) && s.status.Active? && Validate(r).None? && Mark(s) >= SAFE_MARK_CENTS
    ensures Place(s, r).status.Active?
  {
    var o := NewOrder(s, r);
    if o.quantity > 0 && !r.mode.Stop? {
      var open := Append(s, o);
      assert Equity(open) == Equity(s);
      TakerFillStaysSolvent(open, |s.orders|);
      var t := TakeIfMarketable(open);
      assert t.position == 0 || Equity(t) > MaintenanceAt(t.position, Mark(t));
      assert Equity(Mark2Market(t)) == Equity(t);
    }
  }

  /** SubmitOrder on a live session never ends it, whatever led there and whatever is asked. */
  lemma PlayerOrderNeverLiquidates(s: State, r: OrderRequest)
    requires Invariant(s) && s.status.Active? && Mark(s) >= SAFE_MARK_CENTS
    ensures SubmitOrder(s, r).0.status.Active?
  {
    if Validate(r).None? { PlaceStaysActive(s, r); }
  }

  lemma BuiltInPathIsSafe()
    ensures forall x :: x in PRACTICE_PRICES ==> x >= SAFE_MARK_CENTS
  {
  }

  /** On the built-in path no player order ends a session, after any commands. */
  lemma PracticeOrdersNeverLiquidate(id: string, cs: seq<Command>, r: OrderRequest)
    ensures var s := Run(InitialState(id, PRACTICE_PRICES), cs).0;
            s.status.Active? ==> SubmitOrder(s, r).0.status.Active?
  {
    EverySessionKeeps(id, PRACTICE_PRICES, cs);
    var s := Run(InitialState(id, PRACTICE_PRICES), cs).0;
    BuiltInPathIsSafe();
    assert PRACTICE_PRICES[s.cursor] in PRACTICE_PRICES;
    if s.status.Active? { PlayerOrderNeverLiquidates(s, r); }
  }

  lemma CheapHeld()
    ensures var buy := OrderRequest(Buy, 100_000, Market, 0, false, false, false);
            var s := InitialState("s", [10_000, 508, 508]);
            Run(s, [CmdSubmit(buy), CmdAdvance(1)]).0
            == s.(nextOrderId := 2, orders := [AfterFill(NewOrder(s, buy), 100_000, 10_500, true)], position := 100_000,
                  averageEntry := Some(10_500), fees := 525, maxDrawdown := 999_725, cursor := 1)
  {
    var buy := OrderRequest(Buy, 100_000, Market, 0, false, false, false);
    var s0 := InitialState("s", [10_000, 508, 508]);
    var o := NewOrder(s0, buy);
    var filled := AfterFill(o, 100_000, 10_500, true);
    var s1 := s0.(nextOrderId := 2, orders := [filled], position := 100_000,
                  averageEntry := Some(10_500), fees := 525, maxDrawdown := 50_525);
    assert TakeIfMarketable(Append(s0, o)) == s1.(maxDrawdown := 0);
    assert Place(s0, buy) == s1;
    var s2 := s1.(cursor := 1, maxDrawdown := 999_725);
    assert ProcessFrom(s1.(cursor := 1), 0) == s1.(cursor := 1) by {
      assert ProcessFrom(s1.(cursor := 1), 1) == s1.(cursor := 1);
    }
    assert AdvanceOne(s1) == s2;
    assert AdvanceMany(s2, 0) == s2;
    var cs := [CmdSubmit(buy), CmdAdvance(1)];
    assert cs[1..] == [CmdAdvance(1)] && cs[1..][1..] == [];
    assert Run(s2, []).0 == s2 && Run(s1, cs[1..]).0 == s2 && Run(s0, cs).0 == s2;
  }

  /** The floor on the mark is needed: on a cheap path, selling one unit of a
      hundred at the visible quote costs more than the maintenance it releases. */
  lemma CheapPathCounterexample()
    ensures var buy := OrderRequest(Buy, 100_000, Market, 0, false, false, false);
            var sell := OrderRequest(Sell, 1_000, Market, 0, true, false, false);
            var held := Run(InitialState("s", [10_000, 508, 508]), [CmdSubmit(buy), CmdAdvance(1)]).0;
            held.status.Active? && SubmitOrder(held, sell).0.status.Liquidated?
  {
    hide Run;
    var buy := OrderRequest(Buy, 100_000, Market, 0, false, false, false);
    var sell := OrderRequest(Sell, 1_000, Market, 0, true, false, false);
    CheapHeld();
    var held := Run(InitialState("s", [10_000, 508, 508]), [CmdSubmit(buy), CmdAdvance(1)]).0;
    var t := TakeIfMarketable(Append(held, NewOrder(held, sell)));
    assert t.position == 99_000 && t.realized == -10_492 && t.fees == 525 && t.averageEntry == Some(10_500);
    assert Equity(t) == -225;
    assert MustLiquidate(Mark2Market(t));
  }

  /** An account one cent above its maintenance margin, three cents of price below the floor. */
  const BRINK := State(
    "s", [399_997, 399_997], 0, Active, STARTING_EQUITY_CENTS, 5, 66_667, Some(398_994), -920_235, 13_299,
    133_333, 0, 2,
    [Order(1, Buy, SideBuy, 66_667, 66_667, 0, Some(398_994), None, false, false, true, Filled, FilledReason, 0, false, false)])

  lemma Cut(n: nat, d: int, q: int)
    requires d > 0 && d * q <= n < d * q + d
    ensures Trunc(n, d) == q
  {
    var t := Trunc(n, d);
    assert t < q ==> d * (t + 1) <= d * q;
    assert t > q ==> d * (q + 1) <= d * t;
  }

  lemma BrinkNumbers()
    ensures UnrealizedAt(66_667, Some(398_994), 399_997) == 66_867
    ensures MaintenanceAt(66_667, 399_997) == 133_332
    ensures FeeFor(66_667, 398_994, false) == 13_299
  {
    hide Trunc;
    Cut(66_667 * 1_003, 1_000, 66_867);
    Cut(66_667 * 399_997, 1_000, 26_666_599);
    Cut(26_666_599 * MAINTENANCE_RATE_PPB, PPB, 133_332);
    Cut(66_667 * 398_994, 1_000, 26_599_732);
    Cut(26_599_732 * TAKER_FEE_PPB, PPB, 13_299);
  }

  lemma SoldNumbers()
    ensures UnrealizedAt(66_666, Some(398_994), 399_997) == 66_865
    ensures MaintenanceAt(66_666, 399_997) == 133_331
    ensures FeeFor(1, 399_497, false) == 0
    ensures Trunc(503, 1_000) == 0
  {
    hide Trunc;
    Cut(66_666 * 1_003, 1_000, 66_865);
    Cut(66_666 * 399_997, 1_000, 26_666_200);
    Cut(26_666_200 * MAINTENANCE_RATE_PPB, PPB, 133_331);
    Cut(399_497, 1_000, 399);
    Cut(399 * TAKER_FEE_PPB, PPB, 0);
    Cut(503, 1_000, 0);
  }

  lemma BrinkIsHealthy()
    ensures Invariant(BRINK) && BRINK.status.Active? && Equity(BRINK) == 133_333
  {
    hide UnrealizedAt, MaintenanceAt, FeeFor, Trunc, Books;
    BrinkNumbers();
    BrinkBooks();
  }

  /** A session whose only order is a finished one. */
  lemma OneOrderBooks(s: State, o: Order)
    requires WellFormed(s) && s.orders == [o] && o.id == 1 && OrderOk(o) && s.nextOrderId == 2
    requires s.position == Signed(o) && s.fees == FeePaid(o) && (s.position != 0 <==> s.averageEntry.Some?)
    ensures Books(s)
  {
    hide FeePaid, Signed;
    SumAppend([], Signed, o);
    SumAppend([], FeePaid, o);
    assert [] + [o] == s.orders;
  }

  lemma BoughtOrder(o: Order)
    requires o.status.Filled? && o.side.SideBuy? && o.filled == o.quantity > 0 && o.remaining == 0 && o.price.Some?
    ensures OrderOk(o) && Signed(o) == o.filled && FeePaid(o) == FeeFor(o.filled, o.price.value, o.simulatedMaker)
  {
    hide FeeFor;
  }

  lemma BrinkBooks()
    ensures Books(BRINK)
  {
    hide Books, OrderOk, Signed, FeePaid, FeeFor, UnrealizedAt, MaintenanceAt, Trunc;
    BrinkNumbers();
    BoughtOrder(BRINK.orders[0]);
    OneOrderBooks(BRINK, BRINK.orders[0]);
  }

  lemma BrinkSold(s: State)
    requires s.cursor < |s.prices| && s.prices[s.cursor] == 399_997
    requires s == BRINK.(prices := s.prices, nextOrderId := 3, orders := s.orders) && |s.orders| == 2
    requires var o := s.orders[1]; o.side.SideSell? && o.remaining == 1 && o.reduceOnly
    ensures var t := FillOrder(s, 1, 399_497, true);
            t.position == 66_666 && t.realized == -920_235 && t.fees == 13_299 && t.averageEntry == Some(398_994)
  {
    hide UnrealizedAt, NotionalAt, FeeFor, Trunc;
    SoldNumbers();
  }

  /** Below the floor the invariant no longer suffices: two truncations against the player and a
      released margin of one cent make the sale of a thousandth fatal at 399,997. */
  lemma FloorIsNeeded()
    ensures var sell := OrderRequest(Sell, 1, Market, 0, true, false, false);
            && Invariant(BRINK) && BRINK.status.Active? && Mark(BRINK) == SAFE_MARK_CENTS - 3
            && SubmitOrder(BRINK, sell).0.status.Liquidated?
  {
    hide UnrealizedAt, MaintenanceAt, FeeFor, Invariant, FillOrder, View;
    var sell := OrderRequest(Sell, 1, Market, 0, true, false, false);
    BrinkIsHealthy();
    SoldNumbers();
    var open := Append(BRINK, NewOrder(BRINK, sell));
    BrinkSold(open);
    var t := TakeIfMarketable(open);
    assert Equity(t) == 133_331;
    assert MustLiquidate(Mark2Market(t));
  }
}
