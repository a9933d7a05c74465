/** What holds in every state that commands can reach from a new session. */
module PracticeInvariants {
  import opened Common
  import opened Practice

  function Signed(o: Order): int {
    SignedFill(o.side, o.filled)
  }

  function FeePaid(o: Order): int {
    if o.filled == 0 || o.price.None? then 0 else FeeFor(o.filled, o.price.value, o.simulatedMaker)
  }

  ghost predicate OrderOk(o: Order) {
    && 0 <= o.filled && 0 <= o.remaining && o.filled + o.remaining == o.quantity
    && (o.status.Working? ==> o.filled == 0 && o.remaining > 0 && (o.stop.Some? || o.price.Some? || o.systemLiquidation))
    && (o.status.Filled? ==> o.remaining == 0 && o.filled > 0)
    && (o.status.Rejected? ==> o.filled == 0)
    && (o.filled > 0 ==> o.price.Some?)
    && (o.filled > 0 && o.remaining > 0 ==> o.reduceOnly && o.reason.ReduceOnlyExhausted?)
  }

  ghost predicate OrdersOk(os: seq<Order>) {
    forall i :: 0 <= i < |os| ==> os[i].id == i + 1 && OrderOk(os[i])
  }

  /** The account is recomputable from the order log. */
  ghost predicate Books(s: State) {
    && WellFormed(s)
    && s.nextOrderId == |s.orders| + 1
    && OrdersOk(s.orders)
    && s.position == SumOf(s.orders, Signed)
    && s.fees == SumOf(s.orders, FeePaid)
    && (s.position != 0 <==> s.averageEntry.Some?)
  }

  ghost predicate Solvent(s: State)
    requires WellFormed(s)
  {
    && (s.position == 0 || Equity(s) > MaintenanceAt(s.position, Mark(s)))
    && 0 <= s.peakEquity - Equity(s) <= s.maxDrawdown
  }

  ghost predicate NoneWorking(os: seq<Order>) {
    forall i :: 0 <= i < |os| ==> !os[i].status.Working?
  }

  ghost predicate Invariant(s: State) {
    && Books(s)
    && (s.status.Active? || NoneWorking(s.orders))
    && (s.status.Liquidated? ==> s.position == 0)
    && (!s.status.Liquidated? ==> Solvent(s))
  }

  // ------------------------------------------------------------ one fill

  lemma ProjectionKeepsBasis(position: int, averageEntry: Option<int>, realized: int, signedFill: int, price: int)
    requires (position != 0 <==> averageEntry.Some?) && signedFill != 0
    ensures var pr := ProjectPosition(position, averageEntry, realized, signedFill, price);
            pr.position == position + signedFill && (pr.position != 0 <==> pr.averageEntry.Some?)
  {
  }

  /** An order that is about to receive its only fill. */
  ghost predicate Fillable(o: Order) {
    o.status.Working? && o.filled == 0 && o.quantity == o.remaining > 0
  }

  /** A fill moves the account by exactly what its own order then records. */
  lemma FillIsRecorded(s: State, i: nat, price: int, taker: bool)
    requires WellFormed(s) && (s.position != 0 <==> s.averageEntry.Some?)
    requires i < |s.orders| && Fillable(s.orders[i])
    ensures var t := FillOrder(s, i, price, taker); var o := t.orders[i];
            && t.position == s.position + Signed(o) && t.fees == s.fees + FeePaid(o)
            && (t.position != 0 <==> t.averageEntry.Some?)
            && o.id == s.orders[i].id && OrderOk(o) && !o.status.Working?
            && t.orders == s.orders[i := o]
  {
    hide ProjectPosition, FeeFor, Mark, SameFrame, MarginRefused, AfterFill, Closed, OrderOk, Signed, FeePaid;
    var o := s.orders[i];
    var q := FillQuantity(s.position, o);
    UnfilledIsRecorded(o);
    if q != 0 {
      ProjectionKeepsBasis(s.position, s.averageEntry, s.realized, SignedFill(o.side, q), price);
      FilledIsRecorded(s.position, o, price, taker);
    }
  }

  lemma UnfilledIsRecorded(o: Order)
    requires Fillable(o)
    ensures var c := Closed(o, Canceled, ReduceOnlyExhausted);
            c.id == o.id && OrderOk(c) && !c.status.Working? && Signed(c) == 0 && FeePaid(c) == 0
    ensures var c := Closed(o, Rejected, InsufficientMargin);
            c.id == o.id && OrderOk(c) && !c.status.Working? && Signed(c) == 0 && FeePaid(c) == 0
  {
  }

  lemma FilledIsRecorded(position: int, o: Order, price: int, taker: bool)
    requires Fillable(o) && FillQuantity(position, o) != 0
    ensures var q := FillQuantity(position, o);
            var c := AfterFill(o, q, price, taker);
            && c.id == o.id && OrderOk(c) && !c.status.Working?
            && Signed(c) == SignedFill(o.side, q) && FeePaid(c) == FeeFor(q, price, !taker)
  {
    hide FeeFor;
  }

  lemma FillKeepsBooks(s: State, i: nat, price: int, taker: bool)
    requires Books(s) && i < |s.orders| && s.orders[i].status.Working?
    ensures Books(FillOrder(s, i, price, taker))
    ensures !FillOrder(s, i, price, taker).orders[i].status.Working?
  {
    FillIsRecorded(s, i, price, taker);
    var o := FillOrder(s, i, price, taker).orders[i];
    SumUpdate(s.orders, Signed, i, o);
    SumUpdate(s.orders, FeePaid, i, o);
  }

  /** Reduce-only orders can shrink the position but never open, grow or flip one. */
  lemma ReduceOnlyNeverOpens(s: State, i: nat, price: int, taker: bool)
    requires Books(s) && i < |s.orders| && s.orders[i].status.Working? && s.orders[i].reduceOnly
    ensures var after := FillOrder(s, i, price, taker).position;
            Abs(after) <= Abs(s.position) && (after == 0 || Sign(after) == Sign(s.position))
  {
    var o := s.orders[i];
    var q := FillQuantity(s.position, o);
    if q != 0 {
      ProjectionKeepsBasis(s.position, s.averageEntry, s.realized, SignedFill(o.side, q), price);
    }
  }

  lemma {:induction false} ProcessKeepsBooks(s: State, i: nat)
    requires Books(s) && i <= |s.orders|
    ensures Books(ProcessFrom(s, i))
    decreases |s.orders| - i
  {
    if i < |s.orders| {
      var o := s.orders[i];
      if o.status.Working? {
        FillKeepsBooks(s, i, ExecutionPrice(s, o.side), true);
        FillKeepsBooks(s, i, OrElse(o.price, 0), false);
      }
      ProcessKeepsBooks(ProcessOne(s, i), i + 1);
    }
  }

  // ------------------------------------------------------------ risk check

  lemma CancelKeepsBooks(s: State, reason: ReasonCode)
    requires Books(s) && !reason.ReduceOnlyExhausted?
    ensures Books(s.(orders := CancelWorking(s.orders, reason)))
    ensures NoneWorking(CancelWorking(s.orders, reason))
  {
    SumSame(s.orders, Signed, CancelWorking(s.orders, reason), Signed);
    SumSame(s.orders, FeePaid, CancelWorking(s.orders, reason), FeePaid);
  }

  lemma AppendKeepsBooks(s: State, o: Order)
    requires Books(s) && o.id == s.nextOrderId && OrderOk(o) && o.filled == 0
    ensures Books(Append(s, o))
  {
    SumAppend(s.orders, Signed, o);
    SumAppend(s.orders, FeePaid, o);
  }

  lemma LiquidateIsFlat(s: State)
    requires Books(s) && s.position != 0
    ensures var t := Liquidate(s); Books(t) && t.position == 0 && NoneWorking(t.orders) && t.status.Liquidated?
  {
    var o := LiquidationOrder(s);
    var closed := s.(orders := CancelWorking(s.orders, LiquidationCancel));
    CancelKeepsBooks(s, LiquidationCancel);
    AppendKeepsBooks(closed, o);
    var open := Append(closed, o);
    var price := ExecutionPrice(open, o.side);
    FillKeepsBooks(open, |s.orders|, price, true);
    ProjectionKeepsBasis(s.position, s.averageEntry, s.realized, SignedFill(o.side, Abs(s.position)), price);
    var t := FillOrder(open, |s.orders|, price, true);
    assert Liquidate(s) == t.(status := Liquidated);
    forall j | 0 <= j < |t.orders| ensures !t.orders[j].status.Working? {
      if j < |s.orders| { assert t.orders[j] == closed.orders[j]; }
    }
  }

  lemma UpdateRiskEstablishes(s: State)
    requires Books(s) && s.status.Active?
    ensures Invariant(UpdateRisk(s))
  {
    var m := Mark2Market(s);
    assert Books(m) && Equity(m) == Equity(s);
    if MustLiquidate(m) { LiquidateIsFlat(m); }
  }

  // -------------------------------------------------------------- commands

  lemma PlaceKeeps(s: State, r: OrderRequest)
    requires Invariant(s) && s.status.Active? && Validate(r).None?
    ensures Invariant(Place(s, r))
  {
    var o := NewOrder(s, r);
    var n := |s.orders|;
    if o.quantity == 0 || (o.makerOnly && Marketable(o, Mark(s)) && !r.mode.Stop?)
       || (o.takerOnly && !Marketable(o, Mark(s)) && !r.mode.Stop?) {
      var reason := if o.quantity == 0 then NoOpenPosition
                    else if o.makerOnly && Marketable(o, Mark(s)) then PostOnlyWouldTake
                    else MarketableOnlyUnfilled;
      var done := Closed(o, if reason.MarketableOnlyUnfilled? then Canceled else Rejected, reason);
      AppendKeepsBooks(s, done);
      assert Append(s, o).orders[n := done] == Append(s, done).orders;
      assert Place(s, r) == Append(s, done);
      assert Invariant(Append(s, done));
    } else if r.mode.Stop? {
      AppendKeepsBooks(s, o);
    } else {
      PlaceActiveKeeps(s, o);
    }
  }

  lemma PlaceActiveKeeps(s: State, o: Order)
    requires Invariant(s) && s.status.Active? && o.id == s.nextOrderId && o.filled == 0
    requires o.quantity == o.remaining > 0 && o.status.Working? && o.stop.None?
    ensures Invariant(UpdateRisk(TakeIfMarketable(Append(s, o))))
  {
    var open := Append(s, o);
    var n := |s.orders|;
    if Marketable(o, Mark(s)) {
      // A market order carries no price until its fill, which happens at once.
      TakeKeepsBooks(s, o);
    } else {
      AppendKeepsBooks(s, o);
    }
    UpdateRiskEstablishes(TakeIfMarketable(open));
  }

  lemma TakeKeepsBooks(s: State, o: Order)
    requires Books(s) && s.status.Active? && o.id == s.nextOrderId && o.filled == 0
    requires o.quantity == o.remaining > 0 && o.status.Working? && Marketable(o, Mark(s))
    ensures Books(TakeIfMarketable(Append(s, o)))
    ensures TakeIfMarketable(Append(s, o)).status.Active?
  {
    var open := Append(s, o);
    var n := |s.orders|;
    var price := ExecutionPrice(open, o.side);
    FillIsRecorded(open, n, price, true);
    var done := FillOrder(open, n, price, true).orders[n];
    SumAppend(s.orders, Signed, done);
    SumAppend(s.orders, FeePaid, done);
    assert open.orders[n := done] == s.orders + [done];
  }

  lemma CompleteKeeps(s: State)
    requires Invariant(s) && s.status.Active?
    ensures Invariant(Complete(s))
  {
    CancelKeepsBooks(s, SessionCompletedReason);
  }

  lemma AdvanceOneKeeps(s: State)
    requires Invariant(s) && s.status.Active?
    ensures Invariant(AdvanceOne(s))
  {
    hide ProcessFrom, UpdateRisk, Complete;
    if s.cursor >= |s.prices| - 1 {
      CompleteKeeps(s);
    } else {
      var moved := s.(cursor := s.cursor + 1);
      ProcessKeepsBooks(moved, 0);
      UpdateRiskEstablishes(ProcessFrom(moved, 0));
      var t := Reveal(s);
      if t.cursor >= |t.prices| - 1 && t.status.Active? { CompleteKeeps(t); }
    }
  }

  lemma {:induction false} AdvanceManyKeeps(s: State, steps: nat)
    requires Invariant(s)
    ensures Invariant(AdvanceMany(s, steps))
    decreases steps
  {
    if steps > 0 && s.status.Active? {
      AdvanceOneKeeps(s);
      AdvanceManyKeeps(AdvanceOne(s), steps - 1);
    }
  }

  lemma StepKeeps(s: State, c: Command)
    requires Invariant(s)
    ensures Invariant(Step(s, c).0)
  {
    match c {
      case CmdLeverage(l) =>
        if s.status.Active? && 1 <= l <= 50 {
          assert Equity(s.(leverage := l)) == Equity(s);
        }
      case CmdSubmit(r) =>
        if s.status.Active? && Validate(r).None? { PlaceKeeps(s, r); }
      case CmdAdvance(n) =>
        if s.status.Active? && 1 <= n <= 8 { AdvanceManyKeeps(s, n); }
    }
  }

  /** Every command sequence from every new session keeps the invariant. */
  lemma {:induction false} RunKeeps(s: State, cs: seq<Command>)
    requires Invariant(s)
    ensures Invariant(Run(s, cs).0)
    decreases |cs|
  {
    if cs != [] {
      StepKeeps(s, cs[0]);
      RunKeeps(Step(s, cs[0]).0, cs[1..]);
    }
  }

  lemma EverySessionKeeps(id: string, prices: seq<int>, cs: seq<Command>)
    requires prices != []
    ensures Invariant(Run(InitialState(id, prices), cs).0)
  {
    RunKeeps(InitialState(id, prices), cs);
  }
}
