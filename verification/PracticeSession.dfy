/** The session object itself: fields updated in place, proved to follow the
    value-level operations step for step. */
module PracticeSession {
  import opened Common
  import opened Practice

  class Session {
    const id: string
    const pricesCents: seq<int>
    var cursor: nat
    var status: SessionStatus
    const startingEquity: int
    var leverage: int
    var positionMilli: int
    var averageEntry: Option<int>
    var realizedPnL: int
    var fees: int
    var peakEquity: int
    var maxDrawdown: int
    var nextOrderId: int
    var orders: seq<Order>

    /** The authoritative state as a value. */
    function Value(): State
      reads this
    {
      State(id, pricesCents, cursor, status, startingEquity, leverage, positionMilli, averageEntry,
            realizedPnL, fees, peakEquity, maxDrawdown, nextOrderId, orders)
    }

    ghost predicate Valid()
      reads this
    {
      WellFormed(Value())
    }

    constructor (id: string, prices: seq<int>)
      requires prices != []
      ensures Valid() && Value() == InitialState(id, prices)
    {
      this.id := id;
      pricesCents := prices;
      cursor := 0;
      status := Active;
      startingEquity := STARTING_EQUITY_CENTS;
      leverage := 5;
      positionMilli, averageEntry, realizedPnL, fees := 0, None, 0, 0;
      peakEquity, maxDrawdown := STARTING_EQUITY_CENTS, 0;
      nextOrderId, orders := 1, [];
    }

    method GetSnapshot() returns (view: Snapshot)
      requires Valid()
      ensures view == View(Value())
    {
      var revealed: seq<RevealedPrice> := [];
      for i := 0 to cursor + 1
        invariant revealed == Revealed(pricesCents, i)
      {
        revealed := revealed + [RevealedPrice(i, pricesCents[i])];
      }
      var newestFirst: seq<Order> := [];
      for i := 0 to |orders|
        invariant |newestFirst| == i
        invariant forall j :: 0 <= j < i ==> newestFirst[j] == orders[i - 1 - j]
      {
        newestFirst := [orders[i]] + newestFirst;
      }
      assert newestFirst == Reversed(orders);
      view := View(Value()).(revealed := revealed, orders := newestFirst);
    }

    method SetLeverageTo(requested: int) returns (r: Response)
      requires Valid()
      modifies this
      ensures Valid() && (Value(), r) == SetLeverage(old(Value()), requested)
    {
      if !status.Active? { return Err(SessionEnded); }
      if requested < 1 || requested > 50 { return Err(InvalidLeverage); }
      var before := leverage;
      leverage := requested;
      var view := GetSnapshot();
      if view.availableMargin < 0 {
        leverage := before;
        return Err(InsufficientAvailableMargin);
      }
      return Ok(view);
    }

    method Submit(request: OrderRequest) returns (r: Response)
      requires Valid()
      modifies this
      ensures Valid() && (Value(), r) == SubmitOrder(old(Value()), request)
    {
      if !status.Active? { return Err(SessionEnded); }
      var invalid := Validate(request);
      if invalid.Some? { return Err(invalid.value); }
      var order := NewOrder(Value(), request);
      var index := |orders|;
      nextOrderId := nextOrderId + 1;
      orders := orders + [order];
      assert Value() == Append(old(Value()), order);
      if order.quantity == 0 {
        CloseOrder(index, Rejected, NoOpenPosition);
      } else if request.mode.Stop? {
      } else if order.makerOnly && Marketable(order, CurrentPrice()) {
        CloseOrder(index, Rejected, PostOnlyWouldTake);
      } else if order.takerOnly && !Marketable(order, CurrentPrice()) {
        CloseOrder(index, Canceled, MarketableOnlyUnfilled);
      } else {
        if Marketable(order, CurrentPrice()) {
          Fill(index, ExecutionPrice(Value(), order.side), true);
        }
        ApplyRisk();
      }
      var view := GetSnapshot();
      return Ok(view);
    }

    method AdvanceBy(steps: int) returns (r: Response)
      requires Valid()
      modifies this
      ensures Valid() && (Value(), r) == Advance(old(Value()), steps)
    {
      hide ProcessFrom, UpdateRisk, View, CancelWorking;
      if !status.Active? { return Err(SessionEnded); }
      if steps < 1 || steps > 8 { return Err(InvalidAdvance); }
      var count := 0;
      while count < steps && status.Active?
        invariant 0 <= count <= steps && Valid()
        invariant AdvanceMany(Value(), steps - count) == AdvanceMany(old(Value()), steps)
      {
        ghost var before := Value();
        if cursor >= |pricesCents| - 1 {
          CancelAll(SessionCompletedReason);
          status := Completed;
        } else {
          cursor := cursor + 1;
          ProcessWorkingOrders();
          ApplyRisk();
          assert Value() == Reveal(before);
          if cursor >= |pricesCents| - 1 && status.Active? {
            CancelAll(SessionCompletedReason);
            status := Completed;
          }
        }
        assert Value() == AdvanceOne(before);
        count := count + 1;
      }
      var view := GetSnapshot();
      return Ok(view);
    }

    function CurrentPrice(): int
      requires Valid()
      reads this
    {
      pricesCents[cursor]
    }

    method ProcessWorkingOrders()
      requires Valid()
      modifies this
      ensures Valid() && Value() == ProcessFrom(old(Value()), 0)
    {
      var i := 0;
      while i < |orders|
        invariant Valid() && i <= |orders| && |orders| == old(|orders|)
        invariant ProcessFrom(Value(), i) == ProcessFrom(old(Value()), 0)
      {
        var order := orders[i];
        if order.status.Working? {
          if order.stop.Some? {
            if StopTriggered(order, CurrentPrice()) {
              Fill(i, ExecutionPrice(Value(), order.side), true);
            }
          } else if LimitCrossed(order, CurrentPrice()) {
            Fill(i, order.price.value, false);
          }
        }
        i := i + 1;
      }
    }

    method Fill(index: nat, fillPrice: int, taker: bool)
      requires Valid() && index < |orders|
      modifies this
      ensures Valid() && Value() == FillOrder(old(Value()), index, fillPrice, taker)
    {
      var order := orders[index];
      var quantity := FillQuantity(positionMilli, order);
      if quantity == 0 {
        CloseOrder(index, Canceled, ReduceOnlyExhausted);
        return;
      }
      var projected := ProjectPosition(positionMilli, averageEntry, realizedPnL,
                                       SignedFill(order.side, quantity), fillPrice);
      var fee := FeeFor(quantity, fillPrice, !taker);
      if MarginRefused(Value(), order, projected, fee) {
        CloseOrder(index, Rejected, InsufficientMargin);
        return;
      }
      positionMilli := projected.position;
      averageEntry := projected.averageEntry;
      realizedPnL := projected.realized;
      fees := fees + fee;
      orders := orders[index := order.(filled := order.filled + quantity,
                                       remaining := order.remaining - quantity,
                                       price := Some(fillPrice), simulatedMaker := !taker)];
      if orders[index].remaining > 0 {
        CloseOrder(index, Canceled, ReduceOnlyExhausted);
      } else {
        CloseOrder(index, Filled, FilledReason);
      }
    }

    method ApplyRisk()
      requires Valid()
      modifies this
      ensures Valid() && Value() == UpdateRisk(old(Value()))
    {
      hide Liquidate, CancelWorking;
      var view := GetSnapshot();
      if view.equity > peakEquity { peakEquity := view.equity; }
      var drawdown := peakEquity - view.equity;
      if drawdown > maxDrawdown { maxDrawdown := drawdown; }
      assert Value() == Mark2Market(old(Value()));
      if view.equity > view.maintenanceMargin || positionMilli == 0 { return; }
      CloseOut();
    }

    /** Cancels every working order and sells or buys back the whole position at market. */
    method CloseOut()
      requires Valid()
      modifies this
      ensures Valid() && Value() == Liquidate(old(Value()))
    {
      hide Mark2Market, View, CancelWorking;
      CancelAll(LiquidationCancel);
      var liquidation := LiquidationOrder(Value());
      nextOrderId := nextOrderId + 1;
      orders := orders + [liquidation];
      Fill(|orders| - 1, ExecutionPrice(Value(), liquidation.side), true);
      status := Liquidated;
    }

    method CloseOrder(index: nat, closedAs: OrderStatus, reason: ReasonCode)
      requires index < |orders|
      modifies this
      ensures Value() == Close1(old(Value()), index, closedAs, reason)
    {
      orders := orders[index := orders[index].(status := closedAs, reason := reason)];
    }

    method CancelAll(reason: ReasonCode)
      requires Valid()
      modifies this
      ensures Value() == old(Value()).(orders := CancelWorking(old(orders), reason))
    {
      var i := 0;
      while i < |orders|
        invariant i <= |orders| == old(|orders|) && Value() == old(Value()).(orders := orders)
        invariant forall j :: 0 <= j < i ==> orders[j] == CancelWorking(old(orders), reason)[j]
        invariant forall j :: i <= j < |orders| ==> orders[j] == old(orders)[j]
      {
        if orders[i].status.Working? {
          CloseOrder(i, Canceled, reason);
        }
        i := i + 1;
      }
      assert orders == CancelWorking(old(orders), reason);
    }
  }
}
