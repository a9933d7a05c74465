/** What every run of order operations keeps. */
module OrderInvariants {
  import opened Common
  import opened Numeric
  import opened Bytes
  import opened Orders

  /** Status, kind, fill count and time in force agree. */
  ghost predicate Consistent(o: Order) {
    && 0 < o.quantity && o.filled <= o.quantity && ValidateKind(o.kind).None?
    && !(o.postOnly && o.marketableOnly)
    && match o.status
       case Dormant => IsStop(o.kind) && o.filled < o.quantity
       case Working => !IsStop(o.kind) && o.filled == 0
       case PartiallyFilled => !IsStop(o.kind) && 0 < o.filled < o.quantity
       case Filled => !IsStop(o.kind) && o.filled == o.quantity
       case Cancelled => o.filled < o.quantity
       case Rejected => IsStop(o.kind) && o.filled < o.quantity
  }

  /** FOK fills are none or all, IOC fills end the order, live post-only orders are limits. */
  ghost predicate Disciplined(o: Order) {
    && (o.timeInForce.Fok? ==> o.filled == 0 || o.filled == o.quantity)
    && (!o.timeInForce.Gtc? && o.filled > 0 ==> Terminal(o.status))
    && (o.postOnly && Executable(o) ==> o.kind.Limit?)
  }

  ghost predicate Lifecycle(os: OrderState) {
    Sound(os) && forall i :: 0 <= i < |os| ==> Consistent(os[i]) && Disciplined(os[i])
  }

  /** The live reduce-only quantity on each side fits the exposure it may reduce. */
  ghost predicate WithinExposure(os: OrderState, position: int) {
    forall instrument: Text, side: Side ::
      SumOf(os, ReservesOf(instrument, side, None)) <= if Reduces(side, position) then Abs(position) else 0
  }

  // ------------------------------------------------------------- one operation

  lemma SubmitKeeps(os: OrderState, r: NewOrder, position: int, quote: Option<TopOfBook>)
    requires Lifecycle(os)
    ensures var x := Submit(os, r, position, quote); x.Ok? ==> Lifecycle(x.value.0)
  {
  }

  lemma ReplaceKeeps(os: OrderState, id: nat, r: ReplaceOrder, position: int, quote: Option<TopOfBook>)
    requires Lifecycle(os)
    ensures var x := Replace(os, id, r, position, quote); x.Ok? ==> Lifecycle(x.value.0)
  {
  }

  lemma ImmediateKeeps(os: OrderState, id: nat, available: u64)
    requires Lifecycle(os)
    ensures var x := ExecuteImmediate(os, id, available); x.Ok? ==> Lifecycle(x.value.0)
  {
    hide ValidateKind;
  }

  lemma TriggerKeeps(os: OrderState, id: nat, price: i64, quote: Option<TopOfBook>)
    requires Lifecycle(os)
    ensures var x := TriggerStop(os, id, price, quote); x.Ok? ==> Lifecycle(x.value.0)
  {
  }

  lemma StepKeepsLifecycle(os: OrderState, op: OrderOp, position: int)
    requires Lifecycle(os)
    ensures Lifecycle(OrderStep(os, op, position))
  {
    match op {
      case OpSubmit(r, q) => SubmitKeeps(os, r, position, q);
      case OpCancel(id) =>
      case OpReplace(id, r, q) => ReplaceKeeps(os, id, r, position, q);
      case OpFill(id, n) =>
      case OpImmediate(id, n) => ImmediateKeeps(os, id, n);
      case OpTrigger(id, p, q) => TriggerKeeps(os, id, p, q);
    }
  }

  // ------------------------------------------------------ reduce-only exposure

  lemma {:induction false} ExcludingOne(os: OrderState, instrument: Text, side: Side, id: nat)
    requires Sound(os) && id < |os|
    ensures SumOf(os, ReservesOf(instrument, side, None))
            == SumOf(os, ReservesOf(instrument, side, Some(id))) + Reserves(os[id], instrument, side, None)
  {
    var gone := os[id].(status := Cancelled);
    SumUpdate(os, ReservesOf(instrument, side, None), id, gone);
    SumSame(os[id := gone], ReservesOf(instrument, side, None), os, ReservesOf(instrument, side, Some(id)));
  }

  /** Replacing one order by one that reserves no more keeps the bound. */
  lemma ShrinkKeeps(os: OrderState, id: nat, o: Order, position: int)
    requires WithinExposure(os, position) && id < |os|
    requires o.instrumentId == os[id].instrumentId && o.side == os[id].side && o.reduceOnly == os[id].reduceOnly
    requires Terminal(os[id].status) ==> Terminal(o.status)
    requires o.filled <= o.quantity && (!Terminal(o.status) ==> Remaining(o) <= Remaining(os[id]))
    requires os[id].filled <= os[id].quantity && o.id == os[id].id
    ensures WithinExposure(os[id := o], position)
  {
    forall instrument: Text, side: Side
      ensures SumOf(os[id := o], ReservesOf(instrument, side, None))
              <= if Reduces(side, position) then Abs(position) else 0
    {
      SumUpdate(os, ReservesOf(instrument, side, None), id, o);
    }
  }

  /** A reduce-only request is refused exactly when the exposure has no room left on its side, and
      is otherwise accepted for the largest quantity that still fits. */
  lemma ReduceOnlyAcceptsTheMost(os: OrderState, instrument: Text, side: Side, requested: u64, position: i64,
                                 excluding: Option<int>, q: int)
    requires Sound(os) && requested > 0
    ensures var r := AcceptedQuantity(os, instrument, side, true, requested, position, excluding);
            var reserved := SumOf(os, ReservesOf(instrument, side, excluding));
            && (r.Err? <==> !Reduces(side, position) || Abs(position) <= reserved)
            && (r.Ok? ==> (q <= r.value <==> q <= requested && reserved + q <= Abs(position)))
  {
    ReservedIsNonNegative(os, instrument, side, excluding);
  }

  lemma SubmitWithinExposure(os: OrderState, r: NewOrder, position: int, quote: Option<TopOfBook>)
    requires Sound(os) && WithinExposure(os, position)
    ensures var x := Submit(os, r, position, quote); x.Ok? ==> WithinExposure(x.value.0, position)
  {
    var x := Submit(os, r, position, quote);
    if x.Ok? {
      var o := x.value.0[|os|];
      assert x.value.0 == os + [o];
      forall instrument: Text, side: Side
        ensures SumOf(os + [o], ReservesOf(instrument, side, None))
                <= if Reduces(side, position) then Abs(position) else 0
      {
        SumAppend(os, ReservesOf(instrument, side, None), o);
        ReservedIsNonNegative(os, instrument, side, None);
      }
    }
  }

  lemma ReplaceWithinExposure(os: OrderState, id: nat, r: ReplaceOrder, position: int, quote: Option<TopOfBook>)
    requires Sound(os) && WithinExposure(os, position)
    ensures var x := Replace(os, id, r, position, quote); x.Ok? ==> WithinExposure(x.value.0, position)
  {
    var x := Replace(os, id, r, position, quote);
    if x.Ok? {
      var o := x.value.0[id];
      assert x.value.0 == os[id := o];
      forall instrument: Text, side: Side
        ensures SumOf(os[id := o], ReservesOf(instrument, side, None))
                <= if Reduces(side, position) then Abs(position) else 0
      {
        SumUpdate(os, ReservesOf(instrument, side, None), id, o);
        ExcludingOne(os, instrument, side, id);
      }
    }
  }

  lemma StepWithinExposure(os: OrderState, op: OrderOp, position: int)
    requires Lifecycle(os) && WithinExposure(os, position)
    ensures WithinExposure(OrderStep(os, op, position), position)
  {
    hide WithinExposure, Consistent, Disciplined;
    match op {
      case OpSubmit(r, q) => SubmitWithinExposure(os, r, position, q);
      case OpReplace(id, r, q) => ReplaceWithinExposure(os, id, r, position, q);
      case OpCancel(id) =>
        var x := Cancel(os, id);
        if x.Ok? { ShrinkKeeps(os, id, x.value[id], position); }
      case OpFill(id, n) =>
        var x := RecordFill(os, id, n);
        if x.Ok? { ShrinkKeeps(os, id, x.value[id], position); }
      case OpImmediate(id, n) => ImmediateWithinExposure(os, id, n, position);
      case OpTrigger(id, p, q) => TriggerWithinExposure(os, id, p, q, position);
    }
  }

  lemma ImmediateWithinExposure(os: OrderState, id: nat, available: u64, position: int)
    requires Lifecycle(os) && WithinExposure(os, position)
    ensures var x := ExecuteImmediate(os, id, available); x.Ok? ==> WithinExposure(x.value.0, position)
  {
    hide WithinExposure, Consistent, Disciplined;
    var x := ExecuteImmediate(os, id, available);
    if x.Ok? {
      assert x.value.0 == os[id := x.value.0[id]];
      ShrinkKeeps(os, id, x.value.0[id], position);
    }
  }

  lemma TriggerWithinExposure(os: OrderState, id: nat, price: i64, quote: Option<TopOfBook>, position: int)
    requires Lifecycle(os) && WithinExposure(os, position)
    ensures var x := TriggerStop(os, id, price, quote); x.Ok? ==> WithinExposure(x.value.0, position)
  {
    hide WithinExposure, Consistent, Disciplined;
    var x := TriggerStop(os, id, price, quote);
    if x.Ok? {
      assert x.value.0 == os[id := x.value.0[id]];
      ShrinkKeeps(os, id, x.value.0[id], position);
    }
  }

  // ------------------------------------------------------------------ whole runs

  /** Each operation meets whatever position the account has by then. */
  ghost function RunOrders(os: OrderState, ops: seq<(OrderOp, int)>): (r: OrderState)
    requires Lifecycle(os)
    ensures Lifecycle(r)
    decreases |ops|
  {
    if ops == [] then os
    else
      StepKeepsLifecycle(os, ops[0].0, ops[0].1);
      RunOrders(OrderStep(os, ops[0].0, ops[0].1), ops[1..])
  }

  lemma EveryRunIsConsistent(ops: seq<(OrderOp, int)>, i: nat)
    requires i < |RunOrders([], ops)|
    ensures var o := RunOrders([], ops)[i]; o.id == i && Consistent(o) && Disciplined(o)
  {
  }

  lemma {:induction false} RunWithinExposure(os: OrderState, ops: seq<(OrderOp, int)>, position: int)
    requires Lifecycle(os) && WithinExposure(os, position)
    requires forall i :: 0 <= i < |ops| ==> ops[i].1 == position
    ensures WithinExposure(RunOrders(os, ops), position)
    decreases |ops|
  {
    if ops != [] {
      StepKeepsLifecycle(os, ops[0].0, position);
      StepWithinExposure(os, ops[0].0, position);
      RunWithinExposure(OrderStep(os, ops[0].0, position), ops[1..], position);
    }
  }

  /** At a fixed position no run over-commits the exposure to reduce-only orders. */
  lemma ReduceOnlyNeverOvercommits(ops: seq<(OrderOp, int)>, position: int, instrument: Text, side: Side)
    requires forall i :: 0 <= i < |ops| ==> ops[i].1 == position
    ensures SumOf(RunOrders([], ops), ReservesOf(instrument, side, None))
            <= if Reduces(side, position) then Abs(position) else 0
  {
    RunWithinExposure([], ops, position);
  }
}
