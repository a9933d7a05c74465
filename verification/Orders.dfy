/** The order lifecycle.  Identifiers are assigned densely from zero, so the
    id-keyed collection is a sequence indexed by id, iterated in id order. */
module Orders {
  import opened Common
  import opened Numeric
  import opened Bytes

  datatype Side = Buy | Sell
  datatype TimeInForce = Gtc | Ioc | Fok
  datatype OrderKind =
    | Market
    | Limit(limitPrice: i64)
    | StopMarket(stopPrice: i64)
    | StopLimit(stopPrice: i64, limitPrice: i64)
  datatype OrderStatus = Dormant | Working | PartiallyFilled | Filled | Cancelled | Rejected

  datatype TopOfBook = TopOfBook(bid: i64, ask: i64)

  datatype NewOrder = NewOrder(
    clientOrderId: Text, instrumentId: Text, side: Side, quantity: u64, kind: OrderKind,
    timeInForce: TimeInForce, reduceOnly: bool, postOnly: bool, marketableOnly: bool,
    submittedAt: u64)

  datatype Order = Order(
    id: u64, clientOrderId: Text, instrumentId: Text, side: Side, quantity: u64, filled: u64,
    kind: OrderKind, timeInForce: TimeInForce, reduceOnly: bool, postOnly: bool,
    marketableOnly: bool, submittedAt: u64, revision: u64, status: OrderStatus)

  datatype ReplaceOrder = ReplaceOrder(quantity: u64, kind: OrderKind)

  datatype OrderError =
    | ZeroQuantity | InvalidPrice | InvalidQuote | ConflictingLiquidityConstraints
    | PostOnlyMarketOrder | QuoteRequired | PostOnlyWouldTake | MarketableOnlyWouldRest
    | ReduceOnlyWrongSide | ReduceOnlyCapacityExhausted | UnknownOrder | InvalidState
    | ReplaceBelowFilled | Overfill | PartialFokFill | NotImmediateOrder
    | ImmediateOrderRequiresAtomicExecution | CounterOverflow

  type OrderState = seq<Order>

  predicate Terminal(s: OrderStatus) {
    s.Filled? || s.Cancelled? || s.Rejected?
  }

  predicate IsStop(k: OrderKind) {
    k.StopMarket? || k.StopLimit?
  }

  predicate Executable(o: Order) {
    o.status.Working? || o.status.PartiallyFilled?
  }

  function Remaining(o: Order): int {
    o.quantity - o.filled
  }

  function MakeTopOfBook(bid: i64, ask: i64): Result<TopOfBook, OrderError> {
    if bid <= 0 || ask <= 0 || bid >= ask then Err(InvalidQuote) else Ok(TopOfBook(bid, ask))
  }

  // ------------------------------------------------------------- validation

  function ValidateKind(k: OrderKind): Option<OrderError> {
    var valid := match k
      case Market => true
      case Limit(l) => l > 0
      case StopMarket(s) => s > 0
      case StopLimit(s, l) => s > 0 && l > 0;
    if valid then None else Some(InvalidPrice)
  }

  function ValidateRequest(r: NewOrder): Option<OrderError> {
    if r.quantity == 0 then Some(ZeroQuantity)
    else if r.clientOrderId == [] || r.instrumentId == [] then Some(InvalidState)
    else if r.postOnly && r.marketableOnly then Some(ConflictingLiquidityConstraints)
    else if ValidateKind(r.kind).Some? then ValidateKind(r.kind)
    else if r.postOnly && (r.kind.Market? || r.kind.StopMarket?) then Some(PostOnlyMarketOrder)
    else None
  }

  predicate IsMarketable(side: Side, k: OrderKind, quote: TopOfBook) {
    match k
    case Market => true
    case StopMarket(_) => false
    case Limit(l) => if side.Buy? then l >= quote.ask else l <= quote.bid
    case StopLimit(_, l) => if side.Buy? then l >= quote.ask else l <= quote.bid
  }

  function LiquidityConstraint(side: Side, k: OrderKind, postOnly: bool, marketableOnly: bool,
                               quote: Option<TopOfBook>): Option<OrderError>
  {
    if IsStop(k) || (!postOnly && !marketableOnly) then None
    else if quote.None? then Some(QuoteRequired)
    else
      var marketable := IsMarketable(side, k, quote.value);
      if postOnly && marketable then Some(PostOnlyWouldTake)
      else if marketableOnly && !marketable then Some(MarketableOnlyWouldRest)
      else None
  }

  // ---------------------------------------------------- reduce-only capacity

  /** What one order reserves of the reducible exposure. */
  function Reserves(o: Order, instrument: Text, side: Side, excluding: Option<int>): int {
    if Some(o.id) != excluding && o.instrumentId == instrument && o.side == side
       && o.reduceOnly && !Terminal(o.status)
    then Remaining(o) else 0
  }

  function ReservesOf(instrument: Text, side: Side, excluding: Option<int>): Order -> int {
    o => Reserves(o, instrument, side, excluding)
  }

  predicate Reduces(side: Side, position: int) {
    (position > 0 && side.Sell?) || (position < 0 && side.Buy?)
  }

  function ReduceOnlyQuantity(os: OrderState, instrument: Text, side: Side, requested: int,
                              position: int, excluding: Option<int>): Result<int, OrderError>
  {
    if !Reduces(side, position) then Err(ReduceOnlyWrongSide)
    else
      var reserved := SumOf(os, ReservesOf(instrument, side, excluding));
      if reserved > U64_MAX then Err(CounterOverflow)
      else
        var available := Max(0, Abs(position) - reserved);
        if available == 0 then Err(ReduceOnlyCapacityExhausted) else Ok(Min(requested, available))
  }

  // -------------------------------------------------------------- operations

  /** Live orders hold between zero and their whole quantity. */
  ghost predicate Sound(os: OrderState) {
    forall i :: 0 <= i < |os| ==> os[i].id == i && os[i].filled <= os[i].quantity
  }

  lemma {:induction false} ReservedIsNonNegative(os: OrderState, instrument: Text, side: Side, excluding: Option<int>)
    requires forall i :: 0 <= i < |os| ==> os[i].filled <= os[i].quantity
    ensures 0 <= SumOf(os, ReservesOf(instrument, side, excluding))
  {
    SumBounds(os, ReservesOf(instrument, side, excluding), ReservesOf(instrument, side, excluding));
  }

  function AcceptedQuantity(os: OrderState, instrument: Text, side: Side, reduceOnly: bool, requested: u64,
                            position: int, excluding: Option<int>): (r: Result<u64, OrderError>)
    requires Sound(os)
    ensures r.Ok? ==> r.value <= requested && (requested > 0 ==> r.value > 0)
  {
    if reduceOnly then
      ReservedIsNonNegative(os, instrument, side, excluding);
      var q :- ReduceOnlyQuantity(os, instrument, side, requested, position, excluding);
      Ok(q)
    else Ok(requested)
  }

  datatype SubmitOutcome = SubmitOutcome(orderId: u64, accepted: u64, requested: u64)

  function Submit(os: OrderState, r: NewOrder, position: int, quote: Option<TopOfBook>)
    : Result<(OrderState, SubmitOutcome), OrderError>
    requires Sound(os)
  {
    if ValidateRequest(r).Some? then Err(ValidateRequest(r).value)
    else
      var refused := LiquidityConstraint(r.side, r.kind, r.postOnly, r.marketableOnly, quote);
      if refused.Some? then Err(refused.value)
      else
        var accepted :- AcceptedQuantity(os, r.instrumentId, r.side, r.reduceOnly, r.quantity, position, None);
        if |os| + 1 > U64_MAX then Err(CounterOverflow)
        else
          var o := Order(|os|, r.clientOrderId, r.instrumentId, r.side, accepted, 0, r.kind,
                         r.timeInForce, r.reduceOnly, r.postOnly, r.marketableOnly, r.submittedAt, 0,
                         if IsStop(r.kind) then Dormant else Working);
          Ok((os + [o], SubmitOutcome(|os|, accepted, r.quantity)))
  }

  function Cancel(os: OrderState, id: nat): Result<OrderState, OrderError> {
    if id >= |os| then Err(UnknownOrder)
    else if Terminal(os[id].status) then Err(InvalidState)
    else Ok(os[id := os[id].(status := Cancelled)])
  }

  function LiveStatus(filled: int): OrderStatus {
    if filled == 0 then Working else PartiallyFilled
  }

  function Replace(os: OrderState, id: nat, r: ReplaceOrder, position: int, quote: Option<TopOfBook>)
    : Result<(OrderState, u64), OrderError>
    requires Sound(os)
  {
    if id >= |os| then Err(UnknownOrder)
    else
      var o := os[id];
      if Terminal(o.status) then Err(InvalidState)
      else if r.quantity == 0 then Err(ZeroQuantity)
      else if ValidateKind(r.kind).Some? then Err(ValidateKind(r.kind).value)
      else if r.quantity < o.filled then Err(ReplaceBelowFilled)
      else
        var refused := LiquidityConstraint(o.side, r.kind, o.postOnly, o.marketableOnly, quote);
        if refused.Some? then Err(refused.value)
        else if r.quantity == o.filled then Err(ReplaceBelowFilled)
        else
          var remaining :- AcceptedQuantity(os, o.instrumentId, o.side, o.reduceOnly,
                                            r.quantity - o.filled, position, Some(id));
          if o.revision + 1 > U64_MAX then Err(CounterOverflow)
          else
            var total := o.filled + remaining;
            Ok((os[id := o.(quantity := total, kind := r.kind, revision := o.revision + 1,
                            status := if IsStop(r.kind) then Dormant else LiveStatus(o.filled))],
                total))
  }

  /** Adds a fill to one order, never past its quantity. */
  function ApplyFill(o: Order, quantity: u64, allowFok: bool): Result<Order, OrderError>
    requires o.filled <= o.quantity
  {
    if quantity == 0 then Ok(o)
    else if quantity > Remaining(o) then Err(Overfill)
    else if o.timeInForce.Fok? && quantity != Remaining(o) && !allowFok then Err(PartialFokFill)
    else
      var filled := o.filled + quantity;
      Ok(o.(filled := filled, status := if filled == o.quantity then Filled else PartiallyFilled))
  }

  function RecordFill(os: OrderState, id: nat, quantity: u64): Result<OrderState, OrderError>
    requires Sound(os)
  {
    if id >= |os| then Err(UnknownOrder)
    else if !Executable(os[id]) then Err(InvalidState)
    else if !os[id].timeInForce.Gtc? then Err(ImmediateOrderRequiresAtomicExecution)
    else
      var o :- ApplyFill(os[id], quantity, false);
      Ok(os[id := o])
  }

  /** One complete liquidity attempt against an IOC or FOK order; also says how much filled. */
  function ExecuteImmediate(os: OrderState, id: nat, available: u64): Result<(OrderState, u64), OrderError>
    requires Sound(os)
  {
    if id >= |os| then Err(UnknownOrder)
    else
      var o := os[id];
      if !Executable(o) then Err(InvalidState)
      else if o.timeInForce.Gtc? then Err(NotImmediateOrder)
      else if o.timeInForce.Fok? then
        if available < Remaining(o) then Ok((os[id := o.(status := Cancelled)], 0))
        else
          var filled :- ApplyFill(o, Remaining(o), true);
          Ok((os[id := filled], Remaining(o)))
      else
        var fillable := Min(available, Remaining(o));
        var filled :- ApplyFill(o, fillable, true);
        Ok((os[id := if Terminal(filled.status) then filled else filled.(status := Cancelled)], fillable))
  }

  datatype TriggerOutcome = NotTriggered | Activated | TriggerRejected

  function Converted(k: OrderKind): OrderKind
    requires IsStop(k)
  {
    if k.StopMarket? then Market else Limit(k.limitPrice)
  }

  function TriggerStop(os: OrderState, id: nat, price: i64, quote: Option<TopOfBook>)
    : Result<(OrderState, TriggerOutcome), OrderError>
  {
    if price <= 0 then Err(InvalidPrice)
    else if id >= |os| then Err(UnknownOrder)
    else
      var o := os[id];
      if !o.status.Dormant? || !IsStop(o.kind) then Err(InvalidState)
      else if !(if o.side.Buy? then price >= o.kind.stopPrice else price <= o.kind.stopPrice)
        then Ok((os, NotTriggered))
      else
        var k := Converted(o.kind);
        if LiquidityConstraint(o.side, k, o.postOnly, o.marketableOnly, quote).Some?
        then Ok((os[id := o.(status := Rejected)], TriggerRejected))
        else Ok((os[id := o.(kind := k, status := LiveStatus(o.filled))], Activated))
  }

  // -------------------------------------------------------------- whole runs

  datatype OrderOp =
    | OpSubmit(request: NewOrder, quote: Option<TopOfBook>)
    | OpCancel(id: nat)
    | OpReplace(id: nat, replacement: ReplaceOrder, quote: Option<TopOfBook>)
    | OpFill(id: nat, quantity: u64)
    | OpImmediate(id: nat, available: u64)
    | OpTrigger(id: nat, price: i64, quote: Option<TopOfBook>)

  /** One operation; a refused one leaves the collection as it was. */
  function OrderStep(os: OrderState, op: OrderOp, position: int): OrderState
    requires Sound(os)
  {
    match op
    case OpSubmit(r, q) => var x := Submit(os, r, position, q); if x.Ok? then x.value.0 else os
    case OpCancel(id) => var x := Cancel(os, id); if x.Ok? then x.value else os
    case OpReplace(id, r, q) => var x := Replace(os, id, r, position, q); if x.Ok? then x.value.0 else os
    case OpFill(id, n) => var x := RecordFill(os, id, n); if x.Ok? then x.value else os
    case OpImmediate(id, n) => var x := ExecuteImmediate(os, id, n); if x.Ok? then x.value.0 else os
    case OpTrigger(id, p, q) => var x := TriggerStop(os, id, p, q); if x.Ok? then x.value.0 else os
  }
}
