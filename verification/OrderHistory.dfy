/** What becomes of an order over any run of operations: its identity stays, its fills only grow,
    and once terminal it never changes again. */
module OrderHistory {
  import opened Common
  import opened Numeric
  import opened Orders
  import opened OrderInvariants

  predicate SameIdentity(o: Order, p: Order) {
    && p.id == o.id && p.clientOrderId == o.clientOrderId && p.instrumentId == o.instrumentId && p.side == o.side
    && p.timeInForce == o.timeInForce && p.reduceOnly == o.reduceOnly && p.postOnly == o.postOnly
    && p.marketableOnly == o.marketableOnly && p.submittedAt == o.submittedAt
  }

  /** Without a replacement, the quantity stays and the kind changes at most from stop to what it converts to. */
  predicate SameTerms(o: Order, p: Order) {
    p.quantity == o.quantity && (p.kind == o.kind || (IsStop(o.kind) && p.kind == Converted(o.kind)))
  }

  /** What an order may become. */
  predicate Descends(o: Order, p: Order) {
    && SameIdentity(o, p) && o.filled <= p.filled && o.revision <= p.revision
    && (p.revision == o.revision ==> SameTerms(o, p))
    && (Terminal(o.status) ==> p == o)
  }

  predicate Grows(os: OrderState, ps: OrderState) {
    |os| <= |ps| && forall i :: 0 <= i < |os| ==> Descends(os[i], ps[i])
  }

  lemma GrowsBy(os: OrderState, id: nat, p: Order)
    requires id < |os| && Descends(os[id], p)
    ensures Grows(os, os[id := p])
  {
  }

  lemma StepGrows(os: OrderState, op: OrderOp, position: int)
    requires Lifecycle(os)
    ensures Grows(os, OrderStep(os, op, position))
  {
    hide Consistent, Disciplined, Grows;
    var next := OrderStep(os, op, position);
    Unchanged(os);
    match op {
      case OpSubmit(r, q) => if next != os { Appended(os, next); }
      case OpCancel(id) => if next != os { GrowsBy(os, id, next[id]); }
      case OpReplace(id, r, q) => if next != os { GrowsBy(os, id, next[id]); }
      case OpFill(id, n) => if next != os { GrowsBy(os, id, next[id]); }
      case OpImmediate(id, n) => ImmediateGrows(os, id, n);
      case OpTrigger(id, p, q) => if next != os { GrowsBy(os, id, next[id]); }
    }
  }

  lemma Unchanged(os: OrderState)
    ensures Grows(os, os)
  {
  }

  lemma Appended(os: OrderState, ps: OrderState)
    requires os <= ps
    ensures Grows(os, ps)
  {
  }

  lemma ImmediateGrows(os: OrderState, id: nat, available: u64)
    requires Lifecycle(os)
    ensures var x := ExecuteImmediate(os, id, available); x.Ok? ==> Grows(os, x.value.0)
  {
    hide Consistent, Disciplined, Grows, Descends, ApplyFill;
    var x := ExecuteImmediate(os, id, available);
    if x.Ok? {
      var o := os[id];
      FilledDescends(o, Remaining(o));
      FilledDescends(o, Min(available, Remaining(o)));
      CancelledDescends(o);
      GrowsBy(os, id, x.value.0[id]);
    }
  }

  lemma FilledDescends(o: Order, quantity: int)
    requires o.filled <= o.quantity && !Terminal(o.status) && 0 <= quantity <= Remaining(o)
    ensures var x := ApplyFill(o, quantity, true);
            x.Ok? ==> Descends(o, x.value) && Descends(o, x.value.(status := Cancelled))
  {
  }

  lemma CancelledDescends(o: Order)
    requires !Terminal(o.status)
    ensures Descends(o, o.(status := Cancelled))
  {
  }

  lemma GrowsTransitive(os: OrderState, ps: OrderState, qs: OrderState)
    requires Grows(os, ps) && Grows(ps, qs)
    ensures Grows(os, qs)
  {
    forall i | 0 <= i < |os| ensures Descends(os[i], qs[i]) {
      assert Descends(os[i], ps[i]) && Descends(ps[i], qs[i]);
    }
  }

  /** Over every run no order disappears, changes identity, loses a fill, or moves after it ended. */
  lemma {:induction false} RunGrows(os: OrderState, ops: seq<(OrderOp, int)>)
    requires Lifecycle(os)
    ensures Grows(os, RunOrders(os, ops))
    decreases |ops|
  {
    hide Grows, Consistent, Disciplined, OrderStep;
    if ops == [] {
      Unchanged(os);
    } else {
      var next := OrderStep(os, ops[0].0, ops[0].1);
      StepKeepsLifecycle(os, ops[0].0, ops[0].1);
      StepGrows(os, ops[0].0, ops[0].1);
      RunGrows(next, ops[1..]);
      GrowsTransitive(os, next, RunOrders(next, ops[1..]));
    }
  }
}
