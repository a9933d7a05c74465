/** No lookahead: nothing the engine does or shows depends on a price that it
    has not revealed.  Every operation commutes with swapping the sealed future. */
module PracticeLookahead {
  import opened Practice

  /** q may replace the path of s without the current price changing. */
  ghost predicate SameMark(s: State, q: seq<int>) {
    WellFormed(s) && |q| == |s.prices| && q[s.cursor] == s.prices[s.cursor]
  }

  /** Equal-length paths that agree through index k. */
  ghost predicate AgreeThrough(p: seq<int>, q: seq<int>, k: nat) {
    |p| == |q| && forall i :: 0 <= i <= k && i < |p| ==> p[i] == q[i]
  }

  lemma FillIgnoresFuture(s: State, q: seq<int>, i: nat, fillPrice: int, taker: bool)
    requires SameMark(s, q) && i < |s.orders|
    ensures FillOrder(s.(prices := q), i, fillPrice, taker) == FillOrder(s, i, fillPrice, taker).(prices := q)
  {
  }

  lemma ProcessOneIgnoresFuture(s: State, q: seq<int>, i: nat)
    requires SameMark(s, q) && i < |s.orders|
    ensures ProcessOne(s.(prices := q), i) == ProcessOne(s, i).(prices := q)
  {
    var o := s.orders[i];
    if o.stop.Some? {
      FillIgnoresFuture(s, q, i, ExecutionPrice(s, o.side), true);
    } else if o.price.Some? {
      FillIgnoresFuture(s, q, i, o.price.value, false);
    }
  }

  lemma {:induction false} ProcessIgnoresFuture(s: State, q: seq<int>, i: nat)
    requires SameMark(s, q) && i <= |s.orders|
    ensures ProcessFrom(s.(prices := q), i) == ProcessFrom(s, i).(prices := q)
    decreases |s.orders| - i
  {
    if i < |s.orders| {
      ProcessOneIgnoresFuture(s, q, i);
      ProcessIgnoresFuture(ProcessOne(s, i), q, i + 1);
    }
  }

  lemma LiquidateIgnoresFuture(s: State, q: seq<int>)
    requires SameMark(s, q)
    ensures Liquidate(s.(prices := q)) == Liquidate(s).(prices := q)
  {
    var o := LiquidationOrder(s);
    var open := Append(s.(orders := CancelWorking(s.orders, LiquidationCancel)), o);
    FillIgnoresFuture(open, q, |s.orders|, ExecutionPrice(open, o.side), true);
  }

  lemma UpdateRiskIgnoresFuture(s: State, q: seq<int>)
    requires SameMark(s, q)
    ensures UpdateRisk(s.(prices := q)) == UpdateRisk(s).(prices := q)
  {
    hide Liquidate, SameFrame;
    LiquidateIgnoresFuture(Mark2Market(s), q);
  }

  lemma TakeIgnoresFuture(s: State, q: seq<int>)
    requires SameMark(s, q) && |s.orders| > 0
    ensures TakeIfMarketable(s.(prices := q)) == TakeIfMarketable(s).(prices := q)
  {
    var n := |s.orders| - 1;
    FillIgnoresFuture(s, q, n, ExecutionPrice(s, s.orders[n].side), true);
  }

  lemma PlaceIgnoresFuture(s: State, q: seq<int>, r: OrderRequest)
    requires SameMark(s, q) && Validate(r).None?
    ensures Place(s.(prices := q), r) == Place(s, r).(prices := q)
  {
    var open := Append(s, NewOrder(s, r));
    assert Append(s.(prices := q), NewOrder(s.(prices := q), r)) == open.(prices := q);
    TakeIgnoresFuture(open, q);
    UpdateRiskIgnoresFuture(TakeIfMarketable(open), q);
  }

  lemma RevealIgnoresFuture(s: State, q: seq<int>)
    requires WellFormed(s) && s.cursor + 1 < |s.prices|
    requires |q| == |s.prices| && q[s.cursor + 1] == s.prices[s.cursor + 1]
    ensures Reveal(s.(prices := q)) == Reveal(s).(prices := q)
  {
    var moved := s.(cursor := s.cursor + 1);
    assert s.(prices := q).(cursor := s.cursor + 1) == moved.(prices := q);
    ProcessIgnoresFuture(moved, q, 0);
    UpdateRiskIgnoresFuture(ProcessFrom(moved, 0), q);
  }

  lemma AdvanceOneIgnoresFuture(s: State, q: seq<int>)
    requires WellFormed(s) && AgreeThrough(s.prices, q, AdvanceOne(s).cursor)
    ensures AdvanceOne(s.(prices := q)) == AdvanceOne(s).(prices := q)
  {
    if s.cursor + 1 < |s.prices| {
      RevealIgnoresFuture(s, q);
    }
  }

  lemma {:induction false} AdvanceManyIgnoresFuture(s: State, q: seq<int>, steps: nat)
    requires WellFormed(s) && AgreeThrough(s.prices, q, AdvanceMany(s, steps).cursor)
    ensures AdvanceMany(s.(prices := q), steps) == AdvanceMany(s, steps).(prices := q)
    decreases steps
  {
    if steps > 0 && s.status.Active? {
      AdvanceOneIgnoresFuture(s, q);
      AdvanceManyIgnoresFuture(AdvanceOne(s), q, steps - 1);
    }
  }

  lemma ViewIgnoresFuture(s: State, q: seq<int>)
    requires WellFormed(s) && AgreeThrough(s.prices, q, s.cursor)
    ensures View(s.(prices := q)) == View(s)
  {
    assert Revealed(q, s.cursor + 1) == Revealed(s.prices, s.cursor + 1);
  }

  lemma StepIgnoresFuture(s: State, q: seq<int>, c: Command)
    requires WellFormed(s) && AgreeThrough(s.prices, q, Step(s, c).0.cursor)
    ensures Step(s.(prices := q), c) == (Step(s, c).0.(prices := q), Step(s, c).1)
  {
    ViewIgnoresFuture(Step(s, c).0, q);
    match c {
      case CmdLeverage(l) =>
        if 1 <= l <= 50 { ViewIgnoresFuture(s.(leverage := l), q); }
      case CmdSubmit(r) =>
        if Validate(r).None? { PlaceIgnoresFuture(s, q, r); }
      case CmdAdvance(n) =>
        if s.status.Active? && 1 <= n <= 8 { AdvanceManyIgnoresFuture(s, q, n); }
    }
  }

  /** Two sessions whose paths agree through the last index that the first one
      reveals answer every command alike, errors included, and end alike. */
  lemma {:induction false} NoLookahead(s: State, q: seq<int>, cs: seq<Command>, k: nat)
    requires WellFormed(s) && AgreeThrough(s.prices, q, k)
    requires Run(s, cs).0.cursor <= k
    ensures Run(s.(prices := q), cs) == (Run(s, cs).0.(prices := q), Run(s, cs).1)
    decreases |cs|
  {
    if cs != [] {
      StepIgnoresFuture(s, q, cs[0]);
      NoLookahead(Step(s, cs[0]).0, q, cs[1..], k);
    }
  }
}
