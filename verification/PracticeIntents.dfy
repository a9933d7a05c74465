/** What the player's intents achieve. */
module PracticeIntents {
  import opened Common
  import opened Practice
  import opened PracticeInvariants
  import opened PracticeMargin

  /** A market order of quantity q on the closing side, capped or exact, takes the position to zero. */
  lemma ClosingFillFlattens(s: State, i: nat, price: int)
    requires WellFormed(s) && i < |s.orders| && s.position != 0
    requires s.orders[i].side == ClosingSide(s.position) && s.orders[i].reduceOnly
    requires s.orders[i].remaining == Abs(s.position)
    ensures FillOrder(s, i, price, true).position == 0
  {
  }

  lemma FlatNeverLiquidates(s: State)
    requires WellFormed(s) && s.position == 0
    ensures UpdateRisk(s) == Mark2Market(s)
  {
  }

  /** Close at market flattens any open position, at any mark and however little equity is left. */
  lemma CloseFlattens(s: State, r: OrderRequest)
    requires WellFormed(s) && s.status.Active? && Validate(r).None? && r.intent.Close? && r.mode.Market?
    ensures var t := SubmitOrder(s, r).0;
            t.position == 0 && t.status.Active? && (s.position == 0 ==> t.realized == s.realized && t.fees == s.fees)
  {
    hide FillOrder, UpdateRisk, Mark2Market;
    var o := NewOrder(s, r);
    var open := Append(s, o);
    if s.position != 0 {
      ClosingFillFlattens(open, |s.orders|, ExecutionPrice(open, o.side));
      FlatNeverLiquidates(TakeIfMarketable(open));
      MarkKeeps(TakeIfMarketable(open));
    }
  }

  lemma MarkKeeps(s: State)
    requires WellFormed(s)
    ensures Mark2Market(s).position == s.position && Mark2Market(s).status == s.status
  {
  }

  lemma ReversingFillFlips(s: State, i: nat, price: int, q: int)
    requires WellFormed(s) && i < |s.orders| && s.position != 0 && q > 0
    requires s.orders[i].side == ClosingSide(s.position) && !s.orders[i].reduceOnly
    requires s.orders[i].remaining == Abs(s.position) + q
    ensures var after := FillOrder(s, i, price, true).position;
            after == s.position || after == -(Sign(s.position) * q)
  {
  }

  lemma SurvivorKeepsPosition(s: State)
    requires WellFormed(s) && UpdateRisk(s).status.Active?
    ensures UpdateRisk(s).position == s.position
  {
  }

  /** Reverse at market ends with exactly the requested quantity on the other side, or is refused whole. */
  lemma ReverseFlips(s: State, r: OrderRequest)
    requires Invariant(s) && s.status.Active? && s.position != 0 && Mark(s) >= SAFE_MARK_CENTS
    requires Validate(r).None? && r.intent.Reverse? && r.mode.Market? && !r.reduceOnly
    ensures var after := SubmitOrder(s, r).0.position;
            after == s.position || after == -(Sign(s.position) * r.quantity)
  {
    PlayerOrderNeverLiquidates(s, r);
    hide FillOrder, UpdateRisk, Mark2Market;
    var o := NewOrder(s, r);
    var open := Append(s, o);
    ReversingFillFlips(open, |s.orders|, ExecutionPrice(open, o.side), r.quantity);
    SurvivorKeepsPosition(TakeIfMarketable(open));
  }
}
