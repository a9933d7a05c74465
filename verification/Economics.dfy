/** Fees, realized P&L and exactly-once funding, posted to the ledger. */
module Economics {
  import opened Common
  import opened Numeric
  import opened FacadeTypes
  import opened Ledger
  import opened Execution
  import opened Risk

  datatype EconomicsError =
    | InvalidIdentity | ScheduledConflict | EconNumeric(numeric: NumericError) | EconLedger(ledger: LedgerError)

  datatype Fingerprint = Fingerprint(eventSeq: u64, kind: string, account: Account, cashDelta: i64)

  /** Scheduled events already posted, by identity. */
  type Posted = map<ScheduledId, Fingerprint>

  function LiftNumber<T>(r: Result<T, NumericError>): Result<T, EconomicsError> {
    match r case Ok(v) => Ok(v) case Err(e) => Err(EconNumeric(e))
  }

  /** A cash movement against one offsetting account. */
  function CashFlow(eventSeq: u64, kind: string, account: Account, delta: i64): NewTransaction
    requires IsI64(Neg(delta))
  {
    NewTransaction(eventSeq, kind, [Posting(Cash, delta), Posting(account, Neg(delta))])
  }

  function PostCashFlow(l: LedgerState, eventSeq: u64, kind: string, account: Account, delta: i64)
    : Result<LedgerState, EconomicsError>
  {
    if !IsI64(Neg(delta)) then Err(EconNumeric(Overflow))
    else
      var r := Record(l, CashFlow(eventSeq, kind, account, delta));
      if r.Err? then Err(EconLedger(r.error)) else Ok(r.value.0)
  }

  function ExecutionFee(quantity: u64, price: i64, rate: i64, m: ContractMath): Result<i64, EconomicsError> {
    var notional :- LiftNumber(LinearNotional(quantity, price, m, m.rounding));
    var absolute :- LiftNumber(CheckedI64(Abs(notional)));
    LiftNumber(ApplyRatePpb(absolute, rate, m.rounding))
  }

  function PostExecutionFee(l: LedgerState, eventSeq: u64, quantity: u64, price: i64, rate: i64, role: Role, m: ContractMath)
    : Result<(LedgerState, i64), EconomicsError>
  {
    var fee :- ExecutionFee(quantity, price, rate, m);
    if !IsI64(Neg(fee)) then Err(EconNumeric(Overflow))
    else
      var next :- PostCashFlow(l, eventSeq, if role.Maker? then "MAKER_FEE" else "TAKER_FEE", Fees, Neg(fee));
      Ok((next, fee))
  }

  /** Posts one funding payment; an exact retry posts nothing, a changed one is refused. */
  function PostFunding(posted: Posted, l: LedgerState, id: ScheduledId, eventSeq: u64, delta: i64)
    : Result<(Posted, LedgerState, bool), EconomicsError>
  {
    var entry := Fingerprint(eventSeq, "FUNDING", Funding, delta);
    if id in posted then
      if posted[id] == entry then Ok((posted, l, false)) else Err(ScheduledConflict)
    else
      var next :- PostCashFlow(l, eventSeq, "FUNDING", Funding, delta);
      Ok((posted[id := entry], next, true))
  }

  /** A cash flow moves cash by its amount, the offset account by its negation, and nothing else. */
  lemma CashFlowEffect(l: LedgerState, eventSeq: u64, kind: string, account: Account, delta: i64)
    requires account != Cash && PostCashFlow(l, eventSeq, kind, account, delta).Ok?
    ensures var after := PostCashFlow(l, eventSeq, kind, account, delta).value.balances;
            && Total(after) == Total(l.balances)
            && Balance(after, Cash) == Balance(l.balances, Cash) + delta
            && Balance(after, account) == Balance(l.balances, account) - delta
            && forall a :: a != Cash && a != account ==> Balance(after, a) == Balance(l.balances, a)
  {
    var t := CashFlow(eventSeq, kind, account, delta);
    RecordBalances(l, t);
    forall a ensures Net(t.postings, a) == (if a == Cash then delta else 0) - (if a == account then delta else 0) {
      NetOfTwo(t.postings[0], t.postings[1], a);
      assert t.postings == [t.postings[0], t.postings[1]];
    }
  }

  lemma NetOfTwo(p: Posting, q: Posting, a: Account)
    ensures Net([p, q], a) == (if p.account == a then p.amount else 0) + (if q.account == a then q.amount else 0)
  {
    var two := [p, q];
    assert two[..1] == [p] && [p][..0] == [] && two[1] == q;
    assert Net([], a) == 0;
    assert Net([p], a) == if p.account == a then p.amount else 0;
  }

  // ---------------------------------------------------------- sums over identities

  /** Cash posted over all distinct scheduled identities. */
  ghost function TotalPosted(posted: Posted): int {
    if posted == map[] then 0
    else var id :| id in posted; posted[id].cashDelta + TotalPosted(posted - {id})
  }

  lemma {:induction false} TotalPostedRemove(posted: Posted, id: ScheduledId)
    requires id in posted
    ensures TotalPosted(posted) == posted[id].cashDelta + TotalPosted(posted - {id})
    decreases |posted|
  {
    var picked :| picked in posted && TotalPosted(posted) == posted[picked].cashDelta + TotalPosted(posted - {picked});
    if picked != id {
      var without := posted - {picked};
      TotalPostedRemove(without, id);
      assert without - {id} == (posted - {id}) - {picked};
      TotalPostedRemove(posted - {id}, picked);
    }
  }

  lemma TotalPostedInsert(posted: Posted, id: ScheduledId, entry: Fingerprint)
    requires id !in posted
    ensures TotalPosted(posted[id := entry]) == TotalPosted(posted) + entry.cashDelta
  {
    TotalPostedRemove(posted[id := entry], id);
    assert posted[id := entry] - {id} == posted;
  }
}
