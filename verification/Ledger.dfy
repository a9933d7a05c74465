/** Double-entry ledger and the postings made by fees, realized P&L and funding. */
module Ledger {
  import opened Common
  import opened Numeric

  datatype Account =
    | Cash | PositionCost | RealizedPnl | Fees | Funding | Borrow | Dividends | SettlementAccount

  /** Deterministic account order. */
  const ACCOUNTS: seq<Account> :=
    [Cash, PositionCost, RealizedPnl, Fees, Funding, Borrow, Dividends, SettlementAccount]

  datatype Posting = Posting(account: Account, amount: i64)
  datatype NewTransaction = NewTransaction(eventSeq: u64, kind: string, postings: seq<Posting>)
  datatype Transaction = Transaction(id: u64, eventSeq: u64, kind: string, postings: seq<Posting>)

  datatype LedgerError = TooFewPostings | EmptyKind | Unbalanced | LedgerOverflow | InvalidLedgerSnapshot

  type Balances = map<Account, i64>
  datatype LedgerState = LedgerState(nextId: u64, balances: Balances, transactions: seq<Transaction>)
  datatype LedgerSnapshot = LedgerSnapshot(nextId: u64, balances: seq<(Account, i64)>)

  function Balance(b: Balances, a: Account): i64 {
    if a in b then b[a] else 0
  }

  function SumBalances(b: Balances, accounts: seq<Account>): int {
    if accounts == [] then 0 else Balance(b, accounts[0]) + SumBalances(b, accounts[1..])
  }

  /** The aggregate over all accounts; zero in double-entry books. */
  function Total(b: Balances): int {
    SumBalances(b, ACCOUNTS)
  }

  /** Net effect of postings on one account. */
  function Net(ps: seq<Posting>, a: Account): int {
    if ps == [] then 0
    else Net(ps[..|ps| - 1], a) + (if ps[|ps| - 1].account == a then ps[|ps| - 1].amount else 0)
  }

  function Amount(p: Posting): int { p.amount }

  /** Posts a list one by one, checking every partial sum and balance. */
  function PostAll(b: Balances, ps: seq<Posting>): Result<(Balances, i64), LedgerError> {
    if ps == [] then Ok((b, 0))
    else
      var p := ps[|ps| - 1];
      var (before, sum) :- PostAll(b, ps[..|ps| - 1]);
      if !IsI64(sum + p.amount) || !IsI64(Balance(before, p.account) + p.amount) then Err(LedgerOverflow)
      else Ok((before[p.account := Balance(before, p.account) + p.amount], sum + p.amount))
  }

  function Record(l: LedgerState, t: NewTransaction): Result<(LedgerState, u64), LedgerError> {
    if |t.postings| < 2 then Err(TooFewPostings)
    else if t.kind == "" then Err(EmptyKind)
    else
      var (balances, sum) :- PostAll(l.balances, t.postings);
      if sum != 0 then Err(Unbalanced)
      else if l.nextId == U64_MAX then Err(LedgerOverflow)
      else Ok((LedgerState(l.nextId + 1, balances,
                           l.transactions + [Transaction(l.nextId, t.eventSeq, t.kind, t.postings)]),
               l.nextId))
  }

  lemma {:induction false} PostAllTotal(b: Balances, ps: seq<Posting>)
    requires PostAll(b, ps).Ok?
    ensures PostAll(b, ps).value.1 == SumOf(ps, Amount)
    ensures Total(PostAll(b, ps).value.0) == Total(b) + SumOf(ps, Amount)
  {
    if ps != [] {
      var p := ps[|ps| - 1];
      PostAllTotal(b, ps[..|ps| - 1]);
      var before := PostAll(b, ps[..|ps| - 1]).value.0;
      TotalUpdate(before, p.account, Balance(before, p.account) + p.amount);
    }
  }

  lemma {:induction false} PostAllNet(b: Balances, ps: seq<Posting>, a: Account)
    requires PostAll(b, ps).Ok?
    ensures Balance(PostAll(b, ps).value.0, a) == Balance(b, a) + Net(ps, a)
  {
    if ps != [] { PostAllNet(b, ps[..|ps| - 1], a); }
  }

  ghost predicate Distinct(accounts: seq<Account>) {
    forall i, j :: 0 <= i < j < |accounts| ==> accounts[i] != accounts[j]
  }

  lemma {:induction false} SumBalancesUpdate(b: Balances, accounts: seq<Account>, a: Account, v: i64)
    requires Distinct(accounts)
    ensures SumBalances(b[a := v], accounts)
            == SumBalances(b, accounts) + (if a in accounts then v - Balance(b, a) else 0)
  {
    if accounts != [] {
      assert a in accounts <==> a == accounts[0] || a in accounts[1..];
      SumBalancesUpdate(b, accounts[1..], a, v);
    }
  }

  lemma TotalUpdate(b: Balances, a: Account, v: i64)
    ensures Total(b[a := v]) == Total(b) - Balance(b, a) + v
  {
    EveryAccountIsListed(a);
    SumBalancesUpdate(b, ACCOUNTS, a, v);
  }

  lemma EveryAccountIsListed(a: Account)
    ensures a in ACCOUNTS && Distinct(ACCOUNTS)
  {
    match a {
      case Cash => assert ACCOUNTS[0] == a;
      case PositionCost => assert ACCOUNTS[1] == a;
      case RealizedPnl => assert ACCOUNTS[2] == a;
      case Fees => assert ACCOUNTS[3] == a;
      case Funding => assert ACCOUNTS[4] == a;
      case Borrow => assert ACCOUNTS[5] == a;
      case Dividends => assert ACCOUNTS[6] == a;
      case SettlementAccount => assert ACCOUNTS[7] == a;
    }
  }

  /** A committed transaction moves every account by its own postings and keeps the total. */
  lemma RecordBalances(l: LedgerState, t: NewTransaction)
    requires Record(l, t).Ok?
    ensures var after := Record(l, t).value.0;
            && Total(after.balances) == Total(l.balances)
            && SumOf(t.postings, Amount) == 0
            && forall a :: Balance(after.balances, a) == Balance(l.balances, a) + Net(t.postings, a)
  {
    PostAllTotal(l.balances, t.postings);
    forall a ensures Balance(PostAll(l.balances, t.postings).value.0, a) == Balance(l.balances, a) + Net(t.postings, a) {
      PostAllNet(l.balances, t.postings, a);
    }
  }

  lemma {:induction false} PostAllPrefixFails(b: Balances, ps: seq<Posting>, n: nat)
    requires n <= |ps| && PostAll(b, ps[..n]).Err?
    ensures PostAll(b, ps) == PostAll(b, ps[..n])
    decreases |ps| - n
  {
    if n < |ps| {
      assert ps[..n + 1][..n] == ps[..n];
      PostAllPrefixFails(b, ps, n + 1);
    } else {
      assert ps[..n] == ps;
    }
  }

  /** The ledger object; a failed transaction leaves it untouched. */
  class Ledger {
    var nextTransactionId: u64
    var balances: Balances
    var transactions: seq<Transaction>

    function Value(): LedgerState
      reads this
    {
      LedgerState(nextTransactionId, balances, transactions)
    }

    constructor ()
      ensures Value() == LedgerState(0, map[], [])
    {
      nextTransactionId, balances, transactions := 0, map[], [];
    }

    method RecordTransaction(t: NewTransaction) returns (r: Result<u64, LedgerError>)
      modifies this
      ensures var spec := Record(old(Value()), t);
              if spec.Err? then r == Err(spec.error) && Value() == old(Value())
              else r == Ok(spec.value.1) && Value() == spec.value.0
    {
      if |t.postings| < 2 { return Err(TooFewPostings); }
      if t.kind == "" { return Err(EmptyKind); }
      var sum: i64 := 0;
      var next := balances;
      for i := 0 to |t.postings|
        invariant PostAll(balances, t.postings[..i]) == Ok((next, sum))
      {
        var posting := t.postings[i];
        assert t.postings[..i + 1][..i] == t.postings[..i];
        if !IsI64(sum + posting.amount) || !IsI64(Balance(next, posting.account) + posting.amount) {
          PostAllPrefixFails(balances, t.postings, i + 1);
          return Err(LedgerOverflow);
        }
        next := next[posting.account := Balance(next, posting.account) + posting.amount];
        sum := sum + posting.amount;
      }
      assert t.postings[..|t.postings|] == t.postings;
      if sum != 0 { return Err(Unbalanced); }
      if nextTransactionId == U64_MAX { return Err(LedgerOverflow); }
      r := Ok(nextTransactionId);
      balances := next;
      transactions := transactions + [Transaction(nextTransactionId, t.eventSeq, t.kind, t.postings)];
      nextTransactionId := nextTransactionId + 1;
    }
  }

  // ------------------------------------------------------------ snapshot, restore

  function Listed(b: Balances, accounts: seq<Account>): seq<(Account, i64)> {
    if accounts == [] then []
    else (if accounts[0] in b then [(accounts[0], b[accounts[0]])] else []) + Listed(b, accounts[1..])
  }

  function SnapshotOf(l: LedgerState): LedgerSnapshot {
    LedgerSnapshot(l.nextId, Listed(l.balances, ACCOUNTS))
  }

  /** Rebuilds balances from a list, refusing repeated accounts and 64-bit overflow of the running sum. */
  function Load(entries: seq<(Account, i64)>, b: Balances, sum: i64): Result<(Balances, i64), LedgerError>
    decreases |entries|
  {
    if entries == [] then Ok((b, sum))
    else
      var (a, v) := entries[0];
      if a in b then Err(InvalidLedgerSnapshot)
      else if !IsI64(sum + v) then Err(LedgerOverflow)
      else Load(entries[1..], b[a := v], sum + v)
  }

  function FromSnapshot(s: LedgerSnapshot): Result<LedgerState, LedgerError> {
    var (b, sum) :- Load(s.balances, map[], 0);
    if sum != 0 then Err(InvalidLedgerSnapshot) else Ok(LedgerState(s.nextId, b, []))
  }

  /** Every running sum of the balances, in account order, fits 64 bits. */
  predicate RunningSumsFit(b: Balances, accounts: seq<Account>, sum: int) {
    accounts == [] || (IsI64(sum + Balance(b, accounts[0])) && RunningSumsFit(b, accounts[1..], sum + Balance(b, accounts[0])))
  }

  lemma {:induction false} LoadListed(b: Balances, accounts: seq<Account>, loaded: Balances, sum: i64)
    requires Distinct(accounts)
    requires forall i :: 0 <= i < |accounts| ==> accounts[i] !in loaded
    ensures var r := Load(Listed(b, accounts), loaded, sum);
            if RunningSumsFit(b, accounts, sum)
            then r.Ok? && r.value.1 == sum + SumBalances(b, accounts)
                 && (forall a :: a in r.value.0 <==> a in loaded || (a in accounts && a in b))
                 && (forall a :: a in r.value.0 ==> r.value.0[a] == if a in loaded then loaded[a] else b[a])
            else r == Err(LedgerOverflow)
    decreases |accounts|
  {
    if accounts != [] {
      var a := accounts[0];
      var rest := accounts[1..];
      assert forall x :: x in accounts <==> x == a || x in rest;
      if a in b {
        assert Listed(b, accounts)[0] == (a, b[a]) && Listed(b, accounts)[1..] == Listed(b, rest);
        if IsI64(sum + b[a]) { LoadListed(b, rest, loaded[a := b[a]], sum + b[a]); }
      } else {
        assert Listed(b, accounts) == Listed(b, rest);
        LoadListed(b, rest, loaded, sum);
      }
    }
  }

  /** Restoring a ledger's own snapshot forgets history and nothing else; it succeeds exactly
      when the running sums fit and the books balance. */
  lemma RestoreLedger(l: LedgerState)
    ensures FromSnapshot(SnapshotOf(l))
            == if !RunningSumsFit(l.balances, ACCOUNTS, 0) then Err(LedgerOverflow)
               else if Total(l.balances) != 0 then Err(InvalidLedgerSnapshot)
               else Ok(l.(transactions := []))
  {
    forall a: Account ensures a in ACCOUNTS && Distinct(ACCOUNTS) { EveryAccountIsListed(a); }
    EveryAccountIsListed(Cash);
    LoadAll(l.balances, ACCOUNTS);
  }

  lemma LoadAll(b: Balances, accounts: seq<Account>)
    requires Distinct(accounts) && forall a: Account :: a in accounts
    ensures Load(Listed(b, accounts), map[], 0)
            == if RunningSumsFit(b, accounts, 0) then Ok((b, SumBalances(b, accounts))) else Err(LedgerOverflow)
  {
    LoadListed(b, accounts, map[], 0);
    var r := Load(Listed(b, accounts), map[], 0);
    if r.Ok? { assert r.value.0 == b; }
  }
}
