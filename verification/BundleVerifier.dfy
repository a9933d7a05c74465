/** The verifier's own procedures: canonical writers, the replay loop and the ledger scan. */
module BundleVerifier {
  import opened Common
  import opened Numeric
  import opened Bytes
  import opened Canonical
  import opened Kernel
  import opened Sorting
  import opened WireText
  import opened Bundle

  // ------------------------------------------------------------------ commitments

  // Each step appends one field; what is still to be written is tracked as `rest`.

  method PutRaw(w: CanonicalWriter, value: Bytes, ghost rest: Bytes)
    modifies w
    ensures w.bytes + rest == old(w.bytes) + (value + rest)
  {
    w.Hash(value);
  }

  method PutNumber(w: CanonicalWriter, value: u64, ghost rest: Bytes)
    modifies w
    ensures w.bytes + rest == old(w.bytes) + PutU64(value, rest)
  {
    w.U64(value);
  }

  method PutAmount(w: CanonicalWriter, value: i64, ghost rest: Bytes)
    modifies w
    ensures w.bytes + rest == old(w.bytes) + PutI64(value, rest)
  {
    w.I64(value);
  }

  method PutBlob(w: CanonicalWriter, value: Blob, ghost rest: Bytes)
    modifies w
    ensures w.bytes + rest == old(w.bytes) + PutBytes(value, rest)
  {
    w.Blob(value);
  }

  method ManifestCommitmentOf(hashes: List<Hash32>, sha: HashFn) returns (h: Hash32)
    ensures h == sha(ManifestBytes(hashes))
  {
    var sorted := Sort<Bytes>(hashes, LexLeq);
    var w := new CanonicalWriter();
    w.Tag(MANIFEST_TAG);
    PutNumber(w, |sorted|, PutHashes(sorted));
    assert sorted[0..] == sorted;
    for i := 0 to |sorted|
      invariant w.bytes + PutHashes(sorted[i..]) == ManifestBytes(hashes)
    {
      assert sorted[i..][1..] == sorted[i + 1..];
      PutRaw(w, sorted[i], PutHashes(sorted[i + 1..]));
    }
    assert w.bytes + [] == w.bytes;
    h := sha(w.bytes);
  }

  method StateHashCommitment(states: List<StateHash>, sha: HashFn) returns (h: Hash32)
    ensures h == sha(StateBytes(states))
  {
    var w := new CanonicalWriter();
    w.Tag(STATES_TAG);
    PutNumber(w, |states|, PutStates(states));
    assert states[0..] == states;
    for i := 0 to |states|
      invariant w.bytes + PutStates(states[i..]) == StateBytes(states)
    {
      ghost var rest := PutStates(states[i + 1..]);
      assert states[i..][1..] == states[i + 1..];
      PutNumber(w, states[i].eventSeq, states[i].hash + rest);
      PutRaw(w, states[i].hash, rest);
    }
    assert w.bytes + [] == w.bytes;
    h := sha(w.bytes);
  }

  method WritePostings(w: CanonicalWriter, postings: seq<Posting>, ghost rest: Bytes)
    modifies w
    ensures w.bytes + rest == old(w.bytes) + PutPostings(postings, rest)
  {
    assert postings[0..] == postings;
    for j := 0 to |postings|
      invariant w.bytes + PutPostings(postings[j..], rest) == old(w.bytes) + PutPostings(postings, rest)
    {
      var p := postings[j];
      ghost var later := PutPostings(postings[j + 1..], rest);
      assert postings[j..][1..] == postings[j + 1..];
      PutBlob(w, p.currency, PutBytes(p.account, PutI64(p.amount, later)));
      PutBlob(w, p.account, PutI64(p.amount, later));
      PutAmount(w, p.amount, later);
    }
  }

  method WriteTransaction(w: CanonicalWriter, t: Transaction, ghost rest: Bytes)
    modifies w
    ensures w.bytes + rest == old(w.bytes) + PutTransaction(t, rest)
  {
    hide PutU64, PutBytes, PutPostings;
    var postings := Sort(t.postings, PostingLeq);
    ghost var tail := PutU64(|postings|, PutPostings(postings, rest));
    PutNumber(w, t.eventSeq, PutBytes(t.id, tail));
    PutBlob(w, t.id, tail);
    PutNumber(w, |postings|, PutPostings(postings, rest));
    WritePostings(w, postings, rest);
  }

  method LedgerCommitmentOf(ts: List<Transaction>, sha: HashFn) returns (h: Hash32)
    ensures h == sha(LedgerBytes(ts))
  {
    hide PutTransaction;
    var w := new CanonicalWriter();
    w.Tag(LEDGER_TAG);
    PutNumber(w, |ts|, PutLedger(ts));
    assert ts[0..] == ts;
    for i := 0 to |ts|
      invariant w.bytes + PutLedger(ts[i..]) == LedgerBytes(ts)
    {
      assert ts[i..][1..] == ts[i + 1..];
      WriteTransaction(w, ts[i], PutLedger(ts[i + 1..]));
    }
    assert w.bytes + [] == w.bytes;
    h := sha(w.bytes);
  }

  method WriteMetrics(w: CanonicalWriter, m: Metrics)
    modifies w
    ensures w.bytes == old(w.bytes) + PutMetrics(m)
  {
    hide PutU64, PutI64;
    ghost var m4 := PutI64(m.benchmarkReturn, []);
    ghost var m3 := PutI64(m.peakLeverage, m4);
    ghost var m2 := PutI64(m.maxDrawdown, m3);
    PutNumber(w, if m.survived then 1 else 0, PutI64(m.terminalReturn, m2));
    PutAmount(w, m.terminalReturn, m2);
    PutAmount(w, m.maxDrawdown, m3);
    PutAmount(w, m.peakLeverage, m4);
    PutAmount(w, m.benchmarkReturn, []);
    assert w.bytes + [] == w.bytes;
  }

  method ResultCommitmentOf(session: Blob, manifests: Hash32, head: Hash32, states: Hash32, ledger: Hash32,
                            m: Metrics, sha: HashFn) returns (h: Hash32)
    ensures h == sha(ResultBytes(session, manifests, head, states, ledger, m))
  {
    hide PutBytes, PutMetrics;
    var w := new CanonicalWriter();
    ghost var r3 := ledger + PutMetrics(m);
    ghost var r2 := states + r3;
    ghost var r1 := head + r2;
    w.Tag(RESULT_TAG);
    assert w.bytes == RESULT_TAG;
    PutBlob(w, session, manifests + r1);
    PutRaw(w, manifests, r1);
    PutRaw(w, head, r2);
    PutRaw(w, states, r3);
    PutRaw(w, ledger, PutMetrics(m));
    WriteMetrics(w, m);
    h := sha(w.bytes);
  }

  // --------------------------------------------------------------------- checks

  lemma {:induction false} StateFailureSticks(ss: seq<StateHash>, i: nat, n: nat)
    requires i <= n <= |ss| && StateOrderFailure(ss, i).Some?
    ensures StateOrderFailure(ss, n) == StateOrderFailure(ss, i)
    decreases n
  {
    if i < n { StateFailureSticks(ss, i, n - 1); }
  }

  method VerifyStateHashes(states: List<StateHash>, declared: Hash32, sha: HashFn) returns (r: Option<Failure>)
    ensures r == StatesFailure(states, declared, sha)
  {
    var prior: Option<u64> := None;
    for i := 0 to |states|
      invariant prior == if i == 0 then None else Some(states[i - 1].eventSeq)
      invariant StateOrderFailure(states, i) == None
    {
      if prior.Some? && states[i].eventSeq <= prior.value {
        StateFailureSticks(states, i + 1, |states|);
        return Some(Failure(StateHashOrder, Some(i)));
      }
      prior := Some(states[i].eventSeq);
    }
    var commitment := StateHashCommitment(states, sha);
    return if commitment != declared then Some(Failure(StateCommitment, None)) else None;
  }

  lemma {:induction false} ReplayFailureSticks(b: ProofBundle, i: nat, n: nat, sha: HashFn)
    requires i <= n <= |b.inputs| == |b.events| && ReplayUpTo(b, i, sha).Err?
    ensures ReplayUpTo(b, n, sha) == ReplayUpTo(b, i, sha)
    decreases n
  {
    hide ReplayOne;
    if i < n { ReplayFailureSticks(b, i, n - 1, sha); }
  }

  /** One input on the running kernel, whose head so far is given. */
  method ReplayInput(kernel: Kernel, b: ProofBundle, i: nat, head: Hash32, sha: HashFn) returns (r: Result<Hash32, Report>)
    requires i < |b.inputs| == |b.events| && head == kernel.currentHash
    modifies kernel
    ensures var spec := ReplayOne(b, old(kernel.Value()), i, sha);
            if spec.Err? then r == Err(spec.error) else kernel.Value() == spec.value && r == Ok(kernel.currentHash)
  {
    hide EventBytes;
    var text := WriteHex(head);
    if b.inputs[i].sessionId != b.sessionId {
      return Err(Fail(Failure(FailureCode.InputSequence, Some(i)), i, 0, Some(text)));
    }
    var actual := kernel.Apply(b.inputs[i], sha);
    if actual.Err? { return Err(Fail(Failure(FailureCode.InputSequence, Some(i)), i, 0, Some(text))); }
    if b.events[i] != actual.value { return Err(Fail(Failure(EventMismatch, Some(i)), i, 0, Some(text))); }
    return Ok(actual.value.currentHash);
  }

  method ReplayKernel(b: ProofBundle, sha: HashFn) returns (verified: nat, r: Result<Hash32, Report>)
    ensures r == Replay(b, sha)
    ensures r.Ok? ==> verified == |b.inputs|
  {
    hide ReplayOne;
    if |b.inputs| != |b.events| {
      return 0, Err(Fail(Failure(EventMismatch, None), 0, 0, None));
    }
    var kernel := new Kernel();
    verified := 0;
    var head := ZERO_HASH;
    for i := 0 to |b.inputs|
      invariant verified == i && head == kernel.currentHash
      invariant ReplayUpTo(b, i, sha) == Ok(kernel.Value())
    {
      ghost var before := kernel.Value();
      assert ReplayUpTo(b, i + 1, sha) == ReplayOne(b, before, i, sha);
      var step := ReplayInput(kernel, b, i, head, sha);
      if step.Err? {
        ReplayFailureSticks(b, i + 1, |b.inputs|, sha);
        return verified, Err(step.error);
      }
      head := step.value;
      verified := verified + 1;
    }
    return verified, Ok(head);
  }

  // --------------------------------------------------------------------- ledger

  /** All postings, in order. */
  function Flat(ts: seq<Transaction>): seq<Posting>
    decreases |ts|
  {
    if ts == [] then [] else Flat(ts[..|ts| - 1]) + ts[|ts| - 1].postings
  }

  function AccountTotal(ps: seq<Posting>, currency: Bytes, account: Bytes): int
    decreases |ps|
  {
    if ps == [] then 0
    else
      var p := ps[|ps| - 1];
      AccountTotal(ps[..|ps| - 1], currency, account)
      + (if p.currency == currency && p.account == account then p.amount else 0)
  }

  /** The map holds the total of each currency mentioned, and of no other. */
  ghost predicate CurrencyTotals(totals: map<Bytes, int>, ps: seq<Posting>) {
    && (forall c :: c in totals ==> exists k :: 0 <= k < |ps| && ps[k].currency == c)
    && (forall k :: 0 <= k < |ps| ==> ps[k].currency in totals)
    && (forall c :: CurrencyTotal(ps, c) == if c in totals then totals[c] else 0)
  }

  /** The map holds the balance of each account mentioned, and of no other. */
  ghost predicate AccountTotals(totals: map<(Bytes, Bytes), int>, ps: seq<Posting>) {
    && (forall c, a :: (c, a) in totals ==> exists k :: 0 <= k < |ps| && ps[k].currency == c && ps[k].account == a)
    && (forall k :: 0 <= k < |ps| ==> (ps[k].currency, ps[k].account) in totals)
    && (forall c, a :: AccountTotal(ps, c, a) == if (c, a) in totals then totals[(c, a)] else 0)
  }

  lemma CurrencyTotalsStep(totals: map<Bytes, int>, ps: seq<Posting>, p: Posting)
    requires CurrencyTotals(totals, ps)
    ensures CurrencyTotals(
              totals[p.currency := (if p.currency in totals then totals[p.currency] else 0) + p.amount], ps + [p])
  {
    assert (ps + [p])[..|ps|] == ps;
    var now := ps + [p];
    forall c | c in totals || c == p.currency ensures exists k :: 0 <= k < |now| && now[k].currency == c {
      if c == p.currency {
        assert now[|ps|].currency == c;
      } else {
        var k :| 0 <= k < |ps| && ps[k].currency == c;
        assert now[k].currency == c;
      }
    }
  }

  lemma AccountTotalsStep(totals: map<(Bytes, Bytes), int>, ps: seq<Posting>, p: Posting)
    requires AccountTotals(totals, ps)
    ensures var key := (p.currency, p.account);
            AccountTotals(totals[key := (if key in totals then totals[key] else 0) + p.amount], ps + [p])
  {
    assert (ps + [p])[..|ps|] == ps;
    var now := ps + [p];
    forall c, a | (c, a) in totals || (c, a) == (p.currency, p.account)
      ensures exists k :: 0 <= k < |now| && now[k].currency == c && now[k].account == a
    {
      if c == p.currency && a == p.account {
        assert now[|ps|].currency == c;
      } else {
        var k :| 0 <= k < |ps| && ps[k].currency == c && ps[k].account == a;
        assert now[k].currency == c;
      }
    }
  }

  lemma NoTotals()
    ensures CurrencyTotals(map[], []) && AccountTotals(map[], [])
  {
  }

  datatype LedgerInspection = LedgerInspection(transactions: nat, balances: map<(Bytes, Bytes), int>, hash: Text)

  /** One transaction's totals, with the running balances of the whole ledger. */
  method AddPostings(ps: seq<Posting>, before: map<(Bytes, Bytes), int>, ghost seen: seq<Posting>)
    returns (totals: map<Bytes, int>, balances: map<(Bytes, Bytes), int>)
    requires AccountTotals(before, seen)
    ensures CurrencyTotals(totals, ps) && AccountTotals(balances, seen + ps)
  {
    hide CurrencyTotals, AccountTotals;
    totals, balances := map[], before;
    NoTotals();
    assert seen + ps[..0] == seen && ps[..0] == [];
    for j := 0 to |ps|
      invariant CurrencyTotals(totals, ps[..j]) && AccountTotals(balances, seen + ps[..j])
    {
      var p := ps[j];
      var key: (Bytes, Bytes) := (p.currency, p.account);
      CurrencyTotalsStep(totals, ps[..j], p);
      AccountTotalsStep(balances, seen + ps[..j], p);
      assert ps[..j + 1] == ps[..j] + [p];
      assert seen + ps[..j + 1] == (seen + ps[..j]) + [p];
      totals := totals[p.currency := (if p.currency in totals then totals[p.currency] else 0) + p.amount];
      balances := balances[key := (if key in balances then balances[key] else 0) + p.amount];
    }
    assert ps[..|ps|] == ps;
  }

  lemma TotalsTellBalance(totals: map<Bytes, int>, ps: seq<Posting>)
    requires CurrencyTotals(totals, ps)
    ensures Balanced(ps) <==> forall c :: c in totals ==> totals[c] == 0
  {
    if Balanced(ps) {
      forall c | c in totals ensures totals[c] == 0 {
        var k :| 0 <= k < |ps| && ps[k].currency == c;
        assert CurrencyTotal(ps, ps[k].currency) == 0;
      }
    }
  }

  lemma {:induction false} TransactionFailureSticks(ts: seq<Transaction>, i: nat, n: nat)
    requires i <= n <= |ts| && TransactionsFailure(ts, i).Some?
    ensures TransactionsFailure(ts, n) == TransactionsFailure(ts, i)
    decreases n
  {
    hide TransactionFailure;
    if i < n { TransactionFailureSticks(ts, i, n - 1); }
  }

  /** Shape checks of one transaction against what came before it. */
  method ValidateTransactionShape(ts: seq<Transaction>, i: nat, seen: set<Bytes>, prior: Option<u64>) returns (ok: bool)
    requires i < |ts| && seen == (set j | 0 <= j < i :: ts[j].id)
    requires prior == if i == 0 then None else Some(ts[i - 1].eventSeq)
    ensures ok <==> |ts[i].postings| >= 2 && !SeenBefore(ts, i) && (i > 0 ==> ts[i - 1].eventSeq <= ts[i].eventSeq)
  {
    if |ts[i].postings| < 2 { return false; }
    if ts[i].id in seen { return false; }
    return !(prior.Some? && ts[i].eventSeq < prior.value);
  }

  method VerifyLedger(ts: List<Transaction>, declared: Hash32, sha: HashFn)
    returns (r: Result<LedgerInspection, Failure>)
    ensures r.Err? <==> LedgerFailure(ts, declared, sha).Some?
    ensures r.Err? ==> LedgerFailure(ts, declared, sha) == Some(r.error)
    ensures r.Ok? ==> && r.value.transactions == |ts| && r.value.hash == HexOf(declared)
                      && AccountTotals(r.value.balances, Flat(ts))
  {
    hide Balanced, LedgerBytes;
    var seen: set<Bytes> := {};
    var balances: map<(Bytes, Bytes), int> := map[];
    var prior: Option<u64> := None;
    for i := 0 to |ts|
      invariant seen == set j | 0 <= j < i :: ts[j].id
      invariant prior == if i == 0 then None else Some(ts[i - 1].eventSeq)
      invariant AccountTotals(balances, Flat(ts[..i]))
      invariant TransactionsFailure(ts, i).None?
    {
      var t := ts[i];
      assert TransactionsFailure(ts, i + 1) == TransactionFailure(ts, i);
      var shaped := ValidateTransactionShape(ts, i, seen, prior);
      if !shaped {
        TransactionFailureSticks(ts, i + 1, |ts|);
        return Err(Failure(LedgerFormat, Some(i)));
      }
      seen := seen + {t.id};
      prior := Some(t.eventSeq);
      var totals;
      totals, balances := AddPostings(t.postings, balances, Flat(ts[..i]));
      TotalsTellBalance(totals, t.postings);
      if exists c :: c in totals && totals[c] != 0 {
        TransactionFailureSticks(ts, i + 1, |ts|);
        return Err(Failure(LedgerImbalance, Some(i)));
      }
      assert ts[..i + 1][..i] == ts[..i];
    }
    assert ts[..|ts|] == ts;
    var computed := LedgerCommitmentOf(ts, sha);
    if computed != declared { return Err(Failure(LedgerCommitment, None)); }
    var text := WriteHex(computed);
    return Ok(LedgerInspection(|ts|, balances, text));
  }

  lemma {:induction false} TotalOfBoth(ps: seq<Posting>, qs: seq<Posting>, currency: Bytes)
    ensures CurrencyTotal(ps + qs, currency) == CurrencyTotal(ps, currency) + CurrencyTotal(qs, currency)
    decreases |qs|
  {
    if qs == [] {
      assert ps + qs == ps;
    } else {
      var n := |qs| - 1;
      TotalOfBoth(ps, qs[..n], currency);
      assert (ps + qs)[..|ps| + n] == ps + qs[..n];
    }
  }

  lemma {:induction false} UnmentionedIsZero(ps: seq<Posting>, currency: Bytes)
    requires forall k :: 0 <= k < |ps| ==> ps[k].currency != currency
    ensures CurrencyTotal(ps, currency) == 0
    decreases |ps|
  {
    if ps != [] { UnmentionedIsZero(ps[..|ps| - 1], currency); }
  }

  lemma BalancedInAll(ps: seq<Posting>, currency: Bytes)
    requires Balanced(ps)
    ensures CurrencyTotal(ps, currency) == 0
  {
    if k :| 0 <= k < |ps| && ps[k].currency == currency {
      assert CurrencyTotal(ps, ps[k].currency) == 0;
    } else {
      UnmentionedIsZero(ps, currency);
    }
  }

  /** An accepted ledger creates no money: in every currency all its postings sum to zero. */
  lemma {:induction false} AcceptedLedgerConserves(ts: seq<Transaction>, n: nat, currency: Bytes)
    requires n <= |ts| && SoundLedger(ts)
    ensures CurrencyTotal(Flat(ts[..n]), currency) == 0
  {
    if n > 0 {
      AcceptedLedgerConserves(ts, n - 1, currency);
      assert SoundTransaction(ts, n - 1);
      BalancedInAll(ts[n - 1].postings, currency);
      assert ts[..n][..n - 1] == ts[..n - 1];
      TotalOfBoth(Flat(ts[..n - 1]), ts[n - 1].postings, currency);
    }
  }

  // --------------------------------------------------------------------- bundle

  method VerifyBundle(b: ProofBundle, sha: HashFn) returns (r: Report)
    ensures r == Verify(b, sha)
  {
    hide ReplayUpTo, StateBytes, LedgerBytes, ManifestBytes, ResultBytes;
    var manifests := ManifestCommitmentOf(b.manifestHashes, sha);
    if manifests != b.manifestSetHash { return Fail(Failure(ManifestCommitment, None), 0, 0, None); }
    var verified, replayed := ReplayKernel(b, sha);
    if replayed.Err? { return replayed.error; }
    var head := WriteHex(replayed.value);
    var badStates := VerifyStateHashes(b.states, b.statesHash, sha);
    if badStates.Some? { return Fail(badStates.value, verified, 0, Some(head)); }
    var states := StateHashCommitment(b.states, sha);
    var ledger := VerifyLedger(b.ledger, b.ledgerHash, sha);
    if ledger.Err? { return Fail(ledger.error, verified, 0, Some(head)); }
    var result := ResultCommitmentOf(b.sessionId, manifests, replayed.value, states, b.ledgerHash, b.metrics, sha);
    if result != b.resultHash {
      return Fail(Failure(ResultCommitment, None), verified, ledger.value.transactions, Some(head));
    }
    var text := WriteHex(result);
    return Report(true, None, Some(head), Some(text), verified, ledger.value.transactions);
  }
}
