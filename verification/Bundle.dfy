/** The offline proof bundle: its commitments, and the verifier that replays and checks it. */
module Bundle {
  import opened Common
  import opened Numeric
  import opened Bytes
  import opened Canonical
  import opened Kernel
  import opened Sorting
  import opened WireText

  /** Byte strings and lists that exist in memory: their lengths are 64-bit values. */
  type Blob = t: Bytes | |t| <= U64_MAX
  type List<+T> = s: seq<T> | |s| <= U64_MAX

  datatype StateHash = StateHash(eventSeq: u64, hash: Hash32)
  datatype Posting = Posting(account: Blob, amount: i64, currency: Blob)
  datatype Transaction = Transaction(eventSeq: u64, id: Blob, postings: List<Posting>)
  datatype Metrics = Metrics(
    survived: bool, terminalReturn: i64, maxDrawdown: i64, peakLeverage: i64, benchmarkReturn: i64)

  datatype ProofBundle = ProofBundle(
    sessionId: Blob, manifestHashes: List<Hash32>, manifestSetHash: Hash32,
    inputs: List<InputEnvelope>, events: List<KernelEvent>,
    states: List<StateHash>, statesHash: Hash32,
    ledger: List<Transaction>, ledgerHash: Hash32, metrics: Metrics, resultHash: Hash32)

  // ------------------------------------------------------------------ commitments

  const MANIFEST_TAG: Bytes := Label("TRL-MANIFEST-SET-v1") + [0]
  const STATES_TAG: Bytes := Label("TRL-STATE-HASHES-v1") + [0]
  const LEDGER_TAG: Bytes := Label("TRL-LEDGER-PROOF-v1") + [0]
  const RESULT_TAG: Bytes := Label("TRL-VERIFIER-RESULT-v1") + [0]

  function PutHashes(hs: seq<Bytes>): Bytes
    decreases |hs|
  {
    if hs == [] then [] else hs[0] + PutHashes(hs[1..])
  }

  function ManifestBytes(hs: List<Hash32>): Bytes {
    MANIFEST_TAG + PutU64(|hs|, PutHashes(Sort<Bytes>(hs, LexLeq)))
  }

  function PutStates(ss: seq<StateHash>): Bytes
    decreases |ss|
  {
    if ss == [] then [] else PutU64(ss[0].eventSeq, ss[0].hash + PutStates(ss[1..]))
  }

  function StateBytes(ss: List<StateHash>): Bytes {
    STATES_TAG + PutU64(|ss|, PutStates(ss))
  }

  /** Postings are committed in the order of account, then amount, then currency. */
  predicate PostingLeq(p: Posting, q: Posting) {
    if p.account != q.account then LexLeq(p.account, q.account)
    else if p.amount != q.amount then p.amount < q.amount
    else LexLeq(p.currency, q.currency)
  }

  lemma PostingOrderIsTotal()
    ensures TotalOrder<Posting>(PostingLeq)
  {
    LexIsTotal();
    forall p: Posting, q: Posting
      ensures PostingLeq(p, q) || PostingLeq(q, p)
      ensures PostingLeq(p, q) && PostingLeq(q, p) ==> p == q
    {
      LexTotal(p.account, q.account);
      LexTotal(p.currency, q.currency);
    }
    forall p: Posting, q: Posting, r: Posting | PostingLeq(p, q) && PostingLeq(q, r) ensures PostingLeq(p, r) {
      PostingsTransitive(p, q, r);
    }
  }

  lemma PostingsTransitive(p: Posting, q: Posting, r: Posting)
    requires PostingLeq(p, q) && PostingLeq(q, r)
    ensures PostingLeq(p, r)
  {
    if p.account == q.account == r.account {
      if p.amount == q.amount == r.amount { LexTransitive(p.currency, q.currency, r.currency); }
    } else {
      LexTotal(p.account, q.account);
      LexTotal(q.account, r.account);
      LexTotal(p.account, r.account);
      if LexLeq(p.account, q.account) && LexLeq(q.account, r.account) {
        LexTransitive(p.account, q.account, r.account);
      }
    }
  }

  function PutPostings(ps: seq<Posting>, rest: Bytes): Bytes
    decreases |ps|
  {
    if ps == [] then rest
    else PutBytes(ps[0].currency, PutBytes(ps[0].account, PutI64(ps[0].amount, PutPostings(ps[1..], rest))))
  }

  function PutTransaction(t: Transaction, rest: Bytes): Bytes {
    PutU64(t.eventSeq, PutBytes(t.id, PutU64(|t.postings|, PutPostings(Sort(t.postings, PostingLeq), rest))))
  }

  function PutLedger(ts: seq<Transaction>): Bytes
    decreases |ts|
  {
    if ts == [] then [] else PutTransaction(ts[0], PutLedger(ts[1..]))
  }

  function LedgerBytes(ts: List<Transaction>): Bytes {
    LEDGER_TAG + PutU64(|ts|, PutLedger(ts))
  }

  function PutMetrics(m: Metrics): Bytes {
    PutBool(m.survived, PutI64(m.terminalReturn, PutI64(m.maxDrawdown, PutI64(m.peakLeverage,
      PutI64(m.benchmarkReturn, [])))))
  }

  function ResultBytes(session: Blob, manifests: Hash32, head: Hash32, states: Hash32, ledger: Hash32, m: Metrics): Bytes {
    RESULT_TAG + PutBytes(session, manifests + (head + (states + (ledger + PutMetrics(m)))))
  }

  // ---------------------------------------------------------------- verification

  datatype FailureCode =
    | Format | ManifestHash | ManifestCommitment | InputSequence | EventMismatch | StateHashOrder
    | StateCommitment | LedgerFormat | LedgerImbalance | LedgerCommitment | ResultCommitment

  datatype Failure = Failure(code: FailureCode, index: Option<nat>)

  datatype Report = Report(
    valid: bool, failure: Option<Failure>, finalEventHash: Option<Text>, resultHash: Option<Text>,
    inputsVerified: nat, ledgerVerified: nat)

  function Fail(f: Failure, inputs: nat, ledger: nat, head: Option<Text>): Report {
    Report(false, Some(f), head, None, inputs, ledger)
  }

  /** Replays input i on the kernel that has replayed the i inputs before it. */
  function ReplayOne(b: ProofBundle, k: KernelState, i: nat, sha: HashFn): Result<KernelState, Report>
    requires i < |b.inputs| == |b.events|
  {
    var head := Some(HexOf(k.currentHash));
    var step := KernelApply(k, b.inputs[i], sha);
    if b.inputs[i].sessionId != b.sessionId || step.Err? then Err(Fail(Failure(FailureCode.InputSequence, Some(i)), i, 0, head))
    else if b.events[i] != step.value.1 then Err(Fail(Failure(EventMismatch, Some(i)), i, 0, head))
    else Ok(step.value.0)
  }

  function ReplayUpTo(b: ProofBundle, n: nat, sha: HashFn): (r: Result<KernelState, Report>)
    requires n <= |b.inputs| == |b.events|
    ensures r.Err? ==> !r.error.valid
  {
    if n == 0 then Ok(NEW_KERNEL)
    else
      var k :- ReplayUpTo(b, n - 1, sha);
      ReplayOne(b, k, n - 1, sha)
  }

  /** The chain head after every input, or the report of the first that does not reproduce. */
  function Replay(b: ProofBundle, sha: HashFn): Result<Hash32, Report> {
    if |b.inputs| != |b.events| then Err(Fail(Failure(EventMismatch, None), 0, 0, None))
    else
      var k :- ReplayUpTo(b, |b.inputs|, sha);
      Ok(k.currentHash)
  }

  /** The first state hash among the first n whose sequence does not increase. */
  function StateOrderFailure(ss: seq<StateHash>, n: nat): Option<Failure>
    requires n <= |ss|
  {
    if n < 2 then None
    else if StateOrderFailure(ss, n - 1).Some? then StateOrderFailure(ss, n - 1)
    else if ss[n - 1].eventSeq <= ss[n - 2].eventSeq then Some(Failure(StateHashOrder, Some(n - 1)))
    else None
  }

  function StatesFailure(ss: List<StateHash>, declared: Hash32, sha: HashFn): Option<Failure> {
    if StateOrderFailure(ss, |ss|).Some? then StateOrderFailure(ss, |ss|)
    else if sha(StateBytes(ss)) != declared then Some(Failure(StateCommitment, None))
    else None
  }

  function CurrencyTotal(ps: seq<Posting>, currency: Bytes): int
    decreases |ps|
  {
    if ps == [] then 0
    else
      var p := ps[|ps| - 1];
      CurrencyTotal(ps[..|ps| - 1], currency) + (if p.currency == currency then p.amount else 0)
  }

  /** Every currency the postings mention sums to zero. */
  predicate Balanced(ps: seq<Posting>) {
    forall i :: 0 <= i < |ps| ==> CurrencyTotal(ps, ps[i].currency) == 0
  }

  predicate SeenBefore(ts: seq<Transaction>, i: nat)
    requires i < |ts|
  {
    exists j :: 0 <= j < i && ts[j].id == ts[i].id
  }

  function TransactionFailure(ts: seq<Transaction>, i: nat): Option<Failure>
    requires i < |ts|
  {
    if |ts[i].postings| < 2 || SeenBefore(ts, i) || (i > 0 && ts[i].eventSeq < ts[i - 1].eventSeq)
    then Some(Failure(LedgerFormat, Some(i)))
    else if !Balanced(ts[i].postings) then Some(Failure(LedgerImbalance, Some(i)))
    else None
  }

  /** The first failing transaction among the first n. */
  function TransactionsFailure(ts: seq<Transaction>, n: nat): Option<Failure>
    requires n <= |ts|
  {
    if n == 0 then None
    else if TransactionsFailure(ts, n - 1).Some? then TransactionsFailure(ts, n - 1)
    else TransactionFailure(ts, n - 1)
  }

  function LedgerFailure(ts: List<Transaction>, declared: Hash32, sha: HashFn): Option<Failure> {
    if TransactionsFailure(ts, |ts|).Some? then TransactionsFailure(ts, |ts|)
    else if sha(LedgerBytes(ts)) != declared then Some(Failure(LedgerCommitment, None))
    else None
  }

  function Verify(b: ProofBundle, sha: HashFn): Report {
    var manifests := sha(ManifestBytes(b.manifestHashes));
    if manifests != b.manifestSetHash then Fail(Failure(ManifestCommitment, None), 0, 0, None)
    else
      var replayed := Replay(b, sha);
      if replayed.Err? then replayed.error
      else
        var n := |b.inputs|;
        var head := Some(HexOf(replayed.value));
        var badStates := StatesFailure(b.states, b.statesHash, sha);
        var badLedger := LedgerFailure(b.ledger, b.ledgerHash, sha);
        if badStates.Some? then Fail(badStates.value, n, 0, head)
        else if badLedger.Some? then Fail(badLedger.value, n, 0, head)
        else
          var result := sha(ResultBytes(b.sessionId, manifests, replayed.value, sha(StateBytes(b.states)),
                                        b.ledgerHash, b.metrics));
          if result != b.resultHash then Fail(Failure(ResultCommitment, None), n, |b.ledger|, head)
          else Report(true, None, head, Some(HexOf(result)), n, |b.ledger|)
  }

  // -------------------------------------------------- what acceptance amounts to

  /** The chain head after an input list, defined by the chain alone. */
  function Head(inputs: seq<InputEnvelope>, sha: HashFn): Hash32
    requires |inputs| <= U64_MAX
    decreases |inputs|, 1
  {
    if inputs == [] then ZERO_HASH else sha(ChainBytes(inputs, sha))
  }

  /** The message whose hash is the head of a non-empty chain. */
  function ChainBytes(inputs: seq<InputEnvelope>, sha: HashFn): Bytes
    requires 0 < |inputs| <= U64_MAX
    decreases |inputs|, 0
  {
    var n := |inputs| - 1;
    EventBytes(Head(inputs[..n], sha), n, n + 1, inputs[n], sha(inputs[n].payload))
  }

  /** The event that input i must have produced. */
  function ChainEvent(inputs: seq<InputEnvelope>, i: nat, sha: HashFn): KernelEvent
    requires i < |inputs| <= U64_MAX
  {
    KernelEvent(i, i + 1, inputs[i].logicalTs, inputs[i].kind, sha(inputs[i].payload),
                Head(inputs[..i], sha), Head(inputs[..i + 1], sha))
  }

  /** Input i belongs to the session, carries number i and declares the event it causes. */
  predicate Chained(b: ProofBundle, i: nat, sha: HashFn)
    requires i < |b.inputs| == |b.events|
  {
    && b.inputs[i].sessionId == b.sessionId
    && b.inputs[i].inputSeq == i && b.inputs[i].expectedVersion == i
    && b.events[i] == ChainEvent(b.inputs, i, sha)
  }

  /** Two or more postings that balance, under a new identifier, not before its predecessor. */
  predicate SoundTransaction(ts: seq<Transaction>, i: nat)
    requires i < |ts|
  {
    && |ts[i].postings| >= 2 && Balanced(ts[i].postings)
    && (forall j :: 0 <= j < i ==> ts[j].id != ts[i].id)
    && (i > 0 ==> ts[i - 1].eventSeq <= ts[i].eventSeq)
  }

  predicate SoundLedger(ts: seq<Transaction>) {
    forall i :: 0 <= i < |ts| ==> SoundTransaction(ts, i)
  }

  predicate Ascending(ss: seq<StateHash>) {
    forall i :: 0 < i < |ss| ==> ss[i - 1].eventSeq < ss[i].eventSeq
  }

  /** Everything a bundle claims is what its own contents commit to. */
  predicate Authentic(b: ProofBundle, sha: HashFn) {
    && b.manifestSetHash == sha(ManifestBytes(b.manifestHashes))
    && |b.inputs| == |b.events|
    && (forall i :: 0 <= i < |b.inputs| ==> Chained(b, i, sha))
    && Ascending(b.states) && b.statesHash == sha(StateBytes(b.states))
    && SoundLedger(b.ledger) && b.ledgerHash == sha(LedgerBytes(b.ledger))
    && b.resultHash == sha(ResultBytes(b.sessionId, b.manifestSetHash, Head(b.inputs, sha), b.statesHash,
                                       b.ledgerHash, b.metrics))
  }

  lemma ChainStart(inputs: List<InputEnvelope>, sha: HashFn)
    ensures Head(inputs[..0], sha) == ZERO_HASH
  {
  }

  lemma ChainStep(inputs: List<InputEnvelope>, i: nat, sha: HashFn)
    requires i < |inputs|
    ensures Head(inputs[..i + 1], sha)
            == sha(EventBytes(Head(inputs[..i], sha), i, i + 1, inputs[i], sha(inputs[i].payload)))
  {
    assert inputs[..i + 1][..i] == inputs[..i];
  }

  lemma ReplayOneIsChained(b: ProofBundle, i: nat, sha: HashFn)
    requires i < |b.inputs| == |b.events|
    ensures var r := ReplayOne(b, KernelState(i, i, i, Head(b.inputs[..i], sha)), i, sha);
            && (r.Ok? <==> Chained(b, i, sha))
            && (r.Ok? ==> r.value == KernelState(i + 1, i + 1, i + 1, Head(b.inputs[..i + 1], sha)))
  {
    ChainStep(b.inputs, i, sha);
  }

  lemma {:induction false} ReplayState(b: ProofBundle, n: nat, sha: HashFn)
    requires n <= |b.inputs| == |b.events| && ReplayUpTo(b, n, sha).Ok?
    ensures ReplayUpTo(b, n, sha).value == KernelState(n, n, n, Head(b.inputs[..n], sha))
  {
    hide Head, ReplayOne, Chained;
    if n == 0 {
      ChainStart(b.inputs, sha);
    } else {
      ReplayState(b, n - 1, sha);
      ReplayOneIsChained(b, n - 1, sha);
    }
  }

  lemma {:induction false} ReplayedIsChained(b: ProofBundle, n: nat, i: nat, sha: HashFn)
    requires i < n <= |b.inputs| == |b.events| && ReplayUpTo(b, n, sha).Ok?
    ensures Chained(b, i, sha)
    decreases n
  {
    hide Head, ReplayOne, Chained;
    if i < n - 1 {
      ReplayedIsChained(b, n - 1, i, sha);
    } else {
      ReplayState(b, i, sha);
      ReplayOneIsChained(b, i, sha);
    }
  }

  lemma {:induction false} FailureIsUnchained(b: ProofBundle, n: nat, sha: HashFn) returns (i: nat)
    requires n <= |b.inputs| == |b.events| && ReplayUpTo(b, n, sha).Err?
    ensures i < n && !Chained(b, i, sha)
  {
    hide Head, ReplayOne, Chained;
    i := n - 1;
    if ReplayUpTo(b, i, sha).Err? {
      i := FailureIsUnchained(b, n - 1, sha);
    } else {
      ReplayState(b, i, sha);
      ReplayOneIsChained(b, i, sha);
    }
  }

  lemma ReplayFollowsChain(b: ProofBundle, sha: HashFn)
    requires |b.inputs| == |b.events|
    ensures Replay(b, sha).Ok? <==> forall i :: 0 <= i < |b.inputs| ==> Chained(b, i, sha)
    ensures Replay(b, sha).Ok? ==> Replay(b, sha).value == Head(b.inputs, sha)
  {
    var n := |b.inputs|;
    if ReplayUpTo(b, n, sha).Ok? {
      ReplayState(b, n, sha);
      assert b.inputs[..n] == b.inputs;
      forall i | 0 <= i < n ensures Chained(b, i, sha) { ReplayedIsChained(b, n, i, sha); }
    } else {
      var i := FailureIsUnchained(b, n, sha);
      assert !Chained(b, i, sha);
    }
  }

  lemma {:induction false} StatesAscend(ss: seq<StateHash>, n: nat)
    requires n <= |ss|
    ensures StateOrderFailure(ss, n).None? <==> Ascending(ss[..n])
  {
    if n >= 2 {
      StatesAscend(ss, n - 1);
      assert ss[..n][..n - 1] == ss[..n - 1];
      if Ascending(ss[..n]) { assert ss[..n][n - 2].eventSeq < ss[..n][n - 1].eventSeq; }
    }
  }

  lemma SoundTransactionPasses(ts: seq<Transaction>, i: nat)
    requires i < |ts|
    ensures TransactionFailure(ts, i).None? <==> SoundTransaction(ts, i)
  {
  }

  lemma {:induction false} LedgerIsSound(ts: seq<Transaction>, n: nat)
    requires n <= |ts|
    ensures TransactionsFailure(ts, n).None? <==> forall i :: 0 <= i < n ==> SoundTransaction(ts, i)
  {
    if n > 0 {
      LedgerIsSound(ts, n - 1);
      SoundTransactionPasses(ts, n - 1);
    }
  }

  lemma StatesCommit(ss: List<StateHash>, declared: Hash32, sha: HashFn)
    ensures StatesFailure(ss, declared, sha).None? <==> Ascending(ss) && sha(StateBytes(ss)) == declared
  {
    StatesAscend(ss, |ss|);
    assert ss[..|ss|] == ss;
  }

  /** The verifier accepts exactly the authentic bundles, and reports their own commitments. */
  lemma AcceptsExactlyAuthentic(b: ProofBundle, sha: HashFn)
    ensures Verify(b, sha).valid <==> Authentic(b, sha)
    ensures Authentic(b, sha) ==>
              Verify(b, sha) == Report(true, None, Some(HexOf(Head(b.inputs, sha))), Some(HexOf(b.resultHash)),
                                       |b.inputs|, |b.ledger|)
  {
    hide Head, Chained, Ascending, SoundTransaction;
    if |b.inputs| == |b.events| { ReplayFollowsChain(b, sha); }
    LedgerIsSound(b.ledger, |b.ledger|);
    StatesCommit(b.states, b.statesHash, sha);
  }
}
