/** What a result hash binds: every canonical encoding can be read in only one way. */
module BundleBinding {
  import opened Numeric
  import opened Bytes
  import opened Canonical
  import opened Kernel
  import opened Sorting
  import opened WireText
  import opened Bundle
  import opened BundleText

  // ---------------------------------------------------- encodings are injective

  lemma InputInjective(a: InputEnvelope, b: InputEnvelope)
    requires CanonicalInput(a) == CanonicalInput(b)
    ensures a == b
  {
    var a6, b6 := PutBytes(a.payload, []), PutBytes(b.payload, []);
    var a5, b5 := PutBytes(a.kind, a6), PutBytes(b.kind, b6);
    var a4, b4 := PutI64(a.logicalTs, a5), PutI64(b.logicalTs, b5);
    var a3, b3 := PutU64(a.expectedVersion, a4), PutU64(b.expectedVersion, b4);
    var a2, b2 := PutU64(a.inputSeq, a3), PutU64(b.inputSeq, b3);
    FixedPrefix(INPUT_TAG, INPUT_TAG, PutBytes(a.sessionId, a2), PutBytes(b.sessionId, b2));
    BytesPrefix(a.sessionId, b.sessionId, a2, b2);
    U64Prefix(a.inputSeq, b.inputSeq, a3, b3);
    U64Prefix(a.expectedVersion, b.expectedVersion, a4, b4);
    I64Prefix(a.logicalTs, b.logicalTs, a5, b5);
    BytesPrefix(a.kind, b.kind, a6, b6);
    BytesPrefix(a.payload, b.payload, [], []);
  }

  lemma EventInjective(p: Hash32, i: u64, v: u64, a: InputEnvelope, x: Hash32,
                       q: Hash32, j: u64, w: u64, b: InputEnvelope, y: Hash32)
    requires EventBytes(p, i, v, a, x) == EventBytes(q, j, w, b, y)
    ensures p == q && i == j && v == w && a == b && x == y
  {
    hide CanonicalInput;
    var a6, b6 := PutBytes(CanonicalInput(a), []), PutBytes(CanonicalInput(b), []);
    var a5, b5 := PutBytes(a.kind, x + a6), PutBytes(b.kind, y + b6);
    var a4, b4 := PutI64(a.logicalTs, a5), PutI64(b.logicalTs, b5);
    var a3, b3 := PutU64(v, a4), PutU64(w, b4);
    var a2, b2 := PutU64(i, a3), PutU64(j, b3);
    FixedPrefix(EVENT_TAG, EVENT_TAG, p + a2, q + b2);
    FixedPrefix(p, q, a2, b2);
    U64Prefix(i, j, a3, b3);
    U64Prefix(v, w, a4, b4);
    I64Prefix(a.logicalTs, b.logicalTs, a5, b5);
    BytesPrefix(a.kind, b.kind, x + a6, y + b6);
    FixedPrefix(x, y, a6, b6);
    BytesPrefix(CanonicalInput(a), CanonicalInput(b), [], []);
    InputInjective(a, b);
  }

  lemma {:induction false} HashesInjective(a: seq<Bytes>, b: seq<Bytes>)
    requires |a| == |b| && (forall i :: 0 <= i < |a| ==> |a[i]| == |b[i]|) && PutHashes(a) == PutHashes(b)
    ensures a == b
    decreases |a|
  {
    if a != [] {
      FixedPrefix(a[0], b[0], PutHashes(a[1..]), PutHashes(b[1..]));
      HashesInjective(a[1..], b[1..]);
      assert a == [a[0]] + a[1..] && b == [b[0]] + b[1..];
    }
  }

  lemma SortedHashesAreHashes(hs: seq<Hash32>)
    ensures forall i :: 0 <= i < |hs| ==> |Sort<Bytes>(hs, LexLeq)[i]| == 32
  {
    var sorted := Sort<Bytes>(hs, LexLeq);
    forall i | 0 <= i < |hs| ensures |sorted[i]| == 32 {
      assert sorted[i] in multiset(sorted);
      assert sorted[i] in multiset(hs);
    }
  }

  lemma ManifestsInjective(a: List<Hash32>, b: List<Hash32>)
    requires ManifestBytes(a) == ManifestBytes(b)
    ensures multiset(a) == multiset(b)
  {
    var x, y := Sort<Bytes>(a, LexLeq), Sort<Bytes>(b, LexLeq);
    FixedPrefix(MANIFEST_TAG, MANIFEST_TAG, PutU64(|a|, PutHashes(x)), PutU64(|b|, PutHashes(y)));
    U64Prefix(|a|, |b|, PutHashes(x), PutHashes(y));
    SortedHashesAreHashes(a);
    SortedHashesAreHashes(b);
    HashesInjective(x, y);
  }

  lemma {:induction false} PutStatesInjective(a: seq<StateHash>, b: seq<StateHash>)
    requires |a| == |b| && PutStates(a) == PutStates(b)
    ensures a == b
    decreases |a|
  {
    if a != [] {
      var x, y := PutStates(a[1..]), PutStates(b[1..]);
      U64Prefix(a[0].eventSeq, b[0].eventSeq, a[0].hash + x, b[0].hash + y);
      FixedPrefix(a[0].hash, b[0].hash, x, y);
      PutStatesInjective(a[1..], b[1..]);
      assert a == [a[0]] + a[1..] && b == [b[0]] + b[1..];
    }
  }

  lemma StatesInjective(a: List<StateHash>, b: List<StateHash>)
    requires StateBytes(a) == StateBytes(b)
    ensures a == b
  {
    FixedPrefix(STATES_TAG, STATES_TAG, PutU64(|a|, PutStates(a)), PutU64(|b|, PutStates(b)));
    U64Prefix(|a|, |b|, PutStates(a), PutStates(b));
    PutStatesInjective(a, b);
  }

  lemma {:induction false} PostingsInjective(a: seq<Posting>, b: seq<Posting>, x: Bytes, y: Bytes)
    requires |a| == |b| && PutPostings(a, x) == PutPostings(b, y)
    ensures a == b && x == y
    decreases |a|
  {
    if a != [] {
      var a3, b3 := PutPostings(a[1..], x), PutPostings(b[1..], y);
      var a2, b2 := PutI64(a[0].amount, a3), PutI64(b[0].amount, b3);
      BytesPrefix(a[0].currency, b[0].currency, PutBytes(a[0].account, a2), PutBytes(b[0].account, b2));
      BytesPrefix(a[0].account, b[0].account, a2, b2);
      I64Prefix(a[0].amount, b[0].amount, a3, b3);
      PostingsInjective(a[1..], b[1..], x, y);
      assert a == [a[0]] + a[1..] && b == [b[0]] + b[1..];
    }
  }

  /** The same transaction, with its postings perhaps listed in another order. */
  predicate SameTransaction(t: Transaction, u: Transaction) {
    t.eventSeq == u.eventSeq && t.id == u.id && multiset(t.postings) == multiset(u.postings)
  }

  predicate SameLedger(a: seq<Transaction>, b: seq<Transaction>) {
    |a| == |b| && forall i :: 0 <= i < |a| ==> SameTransaction(a[i], b[i])
  }

  lemma TransactionInjective(t: Transaction, u: Transaction, x: Bytes, y: Bytes)
    requires PutTransaction(t, x) == PutTransaction(u, y)
    ensures SameTransaction(t, u) && x == y
  {
    var ps, qs := Sort(t.postings, PostingLeq), Sort(u.postings, PostingLeq);
    var t3, u3 := PutPostings(ps, x), PutPostings(qs, y);
    var t2, u2 := PutU64(|t.postings|, t3), PutU64(|u.postings|, u3);
    U64Prefix(t.eventSeq, u.eventSeq, PutBytes(t.id, t2), PutBytes(u.id, u2));
    BytesPrefix(t.id, u.id, t2, u2);
    U64Prefix(|t.postings|, |u.postings|, t3, u3);
    PostingsInjective(ps, qs, x, y);
  }

  lemma {:induction false} PutLedgerInjective(a: seq<Transaction>, b: seq<Transaction>)
    requires |a| == |b| && PutLedger(a) == PutLedger(b)
    ensures SameLedger(a, b)
    decreases |a|
  {
    if a != [] {
      TransactionInjective(a[0], b[0], PutLedger(a[1..]), PutLedger(b[1..]));
      PutLedgerInjective(a[1..], b[1..]);
      forall i | 0 <= i < |a| ensures SameTransaction(a[i], b[i]) {
        if i > 0 { assert a[i] == a[1..][i - 1] && b[i] == b[1..][i - 1]; }
      }
    }
  }

  lemma {:induction false} PutLedgerForgets(a: seq<Transaction>, b: seq<Transaction>)
    requires SameLedger(a, b)
    ensures PutLedger(a) == PutLedger(b)
    decreases |a|
  {
    if a != [] {
      PostingOrderIsTotal();
      SortForgetsOrderOnly(a[0].postings, b[0].postings, PostingLeq);
      assert |a[0].postings| == |multiset(a[0].postings)| == |b[0].postings|;
      assert SameLedger(a[1..], b[1..]);
      PutLedgerForgets(a[1..], b[1..]);
    }
  }

  /** Two ledgers have one encoding exactly when they differ in posting order at most. */
  lemma LedgerBinds(a: List<Transaction>, b: List<Transaction>)
    ensures LedgerBytes(a) == LedgerBytes(b) <==> SameLedger(a, b)
  {
    if LedgerBytes(a) == LedgerBytes(b) {
      FixedPrefix(LEDGER_TAG, LEDGER_TAG, PutU64(|a|, PutLedger(a)), PutU64(|b|, PutLedger(b)));
      U64Prefix(|a|, |b|, PutLedger(a), PutLedger(b));
      PutLedgerInjective(a, b);
    }
    if SameLedger(a, b) { PutLedgerForgets(a, b); }
  }

  /** Two manifest lists have one encoding exactly when they differ in order at most. */
  lemma ManifestsBind(a: List<Hash32>, b: List<Hash32>)
    ensures ManifestBytes(a) == ManifestBytes(b) <==> multiset(a) == multiset(b)
  {
    if multiset(a) == multiset(b) {
      LexIsTotal();
      SortForgetsOrderOnly<Bytes>(a, b, LexLeq);
      assert |a| == |multiset(a)| == |b|;
    }
    if ManifestBytes(a) == ManifestBytes(b) { ManifestsInjective(a, b); }
  }

  lemma MetricsInjective(m: Metrics, n: Metrics)
    requires PutMetrics(m) == PutMetrics(n)
    ensures m == n
  {
    var m4, n4 := PutI64(m.benchmarkReturn, []), PutI64(n.benchmarkReturn, []);
    var m3, n3 := PutI64(m.peakLeverage, m4), PutI64(n.peakLeverage, n4);
    var m2, n2 := PutI64(m.maxDrawdown, m3), PutI64(n.maxDrawdown, n3);
    var m1, n1 := PutI64(m.terminalReturn, m2), PutI64(n.terminalReturn, n2);
    U64Prefix(if m.survived then 1 else 0, if n.survived then 1 else 0, m1, n1);
    I64Prefix(m.terminalReturn, n.terminalReturn, m2, n2);
    I64Prefix(m.maxDrawdown, n.maxDrawdown, m3, n3);
    I64Prefix(m.peakLeverage, n.peakLeverage, m4, n4);
    I64Prefix(m.benchmarkReturn, n.benchmarkReturn, [], []);
  }

  lemma ResultInjective(s: Blob, m: Hash32, h: Hash32, st: Hash32, l: Hash32, x: Metrics,
                        s': Blob, m': Hash32, h': Hash32, st': Hash32, l': Hash32, x': Metrics)
    requires ResultBytes(s, m, h, st, l, x) == ResultBytes(s', m', h', st', l', x')
    ensures s == s' && m == m' && h == h' && st == st' && l == l' && x == x'
  {
    hide PutMetrics;
    var a4, b4 := l + PutMetrics(x), l' + PutMetrics(x');
    var a3, b3 := st + a4, st' + b4;
    var a2, b2 := h + a3, h' + b3;
    FixedPrefix(RESULT_TAG, RESULT_TAG, PutBytes(s, m + a2), PutBytes(s', m' + b2));
    BytesPrefix(s, s', m + a2, m' + b2);
    FixedPrefix(m, m', a2, b2);
    FixedPrefix(h, h', a3, b3);
    FixedPrefix(st, st', a4, b4);
    FixedPrefix(l, l', PutMetrics(x), PutMetrics(x'));
    MetricsInjective(x, x');
  }

  // --------------------------------------------------- what the result hash binds

  /** The chain messages of an input list: one per input. */
  function ChainMessages(inputs: List<InputEnvelope>, sha: HashFn): set<Bytes> {
    set n | 0 < n <= |inputs| :: ChainBytes(inputs[..n], sha)
  }

  function CommitmentMessages(b: ProofBundle, sha: HashFn): set<Bytes> {
    { ManifestBytes(b.manifestHashes), StateBytes(b.states), LedgerBytes(b.ledger),
      ResultBytes(b.sessionId, b.manifestSetHash, Head(b.inputs, sha), b.statesHash, b.ledgerHash, b.metrics) }
  }

  predicate CollisionFree(sha: HashFn, messages: set<Bytes>) {
    forall x, y :: x in messages && y in messages && sha(x) == sha(y) ==> x == y
  }

  predicate NeverZero(sha: HashFn, messages: set<Bytes>) {
    forall x :: x in messages ==> sha(x) != ZERO_HASH
  }

  lemma ChainMessage(inputs: List<InputEnvelope>, n: nat, sha: HashFn)
    requires 0 < n <= |inputs|
    ensures ChainBytes(inputs[..n], sha) in ChainMessages(inputs, sha)
    ensures Head(inputs[..n], sha) == sha(ChainBytes(inputs[..n], sha))
  {
  }

  lemma LastLink(a: List<InputEnvelope>, i: nat, b: List<InputEnvelope>, j: nat, sha: HashFn)
    requires 0 < i <= |a| && 0 < j <= |b| && ChainBytes(a[..i], sha) == ChainBytes(b[..j], sha)
    ensures i == j && a[i - 1] == b[j - 1] && Head(a[..i - 1], sha) == Head(b[..j - 1], sha)
  {
    hide Head, EventBytes;
    assert a[..i][..i - 1] == a[..i - 1] && b[..j][..j - 1] == b[..j - 1];
    EventInjective(Head(a[..i - 1], sha), i - 1, i, a[i - 1], sha(a[i - 1].payload),
                   Head(b[..j - 1], sha), j - 1, j, b[j - 1], sha(b[j - 1].payload));
  }

  /** Equal chain heads mean equal input histories, however long. */
  lemma {:induction false} HeadBindsInputs(a: List<InputEnvelope>, i: nat, b: List<InputEnvelope>, j: nat, sha: HashFn)
    requires i <= |a| && j <= |b| && Head(a[..i], sha) == Head(b[..j], sha)
    requires CollisionFree(sha, ChainMessages(a, sha) + ChainMessages(b, sha))
    requires NeverZero(sha, ChainMessages(a, sha) + ChainMessages(b, sha))
    ensures a[..i] == b[..j]
    decreases i
  {
    hide ChainBytes, Head, ChainMessages;
    if i == 0 { ChainStart(a, sha); }
    if j == 0 { ChainStart(b, sha); }
    if i > 0 { ChainMessage(a, i, sha); }
    if j > 0 { ChainMessage(b, j, sha); }
    if i > 0 && j > 0 {
      LastLink(a, i, b, j, sha);
      HeadBindsInputs(a, i - 1, b, j - 1, sha);
      assert a[..i] == a[..i - 1] + [a[i - 1]] && b[..j] == b[..j - 1] + [b[j - 1]];
    }
  }

  /** The same proof: manifest order and posting order are all that may differ. */
  predicate SameProof(a: ProofBundle, b: ProofBundle) {
    && a.sessionId == b.sessionId && a.inputs == b.inputs && a.events == b.events
    && a.states == b.states && a.metrics == b.metrics
    && multiset(a.manifestHashes) == multiset(b.manifestHashes)
    && SameLedger(a.ledger, b.ledger)
  }

  lemma SameEvents(a: ProofBundle, b: ProofBundle, sha: HashFn)
    requires Authentic(a, sha) && Authentic(b, sha) && a.inputs == b.inputs
    ensures a.events == b.events
  {
    forall i | 0 <= i < |a.events| ensures a.events[i] == b.events[i] {
      assert Chained(a, i, sha) && Chained(b, i, sha);
    }
  }

  /** For accepted bundles the result hash identifies the proof: equal hashes exactly when equal proofs. */
  lemma ResultHashBinds(a: ProofBundle, b: ProofBundle, sha: HashFn)
    requires Verify(a, sha).valid && Verify(b, sha).valid
    requires CollisionFree(sha, ChainMessages(a.inputs, sha) + ChainMessages(b.inputs, sha))
    requires NeverZero(sha, ChainMessages(a.inputs, sha) + ChainMessages(b.inputs, sha))
    requires CollisionFree(sha, CommitmentMessages(a, sha) + CommitmentMessages(b, sha))
    ensures a.resultHash == b.resultHash <==> SameProof(a, b)
  {
    hide ChainMessages, CommitmentMessages, CollisionFree, NeverZero, Verify, Head, Chained, Ascending, SoundLedger;
    hide ManifestBytes, StateBytes, LedgerBytes, ResultBytes, SameLedger;
    AcceptsExactlyAuthentic(a, sha);
    AcceptsExactlyAuthentic(b, sha);
    ManifestsBind(a.manifestHashes, b.manifestHashes);
    LedgerBinds(a.ledger, b.ledger);
    if a.resultHash == b.resultHash {
      CommitmentsAgree(a, b, sha);
      StatesInjective(a.states, b.states);
      assert a.inputs[..|a.inputs|] == a.inputs && b.inputs[..|b.inputs|] == b.inputs;
      HeadBindsInputs(a.inputs, |a.inputs|, b.inputs, |b.inputs|, sha);
      SameEvents(a, b, sha);
    }
  }

  lemma CommitmentsAgree(a: ProofBundle, b: ProofBundle, sha: HashFn)
    requires Authentic(a, sha) && Authentic(b, sha) && a.resultHash == b.resultHash
    requires CollisionFree(sha, CommitmentMessages(a, sha) + CommitmentMessages(b, sha))
    ensures a.sessionId == b.sessionId && a.metrics == b.metrics && Head(a.inputs, sha) == Head(b.inputs, sha)
    ensures ManifestBytes(a.manifestHashes) == ManifestBytes(b.manifestHashes)
    ensures StateBytes(a.states) == StateBytes(b.states) && LedgerBytes(a.ledger) == LedgerBytes(b.ledger)
  {
    hide Head, ResultBytes, ManifestBytes, StateBytes, LedgerBytes, Chained, Ascending, SoundLedger;
    ResultInjective(a.sessionId, a.manifestSetHash, Head(a.inputs, sha), a.statesHash, a.ledgerHash, a.metrics,
                    b.sessionId, b.manifestSetHash, Head(b.inputs, sha), b.statesHash, b.ledgerHash, b.metrics);
  }

  /** The same for exchanged text: one result hash admits one spelling of everything but the two orders. */
  lemma ResultTextBinds(v: WireProof, w: WireProof, sha: HashFn)
    requires VerifyText(v, sha).valid && VerifyText(w, sha).valid && v.resultHash == w.resultHash
    requires var a := Read(v).value.inputs;
             var b := Read(w).value.inputs;
             && CollisionFree(sha, ChainMessages(a, sha) + ChainMessages(b, sha))
             && NeverZero(sha, ChainMessages(a, sha) + ChainMessages(b, sha))
    requires CollisionFree(sha, CommitmentMessages(Read(v).value, sha) + CommitmentMessages(Read(w).value, sha))
    ensures v == w.(manifestHashes := v.manifestHashes, ledger := v.ledger)
    ensures SameLedger(Read(v).value.ledger, Read(w).value.ledger)
    ensures multiset(Read(v).value.manifestHashes) == multiset(Read(w).value.manifestHashes)
  {
    hide ChainMessages, CommitmentMessages, Verify, Read, Head;
    var a, b := Read(v).value, Read(w).value;
    ReadExact(v, a);
    ReadExact(w, b);
    HashTextExact(v.resultHash, a.resultHash);
    HashTextExact(w.resultHash, b.resultHash);
    ResultHashBinds(a, b, sha);
    SameCommitments(a, b, sha);
  }

  lemma SameCommitments(a: ProofBundle, b: ProofBundle, sha: HashFn)
    requires Verify(a, sha).valid && Verify(b, sha).valid && SameProof(a, b)
    ensures a.manifestSetHash == b.manifestSetHash && a.statesHash == b.statesHash && a.ledgerHash == b.ledgerHash
  {
    hide Verify, Head, Chained;
    AcceptsExactlyAuthentic(a, sha);
    AcceptsExactlyAuthentic(b, sha);
    ManifestsBind(a.manifestHashes, b.manifestHashes);
    LedgerBinds(a.ledger, b.ledger);
  }
}
