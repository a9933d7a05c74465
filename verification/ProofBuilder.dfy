/** The result service's proof builder, and its agreement with the independent verifier. */
module ProofBuilder {
  import opened Common
  import opened Numeric
  import opened Bytes
  import opened Canonical
  import opened Kernel
  import opened Sorting
  import opened WireText
  import opened Bundle
  import opened BundleText
  import V = BundleVerifier

  // -------------------------------------------------------------------- evidence

  function CodePoints(t: Text): nat
    decreases |t|
  {
    if t == [] then 0 else (if Continuation(t[0]) then 0 else 1) + CodePoints(t[1..])
  }

  /** A name: one to two hundred characters, none of them NUL, CR or LF. */
  predicate Identity(t: Text) {
    ValidUtf8(t) && t != [] && CodePoints(t) <= 200 && forall i :: 0 <= i < |t| ==> t[i] !in {0, 10, 13}
  }

  predicate LowerHex(t: Text) { forall i :: 0 <= i < |t| ==> HexNibble(t[i]).Some? }

  datatype EvidenceInput = EvidenceInput(
    sessionId: Text, inputSeq: u64, expectedVersion: u64, logicalTs: i64, kind: Text, payloadHex: Text)
  datatype EvidenceState = EvidenceState(eventSeq: u64, hash: Text)
  datatype Evidence = Evidence(
    inputs: List<EvidenceInput>, states: List<EvidenceState>, ledger: List<Transaction>, metrics: Metrics)

  // What the evidence constructors enforce.

  predicate ValidInput(x: EvidenceInput) {
    && Identity(x.sessionId) && Identity(x.kind)
    && |x.payloadHex| % 2 == 0 && LowerHex(x.payloadHex) && |x.payloadHex| < 0x4000_0000_0000_0000
  }

  predicate ValidState(x: EvidenceState) { |x.hash| == 64 && LowerHex(x.hash) }

  predicate ValidPosting(p: Posting) { Identity(p.account) && Identity(p.currency) }

  predicate ValidTransaction(t: Transaction) {
    Identity(t.id) && |t.postings| >= 2 && forall i :: 0 <= i < |t.postings| ==> ValidPosting(t.postings[i])
  }

  predicate ValidEvidence(e: Evidence) {
    && (forall i :: 0 <= i < |e.inputs| ==> ValidInput(e.inputs[i]))
    && (forall i :: 0 <= i < |e.states| ==> ValidState(e.states[i]))
    && (forall i :: 0 <= i < |e.ledger| ==> ValidTransaction(e.ledger[i]))
  }

  lemma {:induction false} Utf8Length(t: Text)
    requires ValidUtf8(t)
    ensures |t| <= 4 * CodePoints(t)
    decreases |t|
  {
    if t != [] {
      var n := if t[0] < 0x80 then 1 else if t[0] <= 0xDF then 2 else if t[0] <= 0xEF then 3 else 4;
      Utf8Length(t[n..]);
      assert t[1..][n - 1..] == t[n..];
      CodePointsDrop(t[1..], n - 1);
    }
  }

  lemma {:induction false} CodePointsDrop(t: Text, n: nat)
    requires n <= |t|
    ensures CodePoints(t) >= CodePoints(t[n..])
    decreases n
  {
    if n == 0 {
      assert t[0..] == t;
    } else {
      assert t[1..][n - 1..] == t[n..];
      CodePointsDrop(t[1..], n - 1);
    }
  }

  lemma {:induction false} LowerHexDecodes(t: Text)
    requires |t| % 2 == 0 && LowerHex(t)
    ensures DecodeHex(t).Some? && |DecodeHex(t).value| == |t| / 2
    decreases |t|
  {
    if t != [] { LowerHexDecodes(t[2..]); }
  }

  function EnvelopeOf(x: EvidenceInput): InputEnvelope
    requires ValidInput(x)
  {
    LowerHexDecodes(x.payloadHex);
    Utf8Length(x.sessionId);
    Utf8Length(x.kind);
    Envelope(x.sessionId, x.inputSeq, x.expectedVersion, x.logicalTs, x.kind, DecodeHex(x.payloadHex).value)
  }

  function StateOf(x: EvidenceState): StateHash
    requires ValidState(x)
  {
    LowerHexDecodes(x.hash);
    StateHash(x.eventSeq, DecodeHex(x.hash).value)
  }

  function EnvelopesOf(xs: List<EvidenceInput>): (es: List<InputEnvelope>)
    requires forall i :: 0 <= i < |xs| ==> ValidInput(xs[i])
    ensures |es| == |xs|
  {
    seq(|xs|, i requires 0 <= i < |xs| => EnvelopeOf(xs[i]))
  }

  function StatesOf(xs: List<EvidenceState>): (ss: List<StateHash>)
    requires forall i :: 0 <= i < |xs| ==> ValidState(xs[i])
    ensures |ss| == |xs|
  {
    seq(|xs|, i requires 0 <= i < |xs| => StateOf(xs[i]))
  }

  // -------------------------------------------------- what the builder insists on

  predicate Contiguous(session: Text, xs: seq<EvidenceInput>) {
    forall i :: 0 <= i < |xs| ==> xs[i].sessionId == session && xs[i].inputSeq == i && xs[i].expectedVersion == i
  }

  predicate StatesAscendIn(xs: seq<EvidenceState>) {
    forall i :: 0 < i < |xs| ==> xs[i - 1].eventSeq < xs[i].eventSeq
  }

  predicate Consistent(session: Text, manifestHash: Text, e: Evidence) {
    && HashText(manifestHash).Some? && Contiguous(session, e.inputs)
    && StatesAscendIn(e.states) && SoundLedger(e.ledger)
  }

  // -------------------------------------------------------------- hash-chain loop

  function Field(value: Blob): Bytes { U64Bytes(|value|) + value }

  /** The input layout as the builder concatenates it. */
  function InputLayout(e: InputEnvelope): Bytes {
    INPUT_TAG + Field(e.sessionId) + U64Bytes(e.inputSeq) + U64Bytes(e.expectedVersion) + I64Bytes(e.logicalTs)
    + Field(e.kind) + Field(e.payload)
  }

  function EventLayout(prior: Hash32, i: u64, version: u64, e: InputEnvelope, payloadHash: Hash32, input: Blob): Bytes {
    EVENT_TAG + prior + U64Bytes(i) + U64Bytes(version) + I64Bytes(e.logicalTs) + Field(e.kind) + payloadHash
    + Field(input)
  }

  lemma Regroup(a: Bytes, b: Bytes, c: Bytes)
    ensures (a + b) + c == a + (b + c)
  {
  }

  lemma PutBytesIsField(value: Blob, rest: Bytes)
    ensures PutBytes(value, rest) == Field(value) + rest
  {
    Regroup(U64Bytes(|value|), value, rest);
  }

  /** Builder and kernel lay an input out identically. */
  lemma InputLayoutsAgree(e: InputEnvelope)
    ensures InputLayout(e) == CanonicalInput(e)
  {
    hide U64Bytes, I64Bytes, PutBytes, Field;
    var f1, f2, f3, f4 := Field(e.sessionId), U64Bytes(e.inputSeq), U64Bytes(e.expectedVersion), I64Bytes(e.logicalTs);
    var f5, f6 := Field(e.kind), Field(e.payload);
    PutBytesIsField(e.payload, []);
    assert f6 + [] == f6;
    PutBytesIsField(e.kind, f6);
    PutBytesIsField(e.sessionId, f2 + (f3 + (f4 + (f5 + f6))));
    Regroup(INPUT_TAG + f1 + f2 + f3 + f4, f5, f6);
    Regroup(INPUT_TAG + f1 + f2 + f3, f4, f5 + f6);
    Regroup(INPUT_TAG + f1 + f2, f3, f4 + (f5 + f6));
    Regroup(INPUT_TAG + f1, f2, f3 + (f4 + (f5 + f6)));
    Regroup(INPUT_TAG, f1, f2 + (f3 + (f4 + (f5 + f6))));
  }

  /** Builder and kernel lay an event out identically. */
  lemma EventLayoutsAgree(prior: Hash32, i: u64, version: u64, e: InputEnvelope, payloadHash: Hash32)
    ensures EventLayout(prior, i, version, e, payloadHash, CanonicalInput(e))
            == EventBytes(prior, i, version, e, payloadHash)
  {
    hide U64Bytes, I64Bytes, PutBytes, Field, CanonicalInput;
    var f2, f3, f4 := U64Bytes(i), U64Bytes(version), I64Bytes(e.logicalTs);
    var f5, f6, f7 := Field(e.kind), payloadHash, Field(CanonicalInput(e));
    PutBytesIsField(CanonicalInput(e), []);
    assert f7 + [] == f7;
    PutBytesIsField(e.kind, f6 + f7);
    Regroup(EVENT_TAG + prior + f2 + f3 + f4 + f5, f6, f7);
    Regroup(EVENT_TAG + prior + f2 + f3 + f4, f5, f6 + f7);
    Regroup(EVENT_TAG + prior + f2 + f3, f4, f5 + (f6 + f7));
    Regroup(EVENT_TAG + prior + f2, f3, f4 + (f5 + (f6 + f7)));
    Regroup(EVENT_TAG + prior, f2, f3 + (f4 + (f5 + (f6 + f7))));
    Regroup(EVENT_TAG, prior, f2 + (f3 + (f4 + (f5 + (f6 + f7)))));
  }

  function ChainEvents(es: List<InputEnvelope>, sha: HashFn): (events: List<KernelEvent>)
    ensures |events| == |es|
  {
    seq(|es|, i requires 0 <= i < |es| => ChainEvent(es, i, sha))
  }

  datatype BuildError = InvalidEvidence

  /** Builds the declared events; they are the kernel's own chain. */
  method KernelEvents(session: Text, xs: List<EvidenceInput>, sha: HashFn)
    returns (r: Result<(seq<WireEvent>, Text), BuildError>)
    requires forall i :: 0 <= i < |xs| ==> ValidInput(xs[i])
    ensures r.Ok? <==> Contiguous(session, xs)
    ensures r.Ok? ==> && r.value.0 == WriteAll(ChainEvents(EnvelopesOf(xs), sha), WriteEvent)
                      && r.value.1 == HexOf(Head(EnvelopesOf(xs), sha))
  {
    hide ValidInput, EventBytes, Head, WriteEvent, CanonicalInput;
    var events: seq<WireEvent> := [];
    var prior := ZERO_HASH;
    ghost var es := EnvelopesOf(xs);
    ChainStart(es, sha);
    for i := 0 to |xs|
      invariant forall j :: 0 <= j < i ==>
                  xs[j].sessionId == session && xs[j].inputSeq == j && xs[j].expectedVersion == j
      invariant prior == Head(es[..i], sha)
      invariant |events| == i && forall j :: 0 <= j < i ==> events[j] == WriteEvent(ChainEvent(es, j, sha))
    {
      if xs[i].sessionId != session { return Err(InvalidEvidence); }
      if xs[i].inputSeq != i || xs[i].expectedVersion != i { return Err(InvalidEvidence); }
      var event := ChainLink(prior, i, xs[i], sha);
      ChainStep(es, i, sha);
      events := events + [WriteEvent(event)];
      prior := event.currentHash;
    }
    assert es[..|xs|] == es;
    var text := WriteHex(prior);
    return Ok((events, text));
  }

  /** One link of the chain. */
  method ChainLink(prior: Hash32, i: u64, x: EvidenceInput, sha: HashFn) returns (event: KernelEvent)
    requires ValidInput(x) && i < U64_MAX
    ensures var e := EnvelopeOf(x);
            event == KernelEvent(i, i + 1, e.logicalTs, e.kind, sha(e.payload), prior,
                                 sha(EventBytes(prior, i, i + 1, e, sha(e.payload))))
  {
    hide EventBytes, CanonicalInput, InputLayout, EventLayout;
    var envelope := EnvelopeOf(x);
    var payloadHash := sha(envelope.payload);
    InputLayoutsAgree(envelope);
    var input := InputLayout(envelope);
    EventLayoutsAgree(prior, i, i + 1, envelope, payloadHash);
    var current := sha(EventLayout(prior, i, i + 1, envelope, payloadHash, input));
    event := KernelEvent(i, i + 1, x.logicalTs, x.kind, payloadHash, prior, current);
  }

  // ------------------------------------------------------------------ commitments

  predicate AllHashes(ts: seq<Text>) { forall i :: 0 <= i < |ts| ==> HashText(ts[i]).Some? }

  function Decoded(ts: seq<Text>): (hs: seq<Hash32>)
    requires AllHashes(ts)
    ensures |hs| == |ts|
  {
    seq(|ts|, i requires 0 <= i < |ts| => HashText(ts[i]).value)
  }

  lemma {:induction false} DecodedHex(ts: seq<Text>)
    requires AllHashes(ts)
    ensures HexAll(Decoded(ts)) == ts
    decreases |ts|
  {
    if ts != [] {
      HashTextExact(ts[0], HashText(ts[0]).value);
      assert Decoded(ts)[1..] == Decoded(ts[1..]);
      DecodedHex(ts[1..]);
    }
  }

  lemma {:induction false} HexAllInjective(a: seq<Bytes>, b: seq<Bytes>)
    requires HexAll(a) == HexAll(b)
    ensures a == b
    decreases |a|
  {
    assert |HexAll(a)| == |a| == |b|;
    if a != [] {
      assert HexAll(a)[0] == HexOf(a[0]) && HexAll(b)[0] == HexOf(b[0]);
      HexExact(HexOf(a[0]), a[0]);
      HexExact(HexOf(b[0]), b[0]);
      assert HexAll(a)[1..] == HexAll(a[1..]) && HexAll(b)[1..] == HexAll(b[1..]);
      HexAllInjective(a[1..], b[1..]);
      assert a == [a[0]] + a[1..] && b == [b[0]] + b[1..];
    }
  }

  lemma SortedTextIsHashes(ts: seq<Text>)
    ensures AllHashes(Sort(ts, LexLeq)) <==> AllHashes(ts)
  {
    var sorted := Sort(ts, LexLeq);
    assert forall t :: t in multiset(ts) <==> t in multiset(sorted);
    assert forall i :: 0 <= i < |ts| ==> ts[i] in multiset(sorted);
    assert forall i :: 0 <= i < |sorted| ==> sorted[i] in multiset(ts);
    assert forall t :: t in multiset(ts) ==> t in ts;
    assert forall t :: t in multiset(sorted) ==> t in sorted;
  }

  /** Sorting the hexadecimal text or sorting the bytes: the same list of hashes. */
  lemma SortsAgree(ts: seq<Text>)
    requires AllHashes(ts)
    ensures AllHashes(Sort(ts, LexLeq)) && Decoded(Sort(ts, LexLeq)) == Sort<Bytes>(Decoded(ts), LexLeq)
  {
    SortedTextIsHashes(ts);
    DecodedHex(ts);
    HexAllSort(Decoded(ts));
    DecodedHex(Sort(ts, LexLeq));
    HexAllInjective(Decoded(Sort(ts, LexLeq)), Sort<Bytes>(Decoded(ts), LexLeq));
  }

  lemma {:induction false} PutHashesAppend(hs: seq<Bytes>, h: Bytes)
    ensures PutHashes(hs + [h]) == PutHashes(hs) + h
    decreases |hs|
  {
    if hs == [] {
      assert hs + [h] == [h] && PutHashes([]) + h == h && h + [] == h;
      assert [h][1..] == [];
    } else {
      assert (hs + [h])[1..] == hs[1..] + [h];
      PutHashesAppend(hs[1..], h);
      Regroup(hs[0], PutHashes(hs[1..]), h);
    }
  }

  /** Validates and decodes each hash in turn, appending its bytes. */
  method AppendHashes(start: Bytes, ordered: seq<Text>) returns (r: Result<Bytes, BuildError>)
    ensures r.Ok? <==> AllHashes(ordered)
    ensures r.Ok? ==> r.value == start + PutHashes(Decoded(ordered))
  {
    hide HashText, PutHashes;
    var raw := start;
    NoHashes();
    for i := 0 to |ordered|
      invariant AllHashes(ordered[..i])
      invariant raw == start + PutHashes(Decoded(ordered[..i]))
    {
      var hash := HashText(ordered[i]);
      if hash.None? { return Err(InvalidEvidence); }
      assert ordered[..i + 1] == ordered[..i] + [ordered[i]];
      assert Decoded(ordered[..i + 1]) == Decoded(ordered[..i]) + [hash.value];
      PutHashesAppend(Decoded(ordered[..i]), hash.value);
      Regroup(start, PutHashes(Decoded(ordered[..i])), hash.value);
      raw := raw + hash.value;
    }
    assert ordered[..|ordered|] == ordered;
    return Ok(raw);
  }

  lemma NoHashes()
    ensures PutHashes([]) == []
  {
  }

  method ManifestCommitment(hashes: List<Text>, sha: HashFn) returns (r: Result<Text, BuildError>)
    ensures r.Ok? <==> AllHashes(hashes)
    ensures r.Ok? ==> r.value == HexOf(sha(ManifestBytes(Decoded(hashes))))
  {
    hide AllHashes, U64Bytes, LexLeq, Decoded;
    var ordered := Sort(hashes, LexLeq);
    SortedTextIsHashes(hashes);
    var raw := AppendHashes(MANIFEST_TAG + U64Bytes(|ordered|), ordered);
    if raw.Err? { return Err(InvalidEvidence); }
    SortsAgree(hashes);
    Regroup(MANIFEST_TAG, U64Bytes(|ordered|), PutHashes(Decoded(ordered)));
    var text := WriteHex(sha(raw.value));
    return Ok(text);
  }

  lemma {:induction false} PutStatesAppend(ss: seq<StateHash>, s: StateHash)
    ensures PutStates(ss + [s]) == PutStates(ss) + U64Bytes(s.eventSeq) + s.hash
    decreases |ss|
  {
    hide U64Bytes;
    if ss == [] {
      assert ss + [s] == [s] && [s][1..] == [] && s.hash + [] == s.hash;
    } else {
      assert (ss + [s])[1..] == ss[1..] + [s];
      PutStatesAppend(ss[1..], s);
    }
  }

  method StateHashCommitment(xs: List<EvidenceState>, sha: HashFn) returns (r: Result<Text, BuildError>)
    requires forall i :: 0 <= i < |xs| ==> ValidState(xs[i])
    ensures r.Ok? <==> StatesAscendIn(xs)
    ensures r.Ok? ==> r.value == HexOf(sha(StateBytes(StatesOf(xs))))
  {
    hide ValidState, U64Bytes;
    var start := STATES_TAG + U64Bytes(|xs|);
    var raw := start;
    var prior: Option<u64> := None;
    ghost var ss := StatesOf(xs);
    for i := 0 to |xs|
      invariant prior == if i == 0 then None else Some(xs[i - 1].eventSeq)
      invariant forall j :: 0 < j < i ==> xs[j - 1].eventSeq < xs[j].eventSeq
      invariant raw == start + PutStates(ss[..i])
    {
      if prior.Some? && xs[i].eventSeq <= prior.value { return Err(InvalidEvidence); }
      prior := Some(xs[i].eventSeq);
      var state := StateOf(xs[i]);
      assert ss[..i + 1] == ss[..i] + [state];
      PutStatesAppend(ss[..i], state);
      raw := raw + U64Bytes(state.eventSeq) + state.hash;
    }
    assert ss[..|xs|] == ss;
    Regroup(STATES_TAG, U64Bytes(|xs|), PutStates(ss));
    var text := WriteHex(sha(raw));
    return Ok(text);
  }

  method RequireBalanced(t: Transaction) returns (ok: bool)
    ensures ok <==> Balanced(t.postings)
  {
    hide V.CurrencyTotals;
    var totals: map<Bytes, int> := map[];
    V.NoTotals();
    assert t.postings[..0] == [];
    for j := 0 to |t.postings|
      invariant V.CurrencyTotals(totals, t.postings[..j])
    {
      var p := t.postings[j];
      V.CurrencyTotalsStep(totals, t.postings[..j], p);
      assert t.postings[..j + 1] == t.postings[..j] + [p];
      totals := totals[p.currency := (if p.currency in totals then totals[p.currency] else 0) + p.amount];
    }
    assert t.postings[..|t.postings|] == t.postings;
    V.TotalsTellBalance(totals, t.postings);
    ok := !exists c :: c in totals && totals[c] != 0;
  }

  lemma {:induction false} PutPostingsRest(ps: seq<Posting>, rest: Bytes)
    ensures PutPostings(ps, rest) == PutPostings(ps, []) + rest
    decreases |ps|
  {
    if ps != [] { PutPostingsRest(ps[1..], rest); }
  }

  lemma PutTransactionRest(t: Transaction, rest: Bytes)
    ensures PutTransaction(t, rest) == PutTransaction(t, []) + rest
  {
    PutPostingsRest(Sort(t.postings, PostingLeq), rest);
  }

  lemma {:induction false} PutLedgerAppend(ts: seq<Transaction>, t: Transaction)
    ensures PutLedger(ts + [t]) == PutLedger(ts) + PutTransaction(t, [])
    decreases |ts|
  {
    hide PutTransaction;
    if ts == [] {
      assert ts + [t] == [t] && [t][1..] == [];
    } else {
      assert (ts + [t])[1..] == ts[1..] + [t];
      PutLedgerAppend(ts[1..], t);
      PutTransactionRest(ts[0], PutLedger(ts[1..]));
      PutTransactionRest(ts[0], PutLedger(ts[1..] + [t]));
    }
  }

  lemma PutPostingsAppend(ps: seq<Posting>, p: Posting)
    ensures PutPostings(ps + [p], []) == PutPostings(ps, []) + Field(p.currency) + Field(p.account) + I64Bytes(p.amount)
    decreases |ps|
  {
    hide U64Bytes, I64Bytes;
    if ps == [] {
      assert ps + [p] == [p] && [p][1..] == [];
    } else {
      assert (ps + [p])[1..] == ps[1..] + [p];
      PutPostingsAppend(ps[1..], p);
    }
  }

  /** The bytes of one transaction, appended field by field. */
  method TransactionBytes(t: Transaction) returns (raw: Bytes)
    ensures raw == PutTransaction(t, [])
  {
    hide U64Bytes, I64Bytes, PutPostings, PostingLeq, Sort;
    var postings := Sort(t.postings, PostingLeq);
    var start := U64Bytes(t.eventSeq) + Field(t.id) + U64Bytes(|postings|);
    raw := start;
    NoPostings();
    assert postings[..0] == [];
    for j := 0 to |postings|
      invariant raw == start + PutPostings(postings[..j], [])
    {
      var p := postings[j];
      assert postings[..j + 1] == postings[..j] + [p];
      PutPostingsAppend(postings[..j], p);
      raw := raw + Field(p.currency) + Field(p.account) + I64Bytes(p.amount);
    }
    assert postings[..|postings|] == postings;
  }

  lemma NoPostings()
    ensures PutPostings([], []) == []
  {
  }

  method LedgerCommitment(ts: List<Transaction>, sha: HashFn) returns (r: Result<Text, BuildError>)
    requires forall i :: 0 <= i < |ts| ==> |ts[i].postings| >= 2
    ensures r.Ok? <==> SoundLedger(ts)
    ensures r.Ok? ==> r.value == HexOf(sha(LedgerBytes(ts)))
  {
    hide PutTransaction, U64Bytes, Balanced;
    var start := LEDGER_TAG + U64Bytes(|ts|);
    var raw := start;
    var seen: set<Bytes> := {};
    var prior: Option<u64> := None;
    for i := 0 to |ts|
      invariant seen == set j | 0 <= j < i :: ts[j].id
      invariant prior == if i == 0 then None else Some(ts[i - 1].eventSeq)
      invariant forall j :: 0 <= j < i ==> SoundTransaction(ts, j)
      invariant raw == start + PutLedger(ts[..i])
    {
      var t := ts[i];
      if t.id in seen {
        assert !SoundTransaction(ts, i);
        return Err(InvalidEvidence);
      }
      seen := seen + {t.id};
      if prior.Some? && t.eventSeq < prior.value {
        assert !SoundTransaction(ts, i);
        return Err(InvalidEvidence);
      }
      prior := Some(t.eventSeq);
      var balanced := RequireBalanced(t);
      if !balanced {
        assert !SoundTransaction(ts, i);
        return Err(InvalidEvidence);
      }
      var bytes := TransactionBytes(t);
      assert ts[..i + 1] == ts[..i] + [t];
      PutLedgerAppend(ts[..i], t);
      Regroup(start, PutLedger(ts[..i]), bytes);
      raw := raw + bytes;
    }
    assert ts[..|ts|] == ts;
    Regroup(LEDGER_TAG, U64Bytes(|ts|), PutLedger(ts));
    var text := WriteHex(sha(raw));
    return Ok(text);
  }

  /** The final commitment over the four section commitments, given as text. */
  method ResultCommitment(session: Blob, manifests: Text, head: Text, states: Text, ledger: Text, m: Metrics, sha: HashFn)
    returns (r: Text)
    requires HashText(manifests).Some? && HashText(head).Some? && HashText(states).Some? && HashText(ledger).Some?
    ensures r == HexOf(sha(ResultBytes(session, HashText(manifests).value, HashText(head).value, HashText(states).value,
                                       HashText(ledger).value, m)))
  {
    hide HashText, U64Bytes, I64Bytes;
    var raw := RESULT_TAG + Field(session);
    raw := raw + HashText(manifests).value + HashText(head).value + HashText(states).value + HashText(ledger).value;
    raw := raw + U64Bytes(if m.survived then 1 else 0);
    raw := raw + I64Bytes(m.terminalReturn) + I64Bytes(m.maxDrawdown) + I64Bytes(m.peakLeverage)
           + I64Bytes(m.benchmarkReturn);
    ResultLayoutsAgree(session, HashText(manifests).value, HashText(head).value, HashText(states).value,
                       HashText(ledger).value, m);
    r := WriteHex(sha(raw));
  }

  lemma ResultLayoutsAgree(session: Blob, a: Hash32, b: Hash32, c: Hash32, d: Hash32, m: Metrics)
    ensures RESULT_TAG + Field(session) + a + b + c + d + U64Bytes(if m.survived then 1 else 0)
            + (I64Bytes(m.terminalReturn)) + I64Bytes(m.maxDrawdown) + I64Bytes(m.peakLeverage)
            + I64Bytes(m.benchmarkReturn)
            == ResultBytes(session, a, b, c, d, m)
  {
    hide U64Bytes, I64Bytes, Field, PutBytes;
    var s := U64Bytes(if m.survived then 1 else 0);
    var m1, m2, m3, m4 := I64Bytes(m.terminalReturn), I64Bytes(m.maxDrawdown), I64Bytes(m.peakLeverage),
                          I64Bytes(m.benchmarkReturn);
    assert PutMetrics(m) == s + (m1 + (m2 + (m3 + m4))) by { assert m4 + [] == m4; }
    PutBytesIsField(session, a + (b + (c + (d + PutMetrics(m)))));
    var t := RESULT_TAG + Field(session);
    Regroup(t + a + b + c + d + s + m1 + m2, m3, m4);
    Regroup(t + a + b + c + d + s + m1, m2, m3 + m4);
    Regroup(t + a + b + c + d + s, m1, m2 + (m3 + m4));
    Regroup(t + a + b + c + d, s, m1 + (m2 + (m3 + m4)));
    Regroup(t + a + b + c, d, PutMetrics(m));
    Regroup(t + a + b, c, d + PutMetrics(m));
    Regroup(t + a, b, c + (d + PutMetrics(m)));
    Regroup(t, a, b + (c + (d + PutMetrics(m))));
    Regroup(RESULT_TAG, Field(session), a + (b + (c + (d + PutMetrics(m)))));
  }

  // ------------------------------------------------------------------------- proof

  /** The bundle that consistent evidence describes. */
  function BundleOf(session: Blob, manifestHash: Text, e: Evidence, sha: HashFn): ProofBundle
    requires ValidEvidence(e) && HashText(manifestHash).Some?
  {
    var manifests := [HashText(manifestHash).value];
    var inputs := EnvelopesOf(e.inputs);
    var states := StatesOf(e.states);
    var manifestSetHash := sha(ManifestBytes(manifests));
    var statesHash := sha(StateBytes(states));
    var ledgerHash := sha(LedgerBytes(e.ledger));
    ProofBundle(session, manifests, manifestSetHash, inputs, ChainEvents(inputs, sha), states, statesHash,
                e.ledger, ledgerHash, e.metrics,
                sha(ResultBytes(session, manifestSetHash, Head(inputs, sha), statesHash, ledgerHash, e.metrics)))
  }

  lemma BuiltIsNamed(session: Blob, manifestHash: Text, e: Evidence, sha: HashFn)
    requires ValidEvidence(e) && HashText(manifestHash).Some? && session != []
    ensures Named(BundleOf(session, manifestHash, e, sha))
  {
    hide Head, ManifestBytes, StateBytes, LedgerBytes, ResultBytes, HashText, ValidUtf8, CodePoints;
    forall i | 0 <= i < |e.ledger| ensures NamedTransaction(e.ledger[i]) {
      assert ValidTransaction(e.ledger[i]);
      forall j | 0 <= j < |e.ledger[i].postings| ensures NamedPosting(e.ledger[i].postings[j]) {
        assert ValidPosting(e.ledger[i].postings[j]);
      }
    }
    forall i | 0 <= i < |e.inputs| ensures NamedInput(EnvelopesOf(e.inputs)[i]) {
      assert ValidInput(e.inputs[i]);
    }
  }

  lemma BuiltIsAuthentic(session: Blob, manifestHash: Text, e: Evidence, sha: HashFn)
    requires ValidEvidence(e) && Consistent(session, manifestHash, e)
    ensures Authentic(BundleOf(session, manifestHash, e, sha), sha)
  {
    hide Head, ManifestBytes, StateBytes, LedgerBytes, ResultBytes, HashText, ValidInput, ValidState, SoundLedger;
    var b := BundleOf(session, manifestHash, e, sha);
    forall i | 0 <= i < |b.inputs| ensures Chained(b, i, sha) {
      assert ValidInput(e.inputs[i]) && b.inputs[i] == EnvelopeOf(e.inputs[i]);
    }
    forall i | 0 < i < |b.states| ensures b.states[i - 1].eventSeq < b.states[i].eventSeq {
      assert ValidState(e.states[i]) && ValidState(e.states[i - 1]);
    }
  }

  /** Every proof built from consistent evidence is accepted, with the builder's own commitments. */
  lemma BuiltIsAccepted(session: Blob, manifestHash: Text, e: Evidence, sha: HashFn)
    requires ValidEvidence(e) && Consistent(session, manifestHash, e) && session != []
    ensures var b := BundleOf(session, manifestHash, e, sha);
            && Read(Write(b)) == Ok(b)
            && VerifyText(Write(b), sha) == Report(true, None, Some(HexOf(Head(b.inputs, sha))),
                                                   Some(HexOf(b.resultHash)), |e.inputs|, |e.ledger|)
  {
    hide Head, Verify, Read, Write, Authentic, Named;
    var b := BundleOf(session, manifestHash, e, sha);
    BuiltIsNamed(session, manifestHash, e, sha);
    BuiltIsAuthentic(session, manifestHash, e, sha);
    ReadExact(Write(b), b);
    AcceptsExactlyAuthentic(b, sha);
  }

  function WriteEvidenceInput(x: EvidenceInput): WireInput
    requires ValidInput(x)
  {
    Utf8Length(x.sessionId);
    Utf8Length(x.kind);
    WireInputRow(x.sessionId, Digits(x.inputSeq), Digits(x.expectedVersion), Signed(x.logicalTs), x.kind, x.payloadHex)
  }

  function WriteEvidenceState(x: EvidenceState): WireState { WireState(Digits(x.eventSeq), x.hash) }

  lemma EvidenceTextAgrees(e: Evidence)
    requires ValidEvidence(e)
    ensures forall i :: 0 <= i < |e.inputs| ==> WriteEvidenceInput(e.inputs[i]) == WriteInput(EnvelopeOf(e.inputs[i]))
    ensures forall i :: 0 <= i < |e.states| ==> WriteEvidenceState(e.states[i]) == WriteState(StateOf(e.states[i]))
  {
    forall i | 0 <= i < |e.inputs|
      ensures WriteEvidenceInput(e.inputs[i]) == WriteInput(EnvelopeOf(e.inputs[i]))
    {
      var x := e.inputs[i];
      assert ValidInput(x);
      LowerHexDecodes(x.payloadHex);
      HexExact(x.payloadHex, DecodeHex(x.payloadHex).value);
    }
    forall i | 0 <= i < |e.states|
      ensures WriteEvidenceState(e.states[i]) == WriteState(StateOf(e.states[i]))
    {
      var x := e.states[i];
      assert ValidState(x);
      LowerHexDecodes(x.hash);
      HexExact(x.hash, DecodeHex(x.hash).value);
    }
  }

  /** The proof of a session: it fails exactly on inconsistent evidence, and is otherwise accepted. */
  method BuildProof(session: Blob, manifestHash: Text, e: Evidence, sha: HashFn)
    returns (r: Result<WireProof, BuildError>)
    requires ValidEvidence(e) && session != []
    ensures r.Ok? <==> Consistent(session, manifestHash, e)
    ensures r.Ok? ==> r.value == Write(BundleOf(session, manifestHash, e, sha))
    ensures r.Ok? ==> && VerifyText(r.value, sha).valid
                      && VerifyText(r.value, sha).resultHash == Some(r.value.resultHash)
  {
    hide Head, ManifestBytes, StateBytes, LedgerBytes, ResultBytes, HashText, SoundLedger, VerifyText, ValidInput,
         ValidState, ValidTransaction, EnvelopeOf, StateOf, WriteInput, WriteState, WriteEvidenceInput;
    var manifests := [manifestHash];
    var manifestSetHash := ManifestCommitment(manifests, sha);
    assert AllHashes(manifests) <==> HashText(manifests[0]).Some?;
    if manifestSetHash.Err? { return Err(InvalidEvidence); }
    var chain := KernelEvents(session, e.inputs, sha);
    if chain.Err? { return Err(InvalidEvidence); }
    var statesHash := StateHashCommitment(e.states, sha);
    if statesHash.Err? { return Err(InvalidEvidence); }
    LargeLedger(e);
    var ledgerHash := LedgerCommitment(e.ledger, sha);
    if ledgerHash.Err? { return Err(InvalidEvidence); }
    ghost var b := BundleOf(session, manifestHash, e, sha);
    assert Decoded(manifests) == b.manifestHashes;
    HashTextExact(manifestSetHash.value, b.manifestSetHash);
    HashTextExact(chain.value.1, Head(b.inputs, sha));
    HashTextExact(statesHash.value, b.statesHash);
    HashTextExact(ledgerHash.value, b.ledgerHash);
    var resultHash := ResultCommitment(session, manifestSetHash.value, chain.value.1, statesHash.value,
                                       ledgerHash.value, e.metrics, sha);
    EvidenceTextAgrees(e);
    HashTextExact(manifestHash, HashText(manifestHash).value);
    BuiltIsAccepted(session, manifestHash, e, sha);
    var inputs := seq(|e.inputs|, i requires 0 <= i < |e.inputs| => WriteEvidenceInput(e.inputs[i]));
    var proof := WireProof(
      PROOF_VERSION, session, manifests, manifestSetHash.value, inputs, chain.value.0,
      WriteAll(e.states, WriteEvidenceState), statesHash.value, WriteAll(e.ledger, WriteTransaction),
      ledgerHash.value, WriteMetrics(e.metrics), resultHash);
    assert proof == Write(b);
    return Ok(proof);
  }

  lemma LargeLedger(e: Evidence)
    requires ValidEvidence(e)
    ensures forall i :: 0 <= i < |e.ledger| ==> |e.ledger[i].postings| >= 2
  {
    forall i | 0 <= i < |e.ledger| ensures |e.ledger[i].postings| >= 2 { assert ValidTransaction(e.ledger[i]); }
  }
}
