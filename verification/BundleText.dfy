/** The bundle as exchanged: numbers in decimal text, hashes and payloads in hexadecimal text. */
module BundleText {
  import opened Common
  import opened Bytes
  import opened Canonical
  import opened Kernel
  import opened WireText
  import opened Bundle

  const PROOF_VERSION: Text := Label("1")

  datatype WireInputRow = WireInputRow(
    sessionId: Text, inputSeq: Text, expectedVersion: Text, logicalTs: Text, kind: Text, payloadHex: Text)
  type WireInput = w: WireInputRow | |w.sessionId| + |w.kind| + |w.payloadHex| / 2 < 0x4000_0000_0000_0000
    witness WireInputRow([], [], [], [], [], [])

  datatype WireEvent = WireEvent(
    eventSeq: Text, stateVersion: Text, logicalTs: Text, kind: Text, payloadHash: Text, priorHash: Text, currentHash: Text)
  datatype WireState = WireState(eventSeq: Text, hash: Text)
  datatype WirePosting = WirePosting(account: Blob, amount: Text, currency: Blob)
  datatype WireTransaction = WireTransaction(eventSeq: Text, id: Blob, postings: List<WirePosting>)
  datatype WireMetrics = WireMetrics(
    survived: bool, terminalReturn: Text, maxDrawdown: Text, peakLeverage: Text, benchmarkReturn: Text)

  datatype WireProof = WireProof(
    version: Text, sessionId: Blob, manifestHashes: List<Text>, manifestSetHash: Text,
    inputs: List<WireInput>, events: List<WireEvent>, states: List<WireState>, statesHash: Text,
    ledger: List<WireTransaction>, ledgerHash: Text, metrics: WireMetrics, resultHash: Text)

  // ---------------------------------------------------------------------- reading

  /** Reads every element, or names the first that cannot be read. */
  function ReadAll<A, B>(xs: seq<A>, read: A -> Option<B>): (r: Result<seq<B>, nat>)
    ensures r.Ok? ==> |r.value| == |xs|
    decreases |xs|
  {
    if xs == [] then Ok([])
    else
      var n := |xs| - 1;
      var before :- ReadAll(xs[..n], read);
      var last := read(xs[n]);
      if last.None? then Err(n) else Ok(before + [last.value])
  }

  function ReadInput(w: WireInput): Option<InputEnvelope> {
    var inputSeq := DecimalU64(w.inputSeq);
    var expected := DecimalU64(w.expectedVersion);
    var ts := DecimalI64(w.logicalTs);
    var payload := DecodeHex(w.payloadHex);
    if w.sessionId == [] || inputSeq.None? || expected.None? || ts.None? || w.kind == [] || payload.None? then None
    else
      HexExact(w.payloadHex, payload.value);
      Some(Envelope(w.sessionId, inputSeq.value, expected.value, ts.value, w.kind, payload.value))
  }

  function ReadEvent(w: WireEvent): Option<KernelEvent> {
    var eventSeq := DecimalU64(w.eventSeq);
    var version := DecimalU64(w.stateVersion);
    var ts := DecimalI64(w.logicalTs);
    var payload := HashText(w.payloadHash);
    var prior := HashText(w.priorHash);
    var current := HashText(w.currentHash);
    if eventSeq.None? || version.None? || ts.None? || w.kind == [] || payload.None? || prior.None? || current.None?
    then None
    else Some(KernelEvent(eventSeq.value, version.value, ts.value, w.kind, payload.value, prior.value, current.value))
  }

  function ReadState(w: WireState): Option<StateHash> {
    var eventSeq := DecimalU64(w.eventSeq);
    var hash := HashText(w.hash);
    if eventSeq.None? || hash.None? then None else Some(StateHash(eventSeq.value, hash.value))
  }

  function ReadPosting(w: WirePosting): Option<Posting> {
    var amount := DecimalI64(w.amount);
    if w.account == [] || amount.None? || w.currency == [] then None
    else Some(Posting(w.account, amount.value, w.currency))
  }

  function ReadTransaction(w: WireTransaction): Option<Transaction> {
    var postings := ReadAll(w.postings, ReadPosting);
    var eventSeq := DecimalU64(w.eventSeq);
    if postings.Err? || eventSeq.None? || w.id == [] then None
    else Some(Transaction(eventSeq.value, w.id, postings.value))
  }

  function ReadMetrics(w: WireMetrics): Option<Metrics> {
    var a := DecimalI64(w.terminalReturn);
    var b := DecimalI64(w.maxDrawdown);
    var c := DecimalI64(w.peakLeverage);
    var d := DecimalI64(w.benchmarkReturn);
    if a.None? || b.None? || c.None? || d.None? then None
    else Some(Metrics(w.survived, a.value, b.value, c.value, d.value))
  }

  const BAD_FORMAT := Failure(Format, None)

  function Required<T>(x: Option<T>): Result<T, Failure> {
    if x.Some? then Ok(x.value) else Err(BAD_FORMAT)
  }

  function Indexed<T>(x: Result<seq<T>, nat>, code: FailureCode): Result<seq<T>, Failure> {
    if x.Ok? then Ok(x.value) else Err(Failure(code, Some(x.error)))
  }

  /** Reads a bundle field by field, in the order the verifier asks for them. */
  function Read(w: WireProof): Result<ProofBundle, Failure> {
    if w.version != PROOF_VERSION || w.sessionId == [] then Err(BAD_FORMAT)
    else
      var manifests :- Indexed(ReadAll(w.manifestHashes, HashText), ManifestHash);
      var manifestSetHash :- Required(HashText(w.manifestSetHash));
      var inputs :- Indexed(ReadAll(w.inputs, ReadInput), Format);
      var events :- Indexed(ReadAll(w.events, ReadEvent), Format);
      var states :- Indexed(ReadAll(w.states, ReadState), Format);
      var statesHash :- Required(HashText(w.statesHash));
      var ledger :- Indexed(ReadAll(w.ledger, ReadTransaction), Format);
      var ledgerHash :- Required(HashText(w.ledgerHash));
      var metrics :- Required(ReadMetrics(w.metrics));
      var resultHash :- Required(HashText(w.resultHash));
      Ok(ProofBundle(w.sessionId, manifests, manifestSetHash, inputs, events, states, statesHash, ledger, ledgerHash,
                     metrics, resultHash))
  }

  /** Verification of an exchanged bundle. */
  function VerifyText(w: WireProof, sha: HashFn): Report {
    var b := Read(w);
    if b.Err? then Fail(b.error, 0, 0, None) else Verify(b.value, sha)
  }

  // ---------------------------------------------------------------------- writing

  function WriteAll<A, B>(xs: seq<A>, write: A -> B): (ys: seq<B>)
    ensures |ys| == |xs| && forall i :: 0 <= i < |xs| ==> ys[i] == write(xs[i])
  {
    seq(|xs|, i requires 0 <= i < |xs| => write(xs[i]))
  }

  function WriteInput(e: InputEnvelope): WireInput {
    WireInputRow(e.sessionId, Digits(e.inputSeq), Digits(e.expectedVersion), Signed(e.logicalTs), e.kind, HexOf(e.payload))
  }

  function WriteEvent(e: KernelEvent): WireEvent {
    WireEvent(Digits(e.eventSeq), Digits(e.stateVersion), Signed(e.logicalTs), e.kind,
              HexOf(e.payloadHash), HexOf(e.priorHash), HexOf(e.currentHash))
  }

  function WriteState(s: StateHash): WireState { WireState(Digits(s.eventSeq), HexOf(s.hash)) }

  function WritePosting(p: Posting): WirePosting { WirePosting(p.account, Signed(p.amount), p.currency) }

  function WriteTransaction(t: Transaction): WireTransaction {
    WireTransaction(Digits(t.eventSeq), t.id, WriteAll(t.postings, WritePosting))
  }

  function WriteMetrics(m: Metrics): WireMetrics {
    WireMetrics(m.survived, Signed(m.terminalReturn), Signed(m.maxDrawdown), Signed(m.peakLeverage),
                Signed(m.benchmarkReturn))
  }

  function HexHash(h: Hash32): Text { HexOf(h) }

  function Write(b: ProofBundle): WireProof {
    WireProof(PROOF_VERSION, b.sessionId, WriteAll(b.manifestHashes, HexHash), HexOf(b.manifestSetHash),
              WriteAll(b.inputs, WriteInput), WriteAll(b.events, WriteEvent), WriteAll(b.states, WriteState),
              HexOf(b.statesHash), WriteAll(b.ledger, WriteTransaction), HexOf(b.ledgerHash),
              WriteMetrics(b.metrics), HexOf(b.resultHash))
  }

  // ------------------------------------------------ each value has one spelling

  predicate NamedInput(e: InputEnvelope) { e.sessionId != [] && e.kind != [] }

  predicate NamedPosting(p: Posting) { p.account != [] && p.currency != [] }

  predicate NamedTransaction(t: Transaction) {
    t.id != [] && forall i :: 0 <= i < |t.postings| ==> NamedPosting(t.postings[i])
  }

  /** Every name in the bundle is non-empty. */
  predicate Named(b: ProofBundle) {
    && b.sessionId != []
    && (forall i :: 0 <= i < |b.inputs| ==> NamedInput(b.inputs[i]))
    && (forall i :: 0 <= i < |b.events| ==> b.events[i].kind != [])
    && (forall i :: 0 <= i < |b.ledger| ==> NamedTransaction(b.ledger[i]))
  }

  lemma {:induction false} ReadAllExact<A, B>(xs: seq<A>, read: A -> Option<B>, ys: seq<B>)
    ensures ReadAll(xs, read) == Ok(ys) <==> |xs| == |ys| && forall i :: 0 <= i < |xs| ==> read(xs[i]) == Some(ys[i])
    decreases |xs|
  {
    var n := |xs| - 1;
    if xs != [] && |ys| == |xs| {
      ReadAllExact(xs[..n], read, ys[..n]);
      assert ys == ys[..n] + [ys[n]];
      var before := ReadAll(xs[..n], read);
      assert forall i :: 0 <= i < n ==> xs[..n][i] == xs[i] && ys[..n][i] == ys[i];
      if ReadAll(xs, read) == Ok(ys) { assert ys[..n] == before.value; }
    }
  }

  lemma InputExact(w: WireInput, e: InputEnvelope)
    ensures ReadInput(w) == Some(e) <==> w == WriteInput(e) && NamedInput(e)
  {
    DecimalU64Exact(w.inputSeq, e.inputSeq);
    DecimalU64Exact(w.expectedVersion, e.expectedVersion);
    DecimalI64Exact(w.logicalTs, e.logicalTs);
    HexExact(w.payloadHex, e.payload);
  }

  lemma EventExact(w: WireEvent, e: KernelEvent)
    ensures ReadEvent(w) == Some(e) <==> w == WriteEvent(e) && e.kind != []
  {
    DecimalU64Exact(w.eventSeq, e.eventSeq);
    DecimalU64Exact(w.stateVersion, e.stateVersion);
    DecimalI64Exact(w.logicalTs, e.logicalTs);
    HashTextExact(w.payloadHash, e.payloadHash);
    HashTextExact(w.priorHash, e.priorHash);
    HashTextExact(w.currentHash, e.currentHash);
  }

  lemma StateExact(w: WireState, s: StateHash)
    ensures ReadState(w) == Some(s) <==> w == WriteState(s)
  {
    DecimalU64Exact(w.eventSeq, s.eventSeq);
    HashTextExact(w.hash, s.hash);
  }

  lemma PostingExact(w: WirePosting, p: Posting)
    ensures ReadPosting(w) == Some(p) <==> w == WritePosting(p) && NamedPosting(p)
  {
    DecimalI64Exact(w.amount, p.amount);
  }

  lemma TransactionExact(w: WireTransaction, t: Transaction)
    ensures ReadTransaction(w) == Some(t) <==> w == WriteTransaction(t) && NamedTransaction(t)
  {
    DecimalU64Exact(w.eventSeq, t.eventSeq);
    ReadAllExact(w.postings, ReadPosting, t.postings);
    forall i | 0 <= i < |w.postings| && |w.postings| == |t.postings|
      ensures ReadPosting(w.postings[i]) == Some(t.postings[i])
              <==> w.postings[i] == WritePosting(t.postings[i]) && NamedPosting(t.postings[i])
    {
      PostingExact(w.postings[i], t.postings[i]);
    }
  }

  lemma MetricsExact(w: WireMetrics, m: Metrics)
    ensures ReadMetrics(w) == Some(m) <==> w == WriteMetrics(m)
  {
    DecimalI64Exact(w.terminalReturn, m.terminalReturn);
    DecimalI64Exact(w.maxDrawdown, m.maxDrawdown);
    DecimalI64Exact(w.peakLeverage, m.peakLeverage);
    DecimalI64Exact(w.benchmarkReturn, m.benchmarkReturn);
  }

  /** A list is read to exactly the values it spells. */
  lemma ListExact<A, B>(ws: seq<A>, read: A -> Option<B>, xs: seq<B>, write: B -> A, good: B -> bool)
    requires |ws| == |xs| ==> forall i :: 0 <= i < |ws| ==>
               (read(ws[i]) == Some(xs[i]) <==> ws[i] == write(xs[i]) && good(xs[i]))
    ensures ReadAll(ws, read) == Ok(xs)
            <==> ws == WriteAll(xs, write) && forall i :: 0 <= i < |xs| ==> good(xs[i])
  {
    ReadAllExact(ws, read, xs);
  }

  lemma ManifestsExact(ws: seq<Text>, hs: seq<Hash32>)
    ensures ReadAll(ws, HashText) == Ok(hs) <==> ws == WriteAll(hs, HexHash)
  {
    forall i | 0 <= i < |ws| && |ws| == |hs| ensures HashText(ws[i]) == Some(hs[i]) <==> ws[i] == HexHash(hs[i]) {
      HashTextExact(ws[i], hs[i]);
    }
    ListExact(ws, HashText, hs, HexHash, (h: Hash32) => true);
  }

  lemma InputsExact(ws: seq<WireInput>, es: seq<InputEnvelope>)
    ensures ReadAll(ws, ReadInput) == Ok(es)
            <==> ws == WriteAll(es, WriteInput) && forall i :: 0 <= i < |es| ==> NamedInput(es[i])
  {
    forall i | 0 <= i < |ws| && |ws| == |es|
      ensures ReadInput(ws[i]) == Some(es[i]) <==> ws[i] == WriteInput(es[i]) && NamedInput(es[i])
    {
      InputExact(ws[i], es[i]);
    }
    ListExact(ws, ReadInput, es, WriteInput, NamedInput);
  }

  lemma EventsExact(ws: seq<WireEvent>, es: seq<KernelEvent>)
    ensures ReadAll(ws, ReadEvent) == Ok(es)
            <==> ws == WriteAll(es, WriteEvent) && forall i :: 0 <= i < |es| ==> es[i].kind != []
  {
    forall i | 0 <= i < |ws| && |ws| == |es|
      ensures ReadEvent(ws[i]) == Some(es[i]) <==> ws[i] == WriteEvent(es[i]) && es[i].kind != []
    {
      EventExact(ws[i], es[i]);
    }
    ListExact(ws, ReadEvent, es, WriteEvent, (e: KernelEvent) => e.kind != []);
  }

  lemma StatesExact(ws: seq<WireState>, ss: seq<StateHash>)
    ensures ReadAll(ws, ReadState) == Ok(ss) <==> ws == WriteAll(ss, WriteState)
  {
    forall i | 0 <= i < |ws| && |ws| == |ss| ensures ReadState(ws[i]) == Some(ss[i]) <==> ws[i] == WriteState(ss[i]) {
      StateExact(ws[i], ss[i]);
    }
    ListExact(ws, ReadState, ss, WriteState, (s: StateHash) => true);
  }

  lemma LedgerExact(ws: seq<WireTransaction>, ts: seq<Transaction>)
    ensures ReadAll(ws, ReadTransaction) == Ok(ts)
            <==> ws == WriteAll(ts, WriteTransaction) && forall i :: 0 <= i < |ts| ==> NamedTransaction(ts[i])
  {
    forall i | 0 <= i < |ws| && |ws| == |ts|
      ensures ReadTransaction(ws[i]) == Some(ts[i]) <==> ws[i] == WriteTransaction(ts[i]) && NamedTransaction(ts[i])
    {
      TransactionExact(ws[i], ts[i]);
    }
    ListExact(ws, ReadTransaction, ts, WriteTransaction, NamedTransaction);
  }

  /** Reading accepts exactly what writing produces from a bundle whose names are non-empty. */
  lemma ReadExact(w: WireProof, b: ProofBundle)
    ensures Read(w) == Ok(b) <==> w == Write(b) && Named(b)
  {
    ManifestsExact(w.manifestHashes, b.manifestHashes);
    HashTextExact(w.manifestSetHash, b.manifestSetHash);
    InputsExact(w.inputs, b.inputs);
    EventsExact(w.events, b.events);
    StatesExact(w.states, b.states);
    HashTextExact(w.statesHash, b.statesHash);
    LedgerExact(w.ledger, b.ledger);
    HashTextExact(w.ledgerHash, b.ledgerHash);
    MetricsExact(w.metrics, b.metrics);
    HashTextExact(w.resultHash, b.resultHash);
  }
}
