/** Deterministic sequencing, state versions and the event hash chain. */
module Kernel {
  import opened Common
  import opened Numeric
  import opened Bytes
  import opened Canonical

  const ZERO: Bytes := [0, 0, 0, 0, 0, 0, 0, 0, 0, 0, 0, 0, 0, 0, 0, 0,
                        0, 0, 0, 0, 0, 0, 0, 0, 0, 0, 0, 0, 0, 0, 0, 0]
  type Hash32 = h: Bytes | |h| == 32 witness ZERO
  type HashFn = Bytes -> Hash32

  const ZERO_HASH: Hash32 := ZERO
  const INPUT_TAG: Bytes := Label("TRL-KERNEL-INPUT-v1") + [0]
  const EVENT_TAG: Bytes := Label("TRL-KERNEL-EVENT-v1") + [0]

  datatype Envelope = Envelope(
    sessionId: Text, inputSeq: u64, expectedVersion: u64, logicalTs: i64, kind: Text, payload: Bytes)

  /** An envelope that exists in memory: its canonical form has a 64-bit length. */
  type InputEnvelope = e: Envelope | |e.sessionId| + |e.kind| + |e.payload| < 0x4000_0000_0000_0000
    witness Envelope([], 0, 0, 0, [], [])

  function CanonicalInput(e: InputEnvelope): (bs: Bytes)
    ensures |bs| <= U64_MAX
  {
    INPUT_TAG + PutBytes(e.sessionId, PutU64(e.inputSeq, PutU64(e.expectedVersion,
      PutI64(e.logicalTs, PutBytes(e.kind, PutBytes(e.payload, []))))))
  }

  datatype KernelEvent = KernelEvent(
    eventSeq: u64, stateVersion: u64, logicalTs: i64, kind: Text,
    payloadHash: Hash32, priorHash: Hash32, currentHash: Hash32)

  datatype KernelState = KernelState(nextInputSeq: u64, nextEventSeq: u64, stateVersion: u64, currentHash: Hash32)

  datatype KernelError =
    | InputSequence(expected: u64, actual: u64) | StateVersion(expected: u64, actual: u64)
    | InvalidKernelSnapshot | KernelCounterOverflow

  const NEW_KERNEL := KernelState(0, 0, 0, ZERO_HASH)

  /** The bytes whose hash is the next chain head. */
  function EventBytes(prior: Hash32, seqNo: u64, version: u64, e: InputEnvelope, payloadHash: Hash32): Bytes {
    EVENT_TAG + (prior + PutU64(seqNo, PutU64(version, PutI64(e.logicalTs, PutBytes(e.kind,
      payloadHash + PutBytes(CanonicalInput(e), []))))))
  }

  function KernelApply(k: KernelState, e: InputEnvelope, sha: HashFn): Result<(KernelState, KernelEvent), KernelError> {
    if e.inputSeq != k.nextInputSeq then Err(InputSequence(k.nextInputSeq, e.inputSeq))
    else if e.expectedVersion != k.stateVersion then Err(StateVersion(k.stateVersion, e.expectedVersion))
    else if k.nextInputSeq == U64_MAX || k.nextEventSeq == U64_MAX || k.stateVersion == U64_MAX
    then Err(KernelCounterOverflow)
    else
      var payloadHash := sha(e.payload);
      var current := sha(EventBytes(k.currentHash, k.nextEventSeq, k.stateVersion + 1, e, payloadHash));
      Ok((KernelState(k.nextInputSeq + 1, k.nextEventSeq + 1, k.stateVersion + 1, current),
          KernelEvent(k.nextEventSeq, k.stateVersion + 1, e.logicalTs, e.kind, payloadHash, k.currentHash, current)))
  }

  function KernelFromSnapshot(k: KernelState): Result<KernelState, KernelError> {
    if k.nextInputSeq != k.nextEventSeq || k.stateVersion != k.nextInputSeq
       || (k.nextEventSeq == 0 && k.currentHash != ZERO_HASH)
       || (k.nextEventSeq > 0 && k.currentHash == ZERO_HASH)
    then Err(InvalidKernelSnapshot) else Ok(k)
  }

  /** An ordered batch: stops at the first error, keeping what was applied before it. */
  function KernelBatch(k: KernelState, es: seq<InputEnvelope>, sha: HashFn)
    : (KernelState, seq<KernelEvent>, Option<KernelError>)
    decreases |es|
  {
    if es == [] then (k, [], None)
    else
      match KernelApply(k, es[0], sha)
      case Err(error) => (k, [], Some(error))
      case Ok((next, event)) =>
        var (last, events, failed) := KernelBatch(next, es[1..], sha);
        (last, [event] + events, failed)
  }

  /** Splitting one input stream into batches changes neither events nor heads. */
  lemma {:induction false} BatchesCompose(k: KernelState, xs: seq<InputEnvelope>, ys: seq<InputEnvelope>, sha: HashFn)
    ensures var (mid, first, failed) := KernelBatch(k, xs, sha);
            KernelBatch(k, xs + ys, sha)
            == if failed.Some? then (mid, first, failed)
               else var (last, second, e) := KernelBatch(mid, ys, sha); (last, first + second, e)
    decreases |xs|
  {
    if xs == [] {
      assert xs + ys == ys;
      var (last, second, e) := KernelBatch(k, ys, sha);
      assert [] + second == second;
    } else {
      assert (xs + ys)[0] == xs[0] && (xs + ys)[1..] == xs[1..] + ys;
      var r := KernelApply(k, xs[0], sha);
      if r.Ok? {
        var (next, event) := r.value;
        BatchesCompose(next, xs[1..], ys, sha);
        var (mid, first, failed) := KernelBatch(next, xs[1..], sha);
        var (last, second, e) := KernelBatch(mid, ys, sha);
        assert ([event] + first) + second == [event] + (first + second);
      }
    }
  }

  ghost function Prepend(events: seq<KernelEvent>, run: (KernelState, seq<KernelEvent>, Option<KernelError>))
    : (KernelState, seq<KernelEvent>, Option<KernelError>)
  {
    (run.0, events + run.1, run.2)
  }

  function BatchResult(run: (KernelState, seq<KernelEvent>, Option<KernelError>)): Result<seq<KernelEvent>, KernelError> {
    if run.2.Some? then Err(run.2.value) else Ok(run.1)
  }

  lemma PrependNothing(run: (KernelState, seq<KernelEvent>, Option<KernelError>))
    ensures Prepend([], run) == run
  {
    assert [] + run.1 == run.1;
  }

  lemma PrependStep(events: seq<KernelEvent>, k: KernelState, es: seq<InputEnvelope>, sha: HashFn)
    requires es != []
    ensures Prepend(events, KernelBatch(k, es, sha))
            == var r := KernelApply(k, es[0], sha);
               if r.Err? then (k, events, Some(r.error))
               else Prepend(events + [r.value.1], KernelBatch(r.value.0, es[1..], sha))
  {
    var r := KernelApply(k, es[0], sha);
    if r.Ok? {
      var later := KernelBatch(r.value.0, es[1..], sha).1;
      assert events + ([r.value.1] + later) == (events + [r.value.1]) + later;
    } else {
      assert events + [] == events;
    }
  }

  /** The kernel object. */
  class Kernel {
    var nextInputSeq: u64
    var nextEventSeq: u64
    var stateVersion: u64
    var currentHash: Hash32

    function Value(): KernelState
      reads this
    {
      KernelState(nextInputSeq, nextEventSeq, stateVersion, currentHash)
    }

    constructor ()
      ensures Value() == NEW_KERNEL
    {
      nextInputSeq, nextEventSeq, stateVersion, currentHash := 0, 0, 0, ZERO_HASH;
    }

    method Apply(input: InputEnvelope, sha: HashFn) returns (r: Result<KernelEvent, KernelError>)
      modifies this
      ensures var spec := KernelApply(old(Value()), input, sha);
              if spec.Err? then r == Err(spec.error) && Value() == old(Value())
              else r == Ok(spec.value.1) && Value() == spec.value.0
    {
      if input.inputSeq != nextInputSeq { return Err(InputSequence(nextInputSeq, input.inputSeq)); }
      if input.expectedVersion != stateVersion { return Err(StateVersion(stateVersion, input.expectedVersion)); }
      if nextInputSeq == U64_MAX || nextEventSeq == U64_MAX || stateVersion == U64_MAX {
        return Err(KernelCounterOverflow);
      }
      var payloadHash := sha(input.payload);
      var head := sha(EventBytes(currentHash, nextEventSeq, stateVersion + 1, input, payloadHash));
      var event := KernelEvent(nextEventSeq, stateVersion + 1, input.logicalTs, input.kind,
                               payloadHash, currentHash, head);
      nextInputSeq := nextInputSeq + 1;
      nextEventSeq := nextEventSeq + 1;
      stateVersion := stateVersion + 1;
      currentHash := head;
      return Ok(event);
    }

    method ApplyBatch(inputs: seq<InputEnvelope>, sha: HashFn) returns (r: Result<seq<KernelEvent>, KernelError>)
      modifies this
      ensures Value() == KernelBatch(old(Value()), inputs, sha).0
      ensures r == BatchResult(KernelBatch(old(Value()), inputs, sha))
    {
      var events: seq<KernelEvent> := [];
      assert inputs[0..] == inputs;
      PrependNothing(KernelBatch(Value(), inputs, sha));
      for i := 0 to |inputs|
        invariant Prepend(events, KernelBatch(Value(), inputs[i..], sha)) == KernelBatch(old(Value()), inputs, sha)
      {
        assert inputs[i..][0] == inputs[i] && inputs[i..][1..] == inputs[i + 1..];
        PrependStep(events, Value(), inputs[i..], sha);
        ghost var before := Value();
        var step := Apply(inputs[i], sha);
        if step.Err? {
          assert KernelBatch(old(Value()), inputs, sha) == (before, events, Some(step.error));
          return Err(step.error);
        }
        events := events + [step.value];
      }
      assert KernelBatch(Value(), inputs[|inputs|..], sha) == (Value(), [], None);
      assert events + [] == events;
      return Ok(events);
    }
  }
}
