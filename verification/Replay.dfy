/** Running a simulator over an ordered source: batches, checkpoints and resumption. */
module Replay {
  import opened Common
  import opened Numeric
  import opened Bytes

  datatype ReplayInput = ReplayInput(seqNo: nat, ts: i64, kind: Text, payload: Bytes)
  datatype SimState = SimState(version: int, hash: Text, snapshot: Bytes)
  datatype Checkpoint = Checkpoint(time: int, sourceSeq: Option<nat>, sim: SimState)

  /** A deterministic simulator: a pristine state, and a transition that may refuse an input. */
  datatype Simulator = Simulator(initial: SimState, apply: (SimState, ReplayInput) -> Option<SimState>)

  datatype ReplayError =
    | SourceSequence | SourceTime | SimulatorVersion | SimulatorHash | SimulatorRefused
    | SnapshotConflict | SnapshotCorrupt

  predicate LowerHexHash(t: Text) {
    |t| == 64 && forall i :: 0 <= i < |t| ==> 48 <= t[i] <= 57 || 97 <= t[i] <= 102
  }

  function StateError(s: SimState): Option<ReplayError> {
    if s.version < 0 then Some(SimulatorVersion)
    else if !LowerHexHash(s.hash) then Some(SimulatorHash)
    else None
  }

  function TransitionError(before: SimState, after: SimState): Option<ReplayError> {
    if StateError(after).Some? then StateError(after)
    else if after.version != before.version + 1 then Some(SimulatorVersion)
    else if after.hash == before.hash then Some(SimulatorHash)
    else None
  }

  /** Where a run stands: simulator state, last sequence consumed, last time seen. */
  datatype Cursor = Cursor(state: SimState, after: Option<nat>, time: int)

  function Position(after: Option<nat>): nat { if after.None? then 0 else after.value + 1 }

  function Consume(c: Cursor, x: ReplayInput, warmup: int, target: int, sim: Simulator): Result<Cursor, ReplayError> {
    if x.seqNo != Position(c.after) then Err(SourceSequence)
    else if x.ts < warmup || x.ts < c.time || x.ts > target then Err(SourceTime)
    else
      var next := sim.apply(c.state, x);
      if next.None? then Err(SimulatorRefused)
      else if TransitionError(c.state, next.value).Some? then Err(TransitionError(c.state, next.value).value)
      else Ok(Cursor(next.value, Some(x.seqNo), x.ts))
  }

  function ConsumeAll(c: Cursor, xs: seq<ReplayInput>, warmup: int, target: int, sim: Simulator)
    : Result<Cursor, ReplayError>
    decreases |xs|
  {
    if xs == [] then Ok(c)
    else
      var next :- Consume(c, xs[0], warmup, target, sim);
      ConsumeAll(next, xs[1..], warmup, target, sim)
  }

  /** The first position from p on whose input lies beyond time t. */
  function Reach(items: seq<ReplayInput>, p: nat, t: int): (e: nat)
    requires p <= |items|
    ensures p <= e <= |items| && (forall i :: p <= i < e ==> items[i].ts <= t) && (e < |items| ==> items[e].ts > t)
    decreases |items| - p
  {
    if p == |items| || items[p].ts > t then p else Reach(items, p + 1, t)
  }

  /** The source's next page: in order, through time t, at most `limit` inputs. */
  function NextAfter(items: seq<ReplayInput>, after: Option<nat>, through: int, limit: nat): seq<ReplayInput> {
    var p := Position(after);
    if p > |items| then [] else items[p..Min(Reach(items, p, through), p + limit)]
  }

  function StartCursor(cp: Option<Checkpoint>, warmup: int, sim: Simulator): Cursor {
    if cp.None? then Cursor(sim.initial, None, warmup) else Cursor(cp.value.sim, cp.value.sourceSeq, cp.value.time)
  }

  /** What remains to be consumed from a position, through time t. */
  function Remaining(items: seq<ReplayInput>, p: nat, t: int): seq<ReplayInput> {
    if p > |items| then [] else items[p..Reach(items, p, t)]
  }

  /** A run to a target time, with no mention of how the source was paged. */
  function RunTo(items: seq<ReplayInput>, sim: Simulator, warmup: int, target: int, cp: Option<Checkpoint>)
    : Result<Checkpoint, ReplayError>
  {
    var start := StartCursor(cp, warmup, sim);
    if StateError(start.state).Some? then Err(StateError(start.state).value)
    else
      var end :- ConsumeAll(start, Remaining(items, Position(start.after), target), warmup, target, sim);
      Ok(Checkpoint(target, end.after, end.state))
  }

  lemma {:induction false} ConsumeMoves(c: Cursor, xs: seq<ReplayInput>, warmup: int, target: int, sim: Simulator)
    requires ConsumeAll(c, xs, warmup, target, sim).Ok?
    ensures Position(ConsumeAll(c, xs, warmup, target, sim).value.after) == Position(c.after) + |xs|
    decreases |xs|
  {
    if xs != [] { ConsumeMoves(Consume(c, xs[0], warmup, target, sim).value, xs[1..], warmup, target, sim); }
  }

  method ConsumeBatch(from: Cursor, batch: seq<ReplayInput>, warmup: int, target: int, sim: Simulator)
    returns (r: Result<Cursor, ReplayError>)
    ensures r == ConsumeAll(from, batch, warmup, target, sim)
  {
    hide Consume;
    var c := from;
    assert batch[0..] == batch;
    for j := 0 to |batch|
      invariant ConsumeAll(from, batch, warmup, target, sim) == ConsumeAll(c, batch[j..], warmup, target, sim)
    {
      assert batch[j..][1..] == batch[j + 1..];
      var next := Consume(c, batch[j], warmup, target, sim);
      if next.Err? { return next; }
      c := next.value;
    }
    return Ok(c);
  }

  /** The paged loop: whatever the batch size, it computes the run. */
  method RunUntil(items: seq<ReplayInput>, sim: Simulator, warmup: int, target: int, cp: Option<Checkpoint>, batchSize: nat)
    returns (r: Result<Checkpoint, ReplayError>, applied: nat)
    requires 0 < batchSize <= 100_000
    ensures r == RunTo(items, sim, warmup, target, cp)
    ensures r.Ok? ==> applied == |Remaining(items, Position(StartCursor(cp, warmup, sim).after), target)|
  {
    hide Consume, NextAfter, Remaining;
    var c := StartCursor(cp, warmup, sim);
    applied := 0;
    if StateError(c.state).Some? { return Err(StateError(c.state).value), 0; }
    ghost var start, p := c, Position(c.after);
    ghost var all := Remaining(items, p, target);
    assert all[0..] == all;
    while true
      invariant applied <= |all| && Position(c.after) == p + applied
      invariant ConsumeAll(start, all, warmup, target, sim) == ConsumeAll(c, all[applied..], warmup, target, sim)
      decreases |all| - applied
    {
      var batch := NextAfter(items, c.after, target, batchSize);
      PageIsNext(items, p, target, applied, batchSize, c.after);
      if batch == [] { break; }
      ghost var next := applied + |batch|;
      assert batch == all[applied..next];
      SplitAt(all, applied, next);
      ConsumeParts(c, batch, all[next..], warmup, target, sim);
      var step := ConsumeBatch(c, batch, warmup, target, sim);
      if step.Err? { return Err(step.error), applied; }
      ConsumeMoves(c, batch, warmup, target, sim);
      c := step.value;
      applied := applied + |batch|;
      if |batch| < batchSize { break; }
    }
    assert all[applied..] == [];
    return Ok(Checkpoint(target, c.after, c.state)), applied;
  }

  lemma {:induction false} ReachFrom(items: seq<ReplayInput>, p: nat, q: nat, t: int)
    requires p <= q <= |items| && forall i :: p <= i < q ==> items[i].ts <= t
    ensures Reach(items, p, t) == Reach(items, q, t)
    decreases q - p
  {
    if p < q { ReachFrom(items, p + 1, q, t); }
  }

  lemma SplitAt<T>(xs: seq<T>, a: nat, b: nat)
    requires a <= b <= |xs|
    ensures xs[a..] == xs[a..b] + xs[b..]
  {
  }

  lemma SubSlice<T>(xs: seq<T>, p: nat, e: nat, a: nat, b: nat)
    requires p <= e <= |xs| && a <= b <= e - p
    ensures xs[p..e][a..b] == xs[p + a..p + b]
  {
    var left, right := xs[p..e][a..b], xs[p + a..p + b];
    forall i | 0 <= i < |left| ensures left[i] == right[i] {
      assert left[i] == xs[p..e][a + i] == xs[p + (a + i)];
    }
  }

  lemma PageIsNext(items: seq<ReplayInput>, p: nat, t: int, done: nat, limit: nat, after: Option<nat>)
    requires done <= |Remaining(items, p, t)| && Position(after) == p + done
    ensures var all := Remaining(items, p, t);
            NextAfter(items, after, t, limit) == all[done..Min(|all|, done + limit)]
  {
    hide Reach;
    if p <= |items| {
      var e := Reach(items, p, t);
      assert Remaining(items, p, t) == items[p..e];
      ReachFrom(items, p, p + done, t);
      assert Min(e, p + done + limit) == p + Min(e - p, done + limit);
      SubSlice(items, p, e, done, Min(e - p, done + limit));
    }
  }

  // ------------------------------------------------------------------ plain folding

  /** The simulator after the first n inputs, nothing else considered. */
  function StateAfter(items: seq<ReplayInput>, n: nat, sim: Simulator): Option<SimState>
    requires n <= |items|
  {
    if n == 0 then Some(sim.initial)
    else
      var before := StateAfter(items, n - 1, sim);
      if before.None? then None else sim.apply(before.value, items[n - 1])
  }

  predicate Ordered(items: seq<ReplayInput>) {
    forall i, j :: 0 <= i < j < |items| ==> items[i].ts <= items[j].ts
  }

  lemma {:induction false} ConsumedIsFolded(items: seq<ReplayInput>, i: nat, e: nat, c: Cursor, warmup: int, target: int,
                                           sim: Simulator)
    requires i <= e <= |items| && StateAfter(items, i, sim) == Some(c.state) && Position(c.after) == i
    requires ConsumeAll(c, items[i..e], warmup, target, sim).Ok?
    ensures var end := ConsumeAll(c, items[i..e], warmup, target, sim).value;
            StateAfter(items, e, sim) == Some(end.state) && Position(end.after) == e
    decreases e - i
  {
    if i < e {
      assert items[i..e][0] == items[i] && items[i..e][1..] == items[i + 1..e];
      var next := Consume(c, items[i], warmup, target, sim).value;
      ConsumedIsFolded(items, i + 1, e, next, warmup, target, sim);
    }
  }

  /** A run from nothing is the fold of exactly the inputs up to its target. */
  lemma RunIsFold(items: seq<ReplayInput>, sim: Simulator, warmup: int, target: int)
    requires Ordered(items) && RunTo(items, sim, warmup, target, None).Ok?
    ensures var cp := RunTo(items, sim, warmup, target, None).value;
            var n := Position(cp.sourceSeq);
            && cp.time == target && n <= |items| && StateAfter(items, n, sim) == Some(cp.sim)
            && forall i :: 0 <= i < |items| ==> (items[i].ts <= target <==> i < n)
  {
    ConsumedIsFolded(items, 0, Reach(items, 0, target), StartCursor(None, warmup, sim), warmup, target, sim);
  }

  // --------------------------------------------------------------------- resumption

  lemma {:induction false} ConsumeParts(c: Cursor, xs: seq<ReplayInput>, ys: seq<ReplayInput>, warmup: int, target: int,
                                        sim: Simulator)
    ensures var mid := ConsumeAll(c, xs, warmup, target, sim);
            ConsumeAll(c, xs + ys, warmup, target, sim)
            == if mid.Err? then mid else ConsumeAll(mid.value, ys, warmup, target, sim)
    decreases |xs|
  {
    if xs == [] {
      assert xs + ys == ys;
    } else {
      assert (xs + ys)[0] == xs[0] && (xs + ys)[1..] == xs[1..] + ys;
      var next := Consume(c, xs[0], warmup, target, sim);
      if next.Ok? { ConsumeParts(next.value, xs[1..], ys, warmup, target, sim); }
    }
  }

  /** A later target does not change how earlier inputs are consumed. */
  lemma {:induction false} ConsumeIgnoresTarget(c: Cursor, xs: seq<ReplayInput>, warmup: int, t: int, u: int, sim: Simulator)
    requires t <= u && forall i :: 0 <= i < |xs| ==> xs[i].ts <= t
    ensures ConsumeAll(c, xs, warmup, t, sim) == ConsumeAll(c, xs, warmup, u, sim)
    decreases |xs|
  {
    if xs != [] {
      assert xs[0].ts <= t;
      var next := Consume(c, xs[0], warmup, t, sim);
      assert next == Consume(c, xs[0], warmup, u, sim);
      if next.Ok? {
        assert forall i :: 0 <= i < |xs[1..]| ==> xs[1..][i] == xs[i + 1];
        ConsumeIgnoresTarget(next.value, xs[1..], warmup, t, u, sim);
      }
    }
  }

  /** Consumption leaves a valid state and a time no later than the inputs seen. */
  lemma {:induction false} ConsumedIsValid(c: Cursor, xs: seq<ReplayInput>, warmup: int, target: int, t: int, sim: Simulator)
    requires StateError(c.state).None? && ConsumeAll(c, xs, warmup, target, sim).Ok?
    requires (c.time <= t || c.time <= warmup) && forall i :: 0 <= i < |xs| ==> xs[i].ts <= t
    ensures var end := ConsumeAll(c, xs, warmup, target, sim).value;
            StateError(end.state).None? && (end.time <= t || end.time <= warmup)
    decreases |xs|
  {
    if xs != [] {
      var next := Consume(c, xs[0], warmup, target, sim).value;
      assert xs[0].ts <= t;
      assert forall i :: 0 <= i < |xs[1..]| ==> xs[1..][i] == xs[i + 1];
      ConsumedIsValid(next, xs[1..], warmup, target, t, sim);
    }
  }

  /** Resuming from the checkpoint of an earlier run gives what running from nothing gives. */
  lemma ResumeIsRun(items: seq<ReplayInput>, sim: Simulator, warmup: int, t: int, u: int)
    requires t <= u && RunTo(items, sim, warmup, t, None).Ok?
    ensures RunTo(items, sim, warmup, u, Some(RunTo(items, sim, warmup, t, None).value))
            == RunTo(items, sim, warmup, u, None)
  {
    hide Consume, StateError;
    var start := StartCursor(None, warmup, sim);
    var e, f := Reach(items, 0, t), Reach(items, 0, u);
    var early := items[0..e];
    var mid := ConsumeAll(start, early, warmup, t, sim).value;
    var cp := RunTo(items, sim, warmup, t, None).value;
    ConsumedIsFolded(items, 0, e, start, warmup, t, sim);
    ReachFrom(items, 0, e, u);
    ConsumeIgnoresTarget(start, early, warmup, t, u, sim);
    assert items[0..f] == early + items[e..f];
    ConsumeParts(start, early, items[e..f], warmup, u, sim);
    ConsumedIsValid(start, early, warmup, t, t, sim);
    assert Remaining(items, e, u) == items[e..f];
    TimeIsForgotten(mid, Cursor(cp.sim, cp.sourceSeq, t), items[e..f], warmup, u, sim);
  }

  /** Two cursors that differ only in their time consume alike when the next input is after both. */
  lemma TimeIsForgotten(c: Cursor, d: Cursor, xs: seq<ReplayInput>, warmup: int, target: int, sim: Simulator)
    requires c.state == d.state && c.after == d.after
    requires xs != [] ==> xs[0].ts < warmup || (xs[0].ts >= c.time && xs[0].ts >= d.time)
    ensures var a, b := ConsumeAll(c, xs, warmup, target, sim), ConsumeAll(d, xs, warmup, target, sim);
            if a.Err? then b == a else b.Ok? && b.value.state == a.value.state && b.value.after == a.value.after
  {
    if xs != [] { assert Consume(c, xs[0], warmup, target, sim) == Consume(d, xs[0], warmup, target, sim); }
  }
}
