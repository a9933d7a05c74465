/** The replay coordinator and its checkpoint table as objects. */
module ReplayService {
  import opened Common
  import opened Numeric
  import opened Bytes
  import opened Sessions
  import opened SessionInvariants
  import opened SessionHistory
  import opened SessionService
  import opened Replay
  import opened ReplayProtocol
  import opened ReplayRecovery

  class CheckpointStore {
    var rows: map<Text, seq<Row>>

    constructor ()
      ensures rows == map[]
    {
      rows := map[];
    }

    function Of(id: Text): seq<Row>
      reads this
    {
      if id in rows then rows[id] else []
    }

    /** The checkpoint of the highest session version, found by one scan. */
    method LoadLatest(id: Text) returns (r: Option<Checkpoint>)
      ensures r == LatestCheckpoint(Of(id))
    {
      var mine := Of(id);
      var best: Option<Row> := None;
      var i := |mine|;
      while i > 0
        invariant 0 <= i <= |mine| && best == Latest(mine[i..])
      {
        i := i - 1;
        assert mine[i..][1..] == mine[i + 1..];
        if best.None? || best.value.version <= mine[i].version { best := Some(mine[i]); }
      }
      assert mine[0..] == mine;
      r := if best.None? then None else Some(best.value.cp);
    }

    method SaveCheckpoint(id: Text, version: int, cp: Checkpoint) returns (e: Option<ReplayError>)
      modifies this
      ensures var saved := Save(old(Of(id)), version, cp);
              if saved.Err? then e == Some(saved.error) && rows == old(rows)
              else e.None? && rows == old(rows)[id := saved.value]
    {
      if version <= 0 { return Some(SnapshotConflict); }
      var existing := FindRow(Of(id), version);
      if existing.Some? {
        if existing.value != cp { return Some(SnapshotConflict); }
        rows := rows[id := Of(id)];
        return None;
      }
      if cp.sim.version <= 0 { return Some(SnapshotConflict); }
      rows := rows[id := Of(id) + [Row(version, cp)]];
      return None;
    }
  }

  class ReplayCoordinator {
    const lifecycle: SessionService
    const checkpoints: CheckpointStore

    constructor (lifecycle: SessionService, checkpoints: CheckpointStore)
      ensures this.lifecycle == lifecycle && this.checkpoints == checkpoints
    {
      this.lifecycle, this.checkpoints := lifecycle, checkpoints;
    }

    function Value(): World
      reads lifecycle, checkpoints
    {
      World(lifecycle.Value(), checkpoints.rows, map[])
    }

    /** Reads the session and decides whether the visit may begin. */
    method Begin(id: Text, principal: Text, expected: int, target: i64) returns (p: Phase)
      ensures p == EnterSession(Value(), id, principal, expected, target)
    {
      var x := Locked(lifecycle.Value(), id, principal);
      if x.Err? { return Idle; }
      var v := MaterializeFromRow(x.value);
      if v.Err? || x.value.version != expected { return Idle; }
      if v.value.setup.None? || v.value.time.None? || !x.value.status.Running? { return Idle; }
      if target < v.value.time.value || target > PlayEnd(v.value.setup.value) { return Idle; }
      return Entered(Visit(id, principal, x.value.version, v.value.setup.value, v.value.time.value, target));
    }

    method RecoverCurrentFrontier(env: Env, visit: Visit, latest: Option<Checkpoint>, batchSize: nat)
      returns (r: Result<Checkpoint, ReplayError>, replayed: nat)
      requires 0 < batchSize <= 100_000
      ensures r == Recover(env, visit, latest)
      ensures r.Ok? ==> replayed == RecoveredInputs(env, visit, latest)
    {
      if latest.Some? && latest.value.time > visit.time { return Err(SnapshotCorrupt), 0; }
      if latest.Some? && latest.value.time == visit.time { return Ok(latest.value), 0; }
      r, replayed := RunUntil(env.sources(visit.setup.manifestHash), env.sim, Warmup(visit.setup), visit.time, latest,
                              batchSize);
    }

    /** A visit without interference takes the five protocol steps, whatever the batch size, and
        answers as specified. */
    method AdvanceTo(env: Env, id: Text, principal: Text, expected: int, target: i64, batchSize: nat)
      returns (r: Result<AdvanceResult, AdvanceError>)
      modifies lifecycle, checkpoints
      ensures 0 < batchSize <= 100_000 ==>
                var w := Visited(env, old(Value()), 0, id, principal, expected, target);
                && lifecycle.Value() == w.store && checkpoints.rows == w.rows
                && r == VisitAnswer(env, old(Value()), id, principal, expected, target)
      ensures !(0 < batchSize <= 100_000) ==> Value() == old(Value()) && r == Err(InvalidBatchSize)
    {
      hide EnterSession, Recover, Save, Visited, Finished, LatestCheckpoint, RecoveredInputs, FinishAnswer;
      if !(0 < batchSize <= 100_000) { return Err(InvalidBatchSize); }
      VisitSteps(env, Value(), id, principal, expected, target);
      var p := Begin(id, principal, expected, target);
      if p.Idle? { return Err(NotEntered); }
      var latest := checkpoints.LoadLatest(id);
      var recovered, replayed := RecoverCurrentFrontier(env, p.visit, latest, batchSize);
      if recovered.Err? { return Err(Failed(recovered.error)); }
      var bad := checkpoints.SaveCheckpoint(id, p.visit.version, recovered.value);
      if bad.Some? { return Err(Failed(bad.value)); }
      if target == p.visit.time { return Ok(AdvanceResult(recovered.value, 0, replayed)); }
      r := Finish(env, p.visit, recovered.value, batchSize, replayed);
    }

    /** From a saved frontier to the target: run, advance the session, save again. */
    method Finish(env: Env, visit: Visit, cp: Checkpoint, batchSize: nat, replayed: nat)
      returns (r: Result<AdvanceResult, AdvanceError>)
      requires 0 < batchSize <= 100_000
      modifies lifecycle, checkpoints
      ensures var w := Finished(env, At(old(Value()), 0, Saved(visit, cp)), 0);
              lifecycle.Value() == w.store && checkpoints.rows == w.rows
      ensures r == FinishAnswer(env, old(Value()), visit, cp, replayed)
    {
      hide RunTo, Save, Advance, Remaining;
      var run, applied := RunUntil(env.sources(visit.setup.manifestHash), env.sim, Warmup(visit.setup), visit.target,
                                   Some(cp), batchSize);
      if run.Err? { return Err(Failed(run.error)); }
      var refused := lifecycle.AdvanceTo(visit.id, visit.principal, visit.version, visit.target);
      if refused.Some? { return Err(Overtaken(refused.value)); }
      var lost := checkpoints.SaveCheckpoint(visit.id, visit.version + 1, run.value);
      if lost.Some? { return Err(Failed(lost.value)); }
      return Ok(AdvanceResult(run.value, applied, replayed));
    }
  }

  // ------------------------------------------------------------------ what a visit answers

  datatype AdvanceResult = AdvanceResult(checkpoint: Checkpoint, applied: nat, recovered: nat)

  datatype AdvanceError =
    | InvalidBatchSize | NotEntered | Failed(error: ReplayError) | Overtaken(refusal: SessionError)

  /** How many inputs recovery replays: none when the latest checkpoint is already at the frontier. */
  function RecoveredInputs(env: Env, v: Visit, latest: Option<Checkpoint>): nat {
    if latest.Some? && latest.value.time == v.time then 0
    else |Remaining(env.sources(v.setup.manifestHash),
                    Position(StartCursor(latest, Warmup(v.setup), env.sim).after), v.time)|
  }

  function FinishAnswer(env: Env, w: World, v: Visit, cp: Checkpoint, replayed: nat): Result<AdvanceResult, AdvanceError> {
    var run := RunFor(env, v.setup, v.target, Some(cp));
    var next := Advance(w.store, v.id, v.principal, v.version, v.target);
    if run.Err? then Err(Failed(run.error))
    else if next.Err? then Err(Overtaken(next.error))
    else
      var rows := Save(RowsOf(w, v.id), v.version + 1, run.value);
      if rows.Err? then Err(Failed(rows.error))
      else Ok(AdvanceResult(run.value, |Remaining(env.sources(v.setup.manifestHash), Position(cp.sourceSeq), v.target)|,
                            replayed))
  }

  /** The answer of an undisturbed visit. */
  function VisitAnswer(env: Env, w: World, id: Text, principal: Text, expected: int, target: i64)
    : Result<AdvanceResult, AdvanceError>
  {
    var p := EnterSession(w, id, principal, expected, target);
    if p.Idle? then Err(NotEntered)
    else
      var latest := LatestCheckpoint(RowsOf(w, id));
      var recovered := Recover(env, p.visit, latest);
      if recovered.Err? then Err(Failed(recovered.error))
      else
        var rows := Save(RowsOf(w, id), p.visit.version, recovered.value);
        if rows.Err? then Err(Failed(rows.error))
        else if target == p.visit.time
          then Ok(AdvanceResult(recovered.value, 0, RecoveredInputs(env, p.visit, latest)))
        else FinishAnswer(env, w.(rows := w.rows[id := rows.value]), p.visit, recovered.value,
                          RecoveredInputs(env, p.visit, latest))
  }

  lemma SameSession(w: World, id: Text, principal: Text, expected: int, target: i64)
    requires EnterSession(w, id, principal, expected, target).Entered?
    ensures var v := EnterSession(w, id, principal, expected, target).visit;
            v.id == id && v.principal == principal && v.version == expected && v.target == target
  {
  }

  /** A visit, case by case. */
  lemma VisitSteps(env: Env, w: World, id: Text, principal: Text, expected: int, target: i64)
    requires w.phases == map[]
    ensures var z := Visited(env, w, 0, id, principal, expected, target);
            var p := EnterSession(w, id, principal, expected, target);
            if p.Idle? then z.store == w.store && z.rows == w.rows
            else
              var recovered := Recover(env, p.visit, LatestCheckpoint(RowsOf(w, id)));
              if recovered.Err? then z.store == w.store && z.rows == w.rows
              else
                var rows := Save(RowsOf(w, id), p.visit.version, recovered.value);
                if rows.Err? then z.store == w.store && z.rows == w.rows
                else
                  var saved := w.(rows := w.rows[id := rows.value]);
                  if target == p.visit.time then z.store == saved.store && z.rows == saved.rows
                  else z == Finished(env, At(saved, 0, Saved(p.visit, recovered.value)), 0)
  {
    hide EnterSession, Recover, Save, LatestCheckpoint, RunFor, Advance;
    var p := EnterSession(w, id, principal, expected, target);
    var w1 := Act(env, w, Enter(0, id, principal, expected, target));
    assert PhaseOf(w1, 0) == p && w1.store == w.store && w1.rows == w.rows;
    if p.Entered? {
      SameSession(w, id, principal, expected, target);
      var recovered := Recover(env, p.visit, LatestCheckpoint(RowsOf(w, id)));
      if recovered.Ok? {
        var w2 := Act(env, w1, Load(0));
        assert PhaseOf(w2, 0) == Recovered(p.visit, recovered.value);
        var rows := Save(RowsOf(w, id), p.visit.version, recovered.value);
        if rows.Ok? && target != p.visit.time {
          var w3 := Act(env, w2, SaveRecovered(0));
          assert w3.phases == map[0 := Saved(p.visit, recovered.value)];
        }
      }
    }
  }

  lemma NoRowBeyond(env: Env, s: Store, id: Text, rows: seq<Row>, v: int)
    requires RightRows(env, s, id, rows) && id in s.sessions && v > s.sessions[id].version
    ensures FindRow(rows, v).None?
  {
    hide RunFor, Fold, TimeAt;
    if FindRow(rows, v).Some? { FoundRowIsRow(rows, v); }
  }

  /** The answer tells the truth: it is a success exactly when the visit reaches its target, and an
      unfed frontier is answered with the refused save. */
  lemma AnswerIsHonest(env: Env, w: World, v: Visit)
    requires Right(env, w) && CanAdvance(w.store, v)
    ensures var r := VisitAnswer(env, w, v.id, v.principal, v.version, v.target);
            && (r.Ok? <==> RunFor(env, v.setup, v.target, None).Ok? && Fed(env, v))
            && (r.Ok? ==> r.value.checkpoint == RunFor(env, v.setup, v.target, None).value)
            && (RunFor(env, v.setup, v.target, None).Ok? && !Fed(env, v) ==> r == Err(Failed(SnapshotConflict)))
  {
    hide RunTo, Fold, Advance, RightCheckpoint, RightVisit, Accounted, RightRows, Fed, EnterSession, Recover, FindRow;
    EntersAndRecovers(env, w, v);
    TargetNeedsFrontier(env, v);
    var run := RunFor(env, v.setup, v.time, None);
    var rows := RowsOf(w, v.id);
    CurrentRows(env, w, v.id);
    if run.Ok? {
      FedMeans(env, v);
      if Fed(env, v) {
        SaveNeverConflicts(env, w.store, v.id, rows, v.version, run.value);
        SaveKeepsRows(env, w.store, v.id, rows, v.version, run.value);
        NoRowBeyond(env, w.store, v.id, Save(rows, v.version, run.value).value, v.version + 1);
        AdvanceSucceeds(w.store, v);
        RunEndsAtTarget(env, v.setup, v.time);
        var items := env.sources(v.setup.manifestHash);
        ResumeIsRun(items, env.sim, Warmup(v.setup), v.time, v.target);
        if RunFor(env, v.setup, v.target, None).Ok? {
          ShorterRun(items, env.sim, Warmup(v.setup), v.time, v.target);
        }
      } else {
        NoPristineRow(env, w.store, v.id, rows, v.version, run.value);
      }
    }
  }

  lemma NoPristineRow(env: Env, s: Store, id: Text, rows: seq<Row>, v: nat, cp: Checkpoint)
    requires RightRows(env, s, id, rows) && cp.sim.version <= 0
    ensures Save(rows, v, cp) == Err(SnapshotConflict)
  {
    hide RightCheckpoint;
    if FindRow(rows, v).Some? { FoundRowIsRow(rows, v); }
  }
}
