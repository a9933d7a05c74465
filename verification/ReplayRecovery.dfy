/** When recovery works: from any reachable state an undisturbed coordinator reaches its target exactly
    when the run succeeds and the session's frontier has consumed something. */
module ReplayRecovery {
  import opened Common
  import opened Numeric
  import opened Bytes
  import opened Sessions
  import opened SessionInvariants
  import opened SessionHistory
  import opened Replay
  import opened ReplayProtocol

  /** One coordinator's visit, with nothing in between. */
  function Visited(env: Env, w: World, who: nat, id: Text, principal: Text, expected: int, target: i64): World {
    var w1 := Act(env, w, Enter(who, id, principal, expected, target));
    var w2 := Act(env, w1, Load(who));
    Finished(env, Act(env, w2, SaveRecovered(who)), who)
  }

  /** The rest of a visit once the recovered frontier is saved. */
  function Finished(env: Env, w: World, who: nat): World {
    Act(env, Act(env, w, AdvanceSession(who)), SaveAdvanced(who))
  }

  lemma {:induction false} VersionGrows(c: Cursor, xs: seq<ReplayInput>, warmup: int, target: int, sim: Simulator)
    requires ConsumeAll(c, xs, warmup, target, sim).Ok?
    ensures ConsumeAll(c, xs, warmup, target, sim).value.state.version == c.state.version + |xs|
    decreases |xs|
  {
    if xs != [] { VersionGrows(Consume(c, xs[0], warmup, target, sim).value, xs[1..], warmup, target, sim); }
  }

  /** If a run succeeds, so does every shorter one, at no later simulator version. */
  lemma ShorterRun(items: seq<ReplayInput>, sim: Simulator, warmup: int, t: int, u: int)
    requires t <= u && RunTo(items, sim, warmup, u, None).Ok?
    ensures RunTo(items, sim, warmup, t, None).Ok?
    ensures RunTo(items, sim, warmup, t, None).value.sim.version <= RunTo(items, sim, warmup, u, None).value.sim.version
  {
    hide Consume, StateError;
    var start := StartCursor(None, warmup, sim);
    var e, f := Reach(items, 0, t), Reach(items, 0, u);
    ReachFrom(items, 0, e, u);
    assert items[0..f] == items[0..e] + items[e..f];
    ConsumeParts(start, items[0..e], items[e..f], warmup, u, sim);
    ConsumeIgnoresTarget(start, items[0..e], warmup, t, u, sim);
    VersionGrows(ConsumeAll(start, items[0..e], warmup, u, sim).value, items[e..f], warmup, u, sim);
  }

  lemma {:induction false} FoundRowIsRow(rows: seq<Row>, v: int)
    requires FindRow(rows, v).Some?
    ensures exists i :: 0 <= i < |rows| && rows[i].version == v && rows[i].cp == FindRow(rows, v).value
    decreases |rows|
  {
    if rows[0].version != v {
      FoundRowIsRow(rows[1..], v);
      var i :| 0 <= i < |rows[1..]| && rows[1..][i].version == v && rows[1..][i].cp == FindRow(rows, v).value;
      assert rows[i + 1].version == v;
    }
  }

  lemma {:induction false} SavedRowIsFound(rows: seq<Row>, row: Row)
    requires FindRow(rows, row.version).None?
    ensures FindRow(rows + [row], row.version) == Some(row.cp)
    decreases |rows|
  {
    if rows != [] {
      assert (rows + [row])[1..] == rows[1..] + [row];
      SavedRowIsFound(rows[1..], row);
    }
  }

  /** Saving the right checkpoint never conflicts with one already there. */
  lemma SaveNeverConflicts(env: Env, s: Store, id: Text, rows: seq<Row>, v: nat, cp: Checkpoint)
    requires RightRows(env, s, id, rows) && id in s.sessions && RightCheckpoint(env, s.sessions[id], v, cp)
    requires cp.sim.version > 0
    ensures Save(rows, v, cp).Ok? && FindRow(Save(rows, v, cp).value, v) == Some(cp)
  {
    hide RunFor, Fold, TimeAt;
    if FindRow(rows, v).Some? {
      FoundRowIsRow(rows, v);
      var i :| 0 <= i < |rows| && rows[i].version == v && rows[i].cp == FindRow(rows, v).value;
      assert RightCheckpoint(env, s.sessions[id], rows[i].version, rows[i].cp);
    } else {
      SavedRowIsFound(rows, Row(v, cp));
    }
  }

  /** The latest checkpoint is never ahead of the session's own frontier. */
  lemma LatestIsNotAhead(env: Env, w: World, id: Text)
    requires Right(env, w) && id in w.store.sessions && LatestCheckpoint(RowsOf(w, id)).Some?
    ensures var x := w.store.sessions[id];
            var cp := LatestCheckpoint(RowsOf(w, id)).value;
            && (exists u :: RightCheckpoint(env, x, u, cp))
            && Fold(x.events).Some? && Fold(x.events).value.time.Some? && cp.time <= Fold(x.events).value.time.value
  {
    hide RunTo, Consumed, Below, Pinned, Fold, TimeAt, Accounted, RightPhase;
    var rows := RowsOf(w, id);
    var x := w.store.sessions[id];
    CurrentRows(env, w, id);
    LatestIsRow(rows);
    var i :| 0 <= i < |rows| && rows[i] == Latest(rows).value;
    assert RightCheckpoint(env, x, rows[i].version, rows[i].cp);
    IsHealthy(w.store, id);
    RunEndsAtTarget(env, Fold(x.events).value.setup.value, TimeAt(x.events, rows[i].version).value);
    CurrentTime(x);
    TimeAtGrows(x.events, rows[i].version, x.version);
  }

  lemma IsHealthy(s: Store, id: Text)
    requires Accounted(s) && id in s.sessions
    ensures Healthy(s.sessions[id])
  {
  }

  /** A running session at the visit's version and frontier, with the target ahead and within its end. */
  ghost predicate CanAdvance(s: Store, v: Visit) {
    && v.id in s.sessions && var x := s.sessions[v.id];
    && x.principal == v.principal && x.status.Running? && x.version == v.version < U64_MAX
    && Fold(x.events).Some? && Fold(x.events).value.setup == Some(v.setup) && Fold(x.events).value.time == Some(v.time)
    && v.time < v.target <= PlayEnd(v.setup)
  }

  /** The simulator is past its pristine version at the frontier: it started beyond zero, or the
      source has an input at or before the frontier. */
  predicate Fed(env: Env, v: Visit) {
    var items := env.sources(v.setup.manifestHash);
    env.sim.initial.version > 0 || (items != [] && items[0].ts <= v.time)
  }

  lemma FedMeans(env: Env, v: Visit)
    requires RunFor(env, v.setup, v.time, None).Ok?
    ensures RunFor(env, v.setup, v.time, None).value.sim.version > 0 <==> Fed(env, v)
  {
    hide Consume;
    var items := env.sources(v.setup.manifestHash);
    var start := StartCursor(None, Warmup(v.setup), env.sim);
    VersionGrows(start, items[0..Reach(items, 0, v.time)], Warmup(v.setup), v.time, env.sim);
  }

  lemma EntersAndRecovers(env: Env, w: World, v: Visit)
    requires Right(env, w) && CanAdvance(w.store, v)
    ensures EnterSession(w, v.id, v.principal, v.version, v.target) == Entered(v)
    ensures Recover(env, v, LatestCheckpoint(RowsOf(w, v.id))) == RunFor(env, v.setup, v.time, None)
    ensures RightVisit(w.store.sessions[v.id], v)
    ensures RunFor(env, v.setup, v.time, None).Ok? ==>
              RightCheckpoint(env, w.store.sessions[v.id], v.version, RunFor(env, v.setup, v.time, None).value)
  {
    hide RunTo, Consumed, Below, Fold, TimeAt, RightPhase, RightRows, Chronological, Numbered, DistinctKeys;
    var x := w.store.sessions[v.id];
    IsHealthy(w.store, v.id);
    CurrentTime(x);
    var latest := LatestCheckpoint(RowsOf(w, v.id));
    if latest.Some? {
      LatestIsNotAhead(env, w, v.id);
      var u :| RightCheckpoint(env, x, u, latest.value);
      var t := TimeAt(x.events, u).value;
      RunEndsAtTarget(env, v.setup, t);
      ResumeIsRun(env.sources(v.setup.manifestHash), env.sim, Warmup(v.setup), t, v.time);
    }
  }

  lemma AdvanceSucceeds(s: Store, v: Visit)
    requires Accounted(s) && CanAdvance(s, v)
    ensures var o := Advance(s, v.id, v.principal, v.version, v.target);
            && o.Ok? && v.id in o.value.sessions && o.value.sessions[v.id].version == v.version + 1
            && Fold(o.value.sessions[v.id].events).Some?
            && Fold(o.value.sessions[v.id].events).value.time == Some(v.target)
  {
    hide Consumed, Below, Chronological, Numbered, DistinctKeys;
    var x := s.sessions[v.id];
    IsHealthy(s, v.id);
    assert (x.events + [LifecycleEvent(|x.events|, v.target, SessionAdvanced(v.target), x.version + 1)])[..|x.events|]
        == x.events;
  }

  /** The session stands at the target, one version on, and that version has its checkpoint. */
  ghost predicate Reached(env: Env, z: World, v: Visit) {
    && v.id in z.store.sessions && z.store.sessions[v.id].version == v.version + 1
    && Fold(z.store.sessions[v.id].events).Some?
    && Fold(z.store.sessions[v.id].events).value.time == Some(v.target)
    && RunFor(env, v.setup, v.target, None).Ok?
    && FindRow(RowsOf(z, v.id), v.version + 1) == Some(RunFor(env, v.setup, v.target, None).value)
  }

  /** After any history of crashes and other writers, one undisturbed visit reaches its target exactly
      when the run to the target succeeds and the frontier is fed; otherwise it does not move the
      session, and an unfed frontier leaves no trace at all, so that every retry meets the same end. */
  lemma RecoveryWorksExactly(env: Env, w: World, who: nat, v: Visit)
    requires Right(env, w) && CanAdvance(w.store, v)
    ensures var z := Visited(env, w, who, v.id, v.principal, v.version, v.target);
            && (Reached(env, z, v) <==> RunFor(env, v.setup, v.target, None).Ok? && Fed(env, v))
            && (!Reached(env, z, v) ==> z.store == w.store)
            && (!Fed(env, v) ==> z.rows == w.rows)
  {
    hide RunFor, EnterSession, Recover, Save, Advance, Fold, RightCheckpoint, RightVisit, Accounted, RightRows, FindRow, Fed;
    var enter := Enter(who, v.id, v.principal, v.version, v.target);
    var w1 := Act(env, w, enter);
    EntersAndRecovers(env, w, v);
    TargetNeedsFrontier(env, v);
    var run := RunFor(env, v.setup, v.time, None);
    var w2 := Act(env, w1, Load(who));
    if run.Ok? {
      assert PhaseOf(w2, who) == Recovered(v, run.value) && w2.rows == w.rows && w2.store == w.store;
      FedMeans(env, v);
      ActKeeps(env, w, enter);
      ActKeeps(env, w1, Load(who));
      if Fed(env, v) { SavesAndFinishes(env, w2, who, v, run.value); } else { UnfedStops(env, w2, who, v, run.value); }
    } else {
      assert PhaseOf(w2, who) == Idle;
    }
    NotMoved(env, w, v);
  }

  /** A session still at the old version has not reached anything. */
  lemma NotMoved(env: Env, w: World, v: Visit)
    requires CanAdvance(w.store, v)
    ensures forall z: World :: z.store == w.store ==> !Reached(env, z, v)
  {
  }

  lemma TargetNeedsFrontier(env: Env, v: Visit)
    requires v.time < v.target
    ensures RunFor(env, v.setup, v.target, None).Ok? ==> RunFor(env, v.setup, v.time, None).Ok?
  {
    hide RunTo;
    if RunFor(env, v.setup, v.target, None).Ok? {
      ShorterRun(env.sources(v.setup.manifestHash), env.sim, Warmup(v.setup), v.time, v.target);
    }
  }

  /** A pristine checkpoint cannot be saved, and the visit ends there. */
  lemma UnfedStops(env: Env, w: World, who: nat, v: Visit, cp: Checkpoint)
    requires Right(env, w) && PhaseOf(w, who) == Recovered(v, cp) && cp.sim.version <= 0
    ensures var z := Finished(env, Act(env, w, SaveRecovered(who)), who);
            z.store == w.store && z.rows == w.rows
  {
    hide RunFor, Fold, Advance, RightVisit, Accounted, RightCheckpoint;
    var rows := RowsOf(w, v.id);
    CurrentRows(env, w, v.id);
    if FindRow(rows, v.version).Some? { FoundRowIsRow(rows, v.version); }
    assert PhaseOf(Act(env, w, SaveRecovered(who)), who) == Idle;
  }

  lemma SavesAndFinishes(env: Env, w: World, who: nat, v: Visit, cp: Checkpoint)
    requires Right(env, w) && CanAdvance(w.store, v) && PhaseOf(w, who) == Recovered(v, cp)
    requires RunFor(env, v.setup, v.time, None) == Ok(cp) && cp.sim.version > 0
    requires RightCheckpoint(env, w.store.sessions[v.id], v.version, cp)
    ensures var z := Finished(env, Act(env, w, SaveRecovered(who)), who);
            if RunFor(env, v.setup, v.target, None).Ok? then Reached(env, z, v) else z.store == w.store
  {
    hide RunFor, Save, Advance, Fold, RightCheckpoint, RightVisit, Accounted, RightRows, FindRow;
    CurrentRows(env, w, v.id);
    SaveNeverConflicts(env, w.store, v.id, RowsOf(w, v.id), v.version, cp);
    var w3 := Act(env, w, SaveRecovered(who));
    assert PhaseOf(w3, who) == Saved(v, cp) && w3.store == w.store;
    ActKeeps(env, w, SaveRecovered(who));
    ReachesTarget(env, w3, who, v, cp);
  }

  lemma ReachesTarget(env: Env, w: World, who: nat, v: Visit, cp: Checkpoint)
    requires Right(env, w) && CanAdvance(w.store, v) && PhaseOf(w, who) == Saved(v, cp)
    requires RunFor(env, v.setup, v.time, None) == Ok(cp) && cp.sim.version > 0
    ensures var z := Finished(env, w, who);
            if RunFor(env, v.setup, v.target, None).Ok? then Reached(env, z, v) else z.store == w.store
  {
    hide RunTo, Save, Advance, Fold, RightCheckpoint, RightVisit, Accounted, RightRows, FindRow;
    var items := env.sources(v.setup.manifestHash);
    RunEndsAtTarget(env, v.setup, v.time);
    ResumeIsRun(items, env.sim, Warmup(v.setup), v.time, v.target);
    AdvanceSucceeds(w.store, v);
    var run := RunFor(env, v.setup, v.target, None);
    var w4 := Act(env, w, AdvanceSession(who));
    if run.Ok? {
      ShorterRun(items, env.sim, Warmup(v.setup), v.time, v.target);
      ActKeeps(env, w, AdvanceSession(who));
      assert PhaseOf(w4, who) == Advanced(v.id, v.version + 1, run.value);
      CurrentRows(env, w4, v.id);
      SaveNeverConflicts(env, w4.store, v.id, RowsOf(w4, v.id), v.version + 1, run.value);
    }
  }

  // ------------------------------------------------------- a verdict of corruption

  lemma {:induction false} ConsumingNeverCorrupts(c: Cursor, xs: seq<ReplayInput>, warmup: int, target: int, sim: Simulator)
    ensures ConsumeAll(c, xs, warmup, target, sim) != Err(SnapshotCorrupt)
    decreases |xs|
  {
    if xs != [] && Consume(c, xs[0], warmup, target, sim).Ok? {
      ConsumingNeverCorrupts(Consume(c, xs[0], warmup, target, sim).value, xs[1..], warmup, target, sim);
    }
  }

  lemma RunNeverCorrupts(env: Env, setup: PinnedSetup, target: int, cp: Option<Checkpoint>)
    ensures RunFor(env, setup, target, cp) != Err(SnapshotCorrupt)
  {
    var items := env.sources(setup.manifestHash);
    var start := StartCursor(cp, Warmup(setup), env.sim);
    ConsumingNeverCorrupts(start, Remaining(items, Position(start.after), target), Warmup(setup), target, env.sim);
  }

  /** A coordinator calls a checkpoint corrupt exactly when the latest one lies after the frontier it
      read, and then someone has moved the session on since: alone, it never gives that verdict. */
  lemma CorruptExactly(env: Env, w: World, who: nat, v: Visit)
    requires Right(env, w) && PhaseOf(w, who) == Entered(v)
    ensures var latest := LatestCheckpoint(RowsOf(w, v.id));
            && (Recover(env, v, latest) == Err(SnapshotCorrupt) <==> latest.Some? && latest.value.time > v.time)
            && (Recover(env, v, latest) == Err(SnapshotCorrupt) ==>
                  v.id in w.store.sessions && w.store.sessions[v.id].version > v.version)
  {
    hide RunFor, Accounted, RightRows, LatestCheckpoint;
    var latest := LatestCheckpoint(RowsOf(w, v.id));
    RunNeverCorrupts(env, v.setup, v.time, latest);
    if latest.Some? { AheadMeansMoved(env, w, v); }
  }

  lemma AheadMeansMoved(env: Env, w: World, v: Visit)
    requires Right(env, w) && v.id in w.store.sessions && RightVisit(w.store.sessions[v.id], v)
    requires LatestCheckpoint(RowsOf(w, v.id)).Some?
    ensures LatestCheckpoint(RowsOf(w, v.id)).value.time > v.time ==> w.store.sessions[v.id].version > v.version
  {
    hide RunFor, Fold, TimeAt, Accounted, RightPhase, RightRows, Healthy;
    var x := w.store.sessions[v.id];
    LatestIsNotAhead(env, w, v.id);
    IsHealthy(w.store, v.id);
    CurrentTime(x);
  }
}
