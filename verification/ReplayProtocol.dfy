/** Replay coordinators as a protocol: atomic database steps, any interleaving, a crash anywhere. */
module ReplayProtocol {
  import opened Common
  import opened Numeric
  import opened Bytes
  import opened Sessions
  import opened SessionInvariants
  import opened SessionHistory
  import opened Replay

  /** What coordinators share without writing it: the sources, the simulator, command identities. */
  datatype Env = Env(sources: Text -> seq<ReplayInput>, sim: Simulator, ids: CommandIds)

  // ------------------------------------------------------------------- checkpoints

  datatype Row = Row(version: nat, cp: Checkpoint)

  function FindRow(rows: seq<Row>, version: int): Option<Checkpoint>
    decreases |rows|
  {
    if rows == [] then None
    else if rows[0].version == version then Some(rows[0].cp)
    else FindRow(rows[1..], version)
  }

  /** The row of the highest session version. */
  function Latest(rows: seq<Row>): Option<Row>
    decreases |rows|
  {
    if rows == [] then None
    else
      var rest := Latest(rows[1..]);
      if rest.Some? && rest.value.version > rows[0].version then rest else Some(rows[0])
  }

  /** Inserts a checkpoint; an exact retry is accepted, a pristine simulator is not. */
  function Save(rows: seq<Row>, version: int, cp: Checkpoint): Result<seq<Row>, ReplayError> {
    var existing := FindRow(rows, version);
    if version <= 0 then Err(SnapshotConflict)
    else if existing.Some? then if existing.value == cp then Ok(rows) else Err(SnapshotConflict)
    else if cp.sim.version <= 0 then Err(SnapshotConflict)
    else Ok(rows + [Row(version, cp)])
  }

  // ---------------------------------------------------------------------- protocol

  /** What a coordinator read about its session on entry. */
  datatype Visit = Visit(id: Text, principal: Text, version: nat, setup: PinnedSetup, time: i64, target: i64)

  /** Where a coordinator stands between its database steps. */
  datatype Phase =
    | Idle
    | Entered(visit: Visit)
    | Recovered(visit: Visit, cp: Checkpoint)
    | Saved(visit: Visit, cp: Checkpoint)
    | Advanced(id: Text, version: nat, cp: Checkpoint)

  datatype World = World(store: Store, rows: map<Text, seq<Row>>, phases: map<nat, Phase>)

  datatype Action =
    | Other(request: Request)
    | Enter(who: nat, id: Text, principal: Text, expected: int, target: i64)
    | Load(who: nat)
    | SaveRecovered(who: nat)
    | AdvanceSession(who: nat)
    | SaveAdvanced(who: nat)
    | Crash(who: nat)

  function RowsOf(w: World, id: Text): seq<Row> { if id in w.rows then w.rows[id] else [] }

  function PhaseOf(w: World, who: nat): Phase { if who in w.phases then w.phases[who] else Idle }

  function At(w: World, who: nat, p: Phase): World { w.(phases := w.phases[who := p]) }

  function Warmup(setup: PinnedSetup): int { setup.playStart - setup.warmup }

  /** The simulator run for a session's setup, up to a time. */
  function RunFor(env: Env, setup: PinnedSetup, target: int, cp: Option<Checkpoint>): Result<Checkpoint, ReplayError> {
    RunTo(env.sources(setup.manifestHash), env.sim, Warmup(setup), target, cp)
  }

  function EnterSession(w: World, id: Text, principal: Text, expected: int, target: i64): (p: Phase)
    ensures p.Idle? || p.Entered?
  {
    var x := Locked(w.store, id, principal);
    if x.Err? then Idle
    else
      var v := Materialize(x.value);
      if v.Err? || x.value.version != expected || v.value.setup.None? || v.value.time.None? || !x.value.status.Running?
      then Idle
      else if target < v.value.time.value || target > PlayEnd(v.value.setup.value) then Idle
      else Entered(Visit(id, principal, x.value.version, v.value.setup.value, v.value.time.value, target))
  }

  /** Recovers the simulator at the session's own frontier from the latest checkpoint. */
  function Recover(env: Env, visit: Visit, latest: Option<Checkpoint>): Result<Checkpoint, ReplayError> {
    if latest.Some? && latest.value.time > visit.time then Err(SnapshotCorrupt)
    else if latest.Some? && latest.value.time == visit.time then Ok(latest.value)
    else RunFor(env, visit.setup, visit.time, latest)
  }

  function LatestCheckpoint(rows: seq<Row>): Option<Checkpoint> {
    if Latest(rows).None? then None else Some(Latest(rows).value.cp)
  }

  function Act(env: Env, w: World, a: Action): World {
    match a
    case Other(r) => w.(store := Step(w.store, r, env.ids))
    case Crash(who) => At(w, who, Idle)
    case Enter(who, id, principal, expected, target) => At(w, who, EnterSession(w, id, principal, expected, target))
    case Load(who) =>
      var p := PhaseOf(w, who);
      if !p.Entered? then w
      else
        var r := Recover(env, p.visit, LatestCheckpoint(RowsOf(w, p.visit.id)));
        At(w, who, if r.Err? then Idle else Recovered(p.visit, r.value))
    case SaveRecovered(who) =>
      var p := PhaseOf(w, who);
      if !p.Recovered? then w
      else
        var rows := Save(RowsOf(w, p.visit.id), p.visit.version, p.cp);
        if rows.Err? then At(w, who, Idle)
        else At(w.(rows := w.rows[p.visit.id := rows.value]), who,
                if p.visit.target == p.visit.time then Idle else Saved(p.visit, p.cp))
    case AdvanceSession(who) =>
      var p := PhaseOf(w, who);
      if !p.Saved? then w
      else
        var run := RunFor(env, p.visit.setup, p.visit.target, Some(p.cp));
        var next := Advance(w.store, p.visit.id, p.visit.principal, p.visit.version, p.visit.target);
        if run.Err? || next.Err? then At(w, who, Idle)
        else At(w.(store := next.value), who, Advanced(p.visit.id, p.visit.version + 1, run.value))
    case SaveAdvanced(who) =>
      var p := PhaseOf(w, who);
      if !p.Advanced? then w
      else
        var rows := Save(RowsOf(w, p.id), p.version, p.cp);
        if rows.Err? then At(w, who, Idle) else At(w.(rows := w.rows[p.id := rows.value]), who, Idle)
  }

  function ActAll(env: Env, w: World, actions: seq<Action>): World
    decreases |actions|
  {
    if actions == [] then w else Act(env, ActAll(env, w, actions[..|actions| - 1]), actions[|actions| - 1])
  }

  const EMPTY_WORLD := World(EMPTY_STORE, map[], map[])

  // --------------------------------------------------------------------- invariant

  /** The checkpoint that version v of a session must have: the run from nothing to its time then. */
  ghost predicate RightCheckpoint(env: Env, x: Session, v: int, cp: Checkpoint) {
    && 0 < v <= x.version && Fold(x.events).Some? && Fold(x.events).value.setup.Some?
    && TimeAt(x.events, v).Some?
    && RunFor(env, Fold(x.events).value.setup.value, TimeAt(x.events, v).value, None) == Ok(cp)
  }

  ghost predicate RightVisit(x: Session, v: Visit) {
    && x.principal == v.principal && 0 < v.version <= x.version
    && Fold(x.events).Some? && Fold(x.events).value.setup == Some(v.setup)
    && TimeAt(x.events, v.version) == Some(v.time) && v.time <= v.target <= PlayEnd(v.setup)
  }

  ghost predicate RightPhase(env: Env, s: Store, p: Phase) {
    match p
    case Idle => true
    case Entered(v) => v.id in s.sessions && RightVisit(s.sessions[v.id], v)
    case Recovered(v, cp) => v.id in s.sessions && RightVisit(s.sessions[v.id], v)
                             && RightCheckpoint(env, s.sessions[v.id], v.version, cp)
    case Saved(v, cp) => v.id in s.sessions && RightVisit(s.sessions[v.id], v)
                         && RightCheckpoint(env, s.sessions[v.id], v.version, cp)
    case Advanced(id, v, cp) => id in s.sessions && RightCheckpoint(env, s.sessions[id], v, cp)
  }

  ghost predicate RightRows(env: Env, s: Store, id: Text, rows: seq<Row>) {
    rows == [] ||
    (id in s.sessions && forall i :: 0 <= i < |rows| ==>
       RightCheckpoint(env, s.sessions[id], rows[i].version, rows[i].cp) && rows[i].cp.sim.version > 0)
  }

  ghost predicate Right(env: Env, w: World) {
    && Accounted(w.store)
    && (forall id :: id in w.rows ==> RightRows(env, w.store, id, w.rows[id]))
    && (forall who :: who in w.phases ==> RightPhase(env, w.store, w.phases[who]))
  }

  // ------------------------------------------------- the invariant under store steps

  lemma CheckpointSettled(env: Env, x: Session, y: Session, v: int, cp: Checkpoint)
    requires Extends(x, y) && RightCheckpoint(env, x, v, cp)
    ensures RightCheckpoint(env, y, v, cp)
  {
    hide RunFor;
    PastTimeIsSettled(x, y, v);
  }

  lemma VisitSettled(x: Session, y: Session, v: Visit)
    requires Extends(x, y) && RightVisit(x, v)
    ensures RightVisit(y, v)
  {
    PastTimeIsSettled(x, y, v.version);
  }

  lemma PhaseSettled(env: Env, s: Store, t: Store, p: Phase)
    requires StoreExtends(s, t) && RightPhase(env, s, p)
    ensures RightPhase(env, t, p)
  {
    hide RightVisit, RightCheckpoint, Extends;
    match p
    case Idle =>
    case Entered(v) => VisitSettled(s.sessions[v.id], t.sessions[v.id], v);
    case Recovered(v, cp) =>
      VisitSettled(s.sessions[v.id], t.sessions[v.id], v);
      CheckpointSettled(env, s.sessions[v.id], t.sessions[v.id], v.version, cp);
    case Saved(v, cp) =>
      VisitSettled(s.sessions[v.id], t.sessions[v.id], v);
      CheckpointSettled(env, s.sessions[v.id], t.sessions[v.id], v.version, cp);
    case Advanced(id, v, cp) => CheckpointSettled(env, s.sessions[id], t.sessions[id], v, cp);
  }

  lemma RowsSettled(env: Env, s: Store, t: Store, id: Text, rows: seq<Row>)
    requires StoreExtends(s, t) && RightRows(env, s, id, rows)
    ensures RightRows(env, t, id, rows)
  {
    hide RightCheckpoint, Extends;
    forall i | 0 <= i < |rows| ensures RightCheckpoint(env, t.sessions[id], rows[i].version, rows[i].cp) {
      CheckpointSettled(env, s.sessions[id], t.sessions[id], rows[i].version, rows[i].cp);
    }
  }

  lemma StoreStepKeeps(env: Env, w: World, t: Store)
    requires Right(env, w) && Accounted(t) && StoreExtends(w.store, t)
    ensures Right(env, w.(store := t))
  {
    hide RightRows, RightPhase, StoreExtends, Accounted;
    forall id | id in w.rows ensures RightRows(env, t, id, w.rows[id]) {
      RowsSettled(env, w.store, t, id, w.rows[id]);
    }
    forall who | who in w.phases ensures RightPhase(env, t, w.phases[who]) {
      PhaseSettled(env, w.store, t, w.phases[who]);
    }
  }

  // -------------------------------------------------------- coordinator steps

  lemma AtKeeps(env: Env, w: World, who: nat, p: Phase)
    requires Right(env, w) && RightPhase(env, w.store, p)
    ensures Right(env, At(w, who, p))
  {
    hide RightPhase, RightRows, Accounted;
  }

  lemma RowsKeep(env: Env, w: World, id: Text, rows: seq<Row>)
    requires Right(env, w) && RightRows(env, w.store, id, rows)
    ensures Right(env, w.(rows := w.rows[id := rows]))
  {
    hide RightPhase, RightRows, Accounted;
  }

  lemma CurrentRows(env: Env, w: World, id: Text)
    requires Right(env, w)
    ensures RightRows(env, w.store, id, RowsOf(w, id))
  {
  }

  lemma SaveKeepsRows(env: Env, s: Store, id: Text, rows: seq<Row>, v: nat, cp: Checkpoint)
    requires RightRows(env, s, id, rows) && id in s.sessions && RightCheckpoint(env, s.sessions[id], v, cp)
    requires Save(rows, v, cp).Ok?
    ensures RightRows(env, s, id, Save(rows, v, cp).value)
  {
    hide RightCheckpoint, FindRow;
  }

  lemma EnterIsRight(env: Env, w: World, id: Text, principal: Text, expected: int, target: i64)
    requires Right(env, w)
    ensures RightPhase(env, w.store, EnterSession(w, id, principal, expected, target))
  {
    hide Consumed, Numbered, DistinctKeys, Chronological, Fold, Below, TimeAt, RightRows;
    if EnterSession(w, id, principal, expected, target).Entered? {
      var x := w.store.sessions[id];
      assert Healthy(x);
      CurrentTime(w.store.sessions[id]);
    }
  }

  lemma {:induction false} LatestIsRow(rows: seq<Row>)
    requires Latest(rows).Some?
    ensures Latest(rows).value in rows && forall i :: 0 <= i < |rows| ==> rows[i].version <= Latest(rows).value.version
    decreases |rows|
  {
    if Latest(rows[1..]).Some? {
      LatestIsRow(rows[1..]);
      assert forall i :: 0 < i < |rows| ==> rows[i] == rows[1..][i - 1];
    }
  }

  /** Recovery lands on the run from nothing, whichever checkpoint it started from. */
  lemma RecoverIsRight(env: Env, x: Session, v: Visit, latest: Option<Checkpoint>)
    requires RightVisit(x, v)
    requires latest.Some? ==> exists u :: RightCheckpoint(env, x, u, latest.value)
    requires Recover(env, v, latest).Ok?
    ensures RightCheckpoint(env, x, v.version, Recover(env, v, latest).value)
  {
    hide RunTo, Fold, TimeAt;
    if latest.Some? {
      var u :| RightCheckpoint(env, x, u, latest.value);
      var t := TimeAt(x.events, u).value;
      RunEndsAtTarget(env, v.setup, t);
      if t <= v.time { ResumeIsRun(env.sources(v.setup.manifestHash), env.sim, Warmup(v.setup), t, v.time); }
    }
  }

  lemma RunEndsAtTarget(env: Env, setup: PinnedSetup, target: int)
    requires RunFor(env, setup, target, None).Ok?
    ensures RunFor(env, setup, target, None).value.time == target
  {
  }

  lemma LoadIsRight(env: Env, w: World, v: Visit)
    requires Right(env, w) && v.id in w.store.sessions && RightVisit(w.store.sessions[v.id], v)
    ensures var r := Recover(env, v, LatestCheckpoint(RowsOf(w, v.id)));
            r.Ok? ==> RightCheckpoint(env, w.store.sessions[v.id], v.version, r.value)
  {
    hide Accounted, RightVisit, RightCheckpoint, Recover;
    var rows := RowsOf(w, v.id);
    CurrentRows(env, w, v.id);
    if Latest(rows).Some? {
      LatestIsRow(rows);
      var i :| 0 <= i < |rows| && rows[i] == Latest(rows).value;
      assert RightCheckpoint(env, w.store.sessions[v.id], rows[i].version, rows[i].cp);
    }
    if Recover(env, v, LatestCheckpoint(rows)).Ok? {
      RecoverIsRight(env, w.store.sessions[v.id], v, LatestCheckpoint(rows));
    }
  }

  lemma AdvanceSessionIsRight(env: Env, s: Store, v: Visit, cp: Checkpoint)
    requires Accounted(s) && v.id in s.sessions && RightVisit(s.sessions[v.id], v)
    requires RightCheckpoint(env, s.sessions[v.id], v.version, cp)
    requires RunFor(env, v.setup, v.target, Some(cp)).Ok?
    requires Advance(s, v.id, v.principal, v.version, v.target).Ok?
    ensures var t := Advance(s, v.id, v.principal, v.version, v.target).value;
            v.id in t.sessions
            && RightCheckpoint(env, t.sessions[v.id], v.version + 1, RunFor(env, v.setup, v.target, Some(cp)).value)
  {
    hide RunTo, Consumed, Numbered, DistinctKeys, Chronological, Below, Pinned;
    var x := s.sessions[v.id];
    var y := Record(x, Running, v.target, SessionAdvanced(v.target));
    assert Healthy(x);
    AdvanceExtends(s, v.id, v.principal, v.version, v.target);
    assert y.events[..|x.events|] == x.events;
    ResumeIsRun(env.sources(v.setup.manifestHash), env.sim, Warmup(v.setup), v.time, v.target);
  }

  lemma ActKeeps(env: Env, w: World, a: Action)
    requires Right(env, w)
    ensures Right(env, Act(env, w, a))
  {
    hide Accounted, RightRows, RightVisit, RightCheckpoint, Recover, RunFor, EnterSession, Save, Step, Advance;
    match a
    case Other(r) =>
      StepKeeps(w.store, r, env.ids);
      StepExtends(w.store, r, env.ids);
      StoreStepKeeps(env, w, Step(w.store, r, env.ids));
    case Crash(who) => AtKeeps(env, w, who, Idle);
    case Enter(who, id, principal, expected, target) =>
      EnterIsRight(env, w, id, principal, expected, target);
      AtKeeps(env, w, who, EnterSession(w, id, principal, expected, target));
    case Load(who) =>
      var p := PhaseOf(w, who);
      if p.Entered? {
        LoadIsRight(env, w, p.visit);
        var r := Recover(env, p.visit, LatestCheckpoint(RowsOf(w, p.visit.id)));
        AtKeeps(env, w, who, if r.Err? then Idle else Recovered(p.visit, r.value));
      }
    case SaveRecovered(who) =>
      var p := PhaseOf(w, who);
      if p.Recovered? {
        var rows := Save(RowsOf(w, p.visit.id), p.visit.version, p.cp);
        if rows.Err? {
          AtKeeps(env, w, who, Idle);
        } else {
          CurrentRows(env, w, p.visit.id);
          SaveKeepsRows(env, w.store, p.visit.id, RowsOf(w, p.visit.id), p.visit.version, p.cp);
          RowsKeep(env, w, p.visit.id, rows.value);
          AtKeeps(env, w.(rows := w.rows[p.visit.id := rows.value]), who,
                  if p.visit.target == p.visit.time then Idle else Saved(p.visit, p.cp));
        }
      }
    case AdvanceSession(who) => AdvanceActionKeeps(env, w, who);
    case SaveAdvanced(who) =>
      var p := PhaseOf(w, who);
      if p.Advanced? {
        var rows := Save(RowsOf(w, p.id), p.version, p.cp);
        if rows.Err? {
          AtKeeps(env, w, who, Idle);
        } else {
          CurrentRows(env, w, p.id);
          SaveKeepsRows(env, w.store, p.id, RowsOf(w, p.id), p.version, p.cp);
          RowsKeep(env, w, p.id, rows.value);
          AtKeeps(env, w.(rows := w.rows[p.id := rows.value]), who, Idle);
        }
      }
  }

  lemma AdvanceActionKeeps(env: Env, w: World, who: nat)
    requires Right(env, w)
    ensures Right(env, Act(env, w, AdvanceSession(who)))
  {
    hide Accounted, RightRows, RightVisit, RightCheckpoint, RunFor, Advance;
    var p := PhaseOf(w, who);
    if p.Saved? {
      var v := p.visit;
      var run := RunFor(env, v.setup, v.target, Some(p.cp));
      var next := Advance(w.store, v.id, v.principal, v.version, v.target);
      if run.Err? || next.Err? {
        AtKeeps(env, w, who, Idle);
      } else {
        AdvanceIsAStep(w.store, v, env.ids);
        StoreStepKeeps(env, w, next.value);
        AdvanceSessionIsRight(env, w.store, v, p.cp);
        AtKeeps(env, w.(store := next.value), who, Advanced(v.id, v.version + 1, run.value));
      }
    }
  }

  lemma AdvanceIsAStep(s: Store, v: Visit, ids: CommandIds)
    requires Accounted(s) && Advance(s, v.id, v.principal, v.version, v.target).Ok?
    ensures var t := Advance(s, v.id, v.principal, v.version, v.target).value;
            Accounted(t) && StoreExtends(s, t)
  {
    hide Accounted, StoreExtends, Advance;
    var r := AdvanceRequest(v.id, v.principal, v.version, v.target);
    StepKeeps(s, r, ids);
    StepExtends(s, r, ids);
  }

  lemma {:induction false} ActAllKeeps(env: Env, w: World, actions: seq<Action>)
    requires Right(env, w)
    ensures Right(env, ActAll(env, w, actions))
    decreases |actions|
  {
    hide Right, Act;
    if actions != [] {
      ActAllKeeps(env, w, actions[..|actions| - 1]);
      ActKeeps(env, ActAll(env, w, actions[..|actions| - 1]), actions[|actions| - 1]);
    }
  }

  /** Every checkpoint ever persisted is the fold of exactly the inputs up to its version's logical time. */
  lemma EveryCheckpointIsTheFold(env: Env, actions: seq<Action>, id: Text, i: nat)
    requires forall m: Text :: Ordered(env.sources(m))
    requires i < |RowsOf(ActAll(env, EMPTY_WORLD, actions), id)|
    ensures var w := ActAll(env, EMPTY_WORLD, actions);
            var row := RowsOf(w, id)[i];
            && id in w.store.sessions && 0 < row.version <= w.store.sessions[id].version
            && Fold(w.store.sessions[id].events).Some? && Fold(w.store.sessions[id].events).value.setup.Some?
            && TimeAt(w.store.sessions[id].events, row.version) == Some(row.cp.time)
            && var items := env.sources(Fold(w.store.sessions[id].events).value.setup.value.manifestHash);
               var n := Position(row.cp.sourceSeq);
               && n <= |items| && StateAfter(items, n, env.sim) == Some(row.cp.sim)
               && forall j :: 0 <= j < |items| ==> (items[j].ts <= row.cp.time <==> j < n)
  {
    hide ActAll, Fold, TimeAt, RunTo, StateAfter;
    var w := ActAll(env, EMPTY_WORLD, actions);
    StartsRight(env);
    ActAllKeeps(env, EMPTY_WORLD, actions);
    CurrentRows(env, w, id);
    var row := RowsOf(w, id)[i];
    var x := w.store.sessions[id];
    assert RightCheckpoint(env, x, row.version, row.cp);
    var setup := Fold(x.events).value.setup.value;
    RunEndsAtTarget(env, setup, TimeAt(x.events, row.version).value);
    assert Ordered(env.sources(setup.manifestHash));
    RunIsFold(env.sources(setup.manifestHash), env.sim, Warmup(setup), row.cp.time);
  }

  lemma StartsRight(env: Env)
    ensures Right(env, EMPTY_WORLD)
  {
  }
}
