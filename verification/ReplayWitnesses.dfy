/** Runs of the replay protocol, from the empty world, that its promises do not cover. */
module ReplayWitnesses {
  import opened Common
  import opened Numeric
  import opened Bytes
  import opened Sessions
  import opened SessionInvariants
  import opened SessionHistory
  import opened Replay
  import opened ReplayProtocol
  import opened ReplayRecovery

  // ----------------------------------------------------- two coordinators at once

  lemma OnlyOwnPhase(env: Env, w: World, b: nat, id: Text, principal: Text, expected: int, target: i64, a: nat)
    requires a != b
    ensures PhaseOf(Visited(env, w, b, id, principal, expected, target), a) == PhaseOf(w, a)
  {
    hide EnterSession, Recover, Save, RunFor, Advance, LatestCheckpoint;
    var w1 := Act(env, w, Enter(b, id, principal, expected, target));
    assert PhaseOf(w1, a) == PhaseOf(w, a);
    var w2 := Act(env, w1, Load(b));
    assert PhaseOf(w2, a) == PhaseOf(w, a);
    var w3 := Act(env, w2, SaveRecovered(b));
    assert PhaseOf(w3, a) == PhaseOf(w, a);
    var w4 := Act(env, w3, AdvanceSession(b));
    assert PhaseOf(w4, a) == PhaseOf(w, a);
  }

  lemma VisitKeeps(env: Env, w: World, b: nat, id: Text, principal: Text, expected: int, target: i64)
    requires Right(env, w)
    ensures Right(env, Visited(env, w, b, id, principal, expected, target))
  {
    hide Right, Act;
    var w1 := Act(env, w, Enter(b, id, principal, expected, target));
    ActKeeps(env, w, Enter(b, id, principal, expected, target));
    var w2 := Act(env, w1, Load(b));
    ActKeeps(env, w1, Load(b));
    var w3 := Act(env, w2, SaveRecovered(b));
    ActKeeps(env, w2, SaveRecovered(b));
    ActKeeps(env, w3, AdvanceSession(b));
    ActKeeps(env, Act(env, w3, AdvanceSession(b)), SaveAdvanced(b));
  }

  lemma LatestAfterReached(env: Env, z: World, u: Visit)
    requires Right(env, z) && Reached(env, z, u)
    ensures LatestCheckpoint(RowsOf(z, u.id)).Some? && LatestCheckpoint(RowsOf(z, u.id)).value.time == u.target
  {
    hide RunTo, Fold, TimeAt, Accounted, RightPhase;
    var rows := RowsOf(z, u.id);
    CurrentRows(env, z, u.id);
    FoundRowIsRow(rows, u.version + 1);
    LatestIsRow(rows);
    var i :| 0 <= i < |rows| && rows[i] == Latest(rows).value;
    assert RightCheckpoint(env, z.store.sessions[u.id], rows[i].version, rows[i].cp);
    assert rows[i].version == u.version + 1;
    var j :| 0 <= j < |rows| && rows[j].version == u.version + 1 && rows[j].cp == FindRow(rows, u.version + 1).value;
    assert RightCheckpoint(env, z.store.sessions[u.id], rows[j].version, rows[j].cp);
    assert rows[i].cp == rows[j].cp;
    RunEndsAtTarget(env, u.setup, u.target);
  }

  /** Whenever one coordinator has read a session that another then advances, the first goes on to
      call the other's sound checkpoint corrupt. */
  lemma OvertakenCallsItCorrupt(env: Env, w: World, a: nat, v: Visit, b: nat, u: Visit)
    requires Right(env, w) && PhaseOf(w, a) == Entered(v) && a != b
    requires CanAdvance(w.store, u) && u.id == v.id && u.time == v.time
    requires RunFor(env, u.setup, u.target, None).Ok? && Fed(env, u)
    ensures var z := Visited(env, w, b, u.id, u.principal, u.version, u.target);
            && Right(env, z) && PhaseOf(z, a) == Entered(v)
            && Recover(env, v, LatestCheckpoint(RowsOf(z, v.id))) == Err(SnapshotCorrupt)
            && PhaseOf(Act(env, z, Load(a)), a) == Idle
  {
    hide Right, Visited, Reached, RunFor, Fed, LatestCheckpoint;
    var z := Visited(env, w, b, u.id, u.principal, u.version, u.target);
    RecoveryWorksExactly(env, w, b, u);
    VisitKeeps(env, w, b, u.id, u.principal, u.version, u.target);
    OnlyOwnPhase(env, w, b, u.id, u.principal, u.version, u.target, a);
    LatestAfterReached(env, z, u);
    CorruptExactly(env, z, a, v);
  }

  // --------------------------------------------------------------- concrete runs

  const ID: Text := [1]
  const OWNER: Text := [2]
  const MANIFEST: Text := [3]
  const RULES := Ruleset([4], [5], [])
  const REQUEST: SetupRequest := RequestRow(MANIFEST, 0, 0, 10, true, [6], RULES, [])
  const SETUP := PinOf(REQUEST, [7])

  /** A session created, committed and started. */
  const OPENING: seq<Action> :=
    [Other(CreateRequest(ID, OWNER, 0)), Other(CommitRequest(ID, OWNER, 0, REQUEST, {MANIFEST}, [7])),
     Other(StartRequest(ID, OWNER, 1))]

  function Hex(b: byte): Text { seq(64, i => b) }

  /** Counts inputs; its hash alternates between two values. */
  function Count(s: SimState, x: ReplayInput): Option<SimState> {
    Some(SimState(s.version + 1, if s.hash == Hex(48) then Hex(49) else Hex(48), []))
  }

  const COUNTER := Simulator(SimState(0, Hex(48), []), Count)

  function World0(items: seq<ReplayInput>): Env {
    Env(m => items, COUNTER, (a, b, c) => a + b + c)
  }

  function StartVisit(target: i64): Visit { Visit(ID, OWNER, 2, SETUP, 0, target) }

  /** The three opening requests on the session tables alone. */
  lemma OpeningStore(env: Env, target: i64)
    requires 0 < target <= 10
    ensures var s1 := Step(EMPTY_STORE, OPENING[0].request, env.ids);
            var s2 := Step(s1, OPENING[1].request, env.ids);
            CanAdvance(Step(s2, OPENING[2].request, env.ids), StartVisit(target))
  {
    var s1 := Step(EMPTY_STORE, OPENING[0].request, env.ids);
    var x1 := Session(OWNER, Setup, 0, None, 0, [], []);
    assert s1 == Put(EMPTY_STORE, ID, x1);
    var s2 := Step(s1, OPENING[1].request, env.ids);
    var x2 := Record(x1, Committed, 0, SessionCommitted(SETUP)).(rulesetId := Some([6]));
    assert s2.sessions == map[ID := x2];
    var e1 := LifecycleEvent(0, 0, SessionCommitted(SETUP), 1);
    assert x2.events == [e1];
    assert [e1][..0] == [];
    assert Fold([e1]) == Some(View(Some(SETUP), Some(0), None));
    var s3 := Step(s2, OPENING[2].request, env.ids);
    var x3 := Record(x2, Running, 0, SessionStarted);
    assert s3.sessions == map[ID := x3];
    assert x3.events[..1] == [e1];
  }

  lemma Opened(env: Env, target: i64)
    requires 0 < target <= 10
    ensures Right(env, ActAll(env, EMPTY_WORLD, OPENING))
    ensures CanAdvance(ActAll(env, EMPTY_WORLD, OPENING).store, StartVisit(target))
    ensures ActAll(env, EMPTY_WORLD, OPENING).rows == map[]
  {
    hide Right, Step, CanAdvance;
    StartsRight(env);
    ActAllKeeps(env, EMPTY_WORLD, OPENING);
    OpeningStore(env, target);
    Unfold3(env, EMPTY_WORLD, OPENING[0], OPENING[1], OPENING[2]);
    assert OPENING == [OPENING[0], OPENING[1], OPENING[2]];
  }

  lemma Unfold3(env: Env, w: World, a: Action, b: Action, c: Action)
    ensures ActAll(env, w, [a, b, c]) == Act(env, Act(env, Act(env, w, a), b), c)
  {
    assert [a, b, c][..2] == [a, b] && [a, b][..1] == [a] && [a][..0] == [];
    assert ActAll(env, w, [a]) == Act(env, ActAll(env, w, []), a);
    assert ActAll(env, w, [a, b]) == Act(env, ActAll(env, w, [a]), b);
  }

  /** With nothing at or before the frontier, a freshly started session cannot be advanced at all. */
  lemma UnfedSessionIsStuck(who: nat, target: i64)
    requires 0 < target <= 10
    ensures var env := World0([]);
            var w := ActAll(env, EMPTY_WORLD, OPENING);
            var z := Visited(env, w, who, ID, OWNER, 2, target);
            z.store == w.store && z.rows == w.rows && RunFor(env, SETUP, target, None).Ok?
  {
    hide Right, Visited, CanAdvance, Reached, ActAll, RunFor;
    var env := World0([]);
    Opened(env, target);
    RecoveryWorksExactly(env, ActAll(env, EMPTY_WORLD, OPENING), who, StartVisit(target));
    EmptyRuns(target);
  }

  lemma EmptyRuns(target: i64)
    ensures RunFor(World0([]), SETUP, target, None).Ok?
  {
    assert Remaining([], 0, target) == [];
  }

  /** From the empty world: coordinator 1 reads, coordinator 2 advances, coordinator 1 cries corruption. */
  lemma SpuriousCorruption()
    ensures var env := World0([ReplayInput(0, 0, [], [])]);
            var w := Act(env, ActAll(env, EMPTY_WORLD, OPENING), Enter(1, ID, OWNER, 2, 5));
            var z := Visited(env, w, 2, ID, OWNER, 2, 5);
            && PhaseOf(z, 1) == Entered(StartVisit(5)) && Right(env, z)
            && Recover(env, StartVisit(5), LatestCheckpoint(RowsOf(z, ID))) == Err(SnapshotCorrupt)
  {
    var item := ReplayInput(0, 0, [], []);
    var env := World0([item]);
    var w0 := ActAll(env, EMPTY_WORLD, OPENING);
    Opened(env, 5);
    hide Right, Visited, Reached;
    EntersAndRecovers(env, w0, StartVisit(5));
    ActKeeps(env, w0, Enter(1, ID, OWNER, 2, 5));
    OneInputRuns(item);
    OvertakenCallsItCorrupt(env, Act(env, w0, Enter(1, ID, OWNER, 2, 5)), 1, StartVisit(5), 2, StartVisit(5));
  }

  lemma OneInputRuns(item: ReplayInput)
    requires item.seqNo == 0 && item.ts == 0
    ensures RunFor(World0([item]), SETUP, 5, None).Ok?
  {
    var items := [item];
    assert Reach(items, 0, 5) == 1;
    assert Remaining(items, 0, 5) == [item];
    assert Hex(48)[0] != Hex(49)[0];
    var start := StartCursor(None, 0, COUNTER);
    var next := Consume(start, item, 0, 5, COUNTER);
    assert next.Ok?;
    assert [item][1..] == [];
    assert ConsumeAll(next.value, [], 0, 5, COUNTER) == next;
  }
}
