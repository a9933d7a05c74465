/** Replay sessions: lifecycle transitions and accepted commands over one optimistic version. */
module Sessions {
  import opened Common
  import opened Numeric
  import opened Bytes

  datatype Status = Setup | Committed | Running | Paused | Completed

  /** The facts pinned by a commit; `terms` stands for those no transition looks at. */
  datatype PinnedSetup = PinnedSetup(
    manifestHash: Text, eligibilityHash: Text, playStart: i64, warmup: i64, duration: i64,
    rulesetId: Text, rulesetHash: Text, terms: Bytes)

  function PlayEnd(p: PinnedSetup): int { p.playStart + p.duration }

  datatype Ruleset = Ruleset(version: Text, hash: Text, body: Bytes)

  datatype RequestRow = RequestRow(
    manifestHash: Text, playStart: i64, warmup: i64, duration: i64, tierAllowed: bool,
    rulesetId: Text, ruleset: Ruleset, terms: Bytes)

  /** A setup request as its constructor admits it. */
  type SetupRequest = r: RequestRow
    | r.warmup >= 0 && r.duration > 0 && I64_MIN <= r.playStart - r.warmup && r.playStart + r.duration <= I64_MAX
    witness RequestRow([], 0, 0, 1, false, [], Ruleset([], [], []), [])

  datatype EventKind =
    | SessionCommitted(setup: PinnedSetup)
    | SessionStarted
    | SessionPaused
    | SessionAdvanced(time: i64)
    | SessionCompleted
    | SessionForked(setup: PinnedSetup, time: i64, parent: Text, parentVersion: u64)

  /** A lifecycle event; `stateVersion` is the version its transition produced. */
  datatype LifecycleEvent = LifecycleEvent(eventSeq: nat, logicalTs: i64, kind: EventKind, stateVersion: nat)

  datatype Command = Command(id: Text, key: Text, payloadHash: Text, expectedVersion: nat, acceptedAt: i64)

  /** One session: its row, its events and its commands. */
  datatype Session = Session(
    principal: Text, status: Status, version: nat, rulesetId: Option<Text>, createdAt: i64,
    events: seq<LifecycleEvent>, commands: seq<Command>)

  datatype Store = Store(sessions: map<Text, Session>, rulesets: map<Text, Ruleset>)

  const EMPTY_STORE := Store(map[], map[])

  datatype SessionError =
    | SessionExists | SessionNotFound | PrincipalMismatch | VersionConflict | InvalidTransition
    | SetupIneligible | ManifestIneligible | RulesetFidelityUnsupported | RulesetConflict
    | AdvanceOutOfRange | InvalidForkTarget | InvalidValue
    | IdempotencyConflict | SessionNotRunning | DatabaseConflict

  // --------------------------------------------------------------- materialization

  /** What the event log says about a session. */
  datatype View = View(setup: Option<PinnedSetup>, time: Option<i64>, parent: Option<Text>)

  const NO_VIEW := View(None, None, None)

  function FoldOne(v: View, k: EventKind): Option<View> {
    match k
    case SessionCommitted(setup) => if v.setup.Some? then None else Some(View(Some(setup), Some(setup.playStart), v.parent))
    case SessionForked(setup, time, parent, _) =>
      if v.setup.Some? then None else Some(View(Some(setup), Some(time), Some(parent)))
    case SessionAdvanced(time) => if v.setup.None? then None else Some(v.(time := Some(time)))
    case _ => Some(v)
  }

  function Fold(es: seq<LifecycleEvent>): Option<View>
    decreases |es|
  {
    if es == [] then Some(NO_VIEW)
    else
      var before := Fold(es[..|es| - 1]);
      if before.None? then None else FoldOne(before.value, es[|es| - 1].kind)
  }

  function Materialize(s: Session): Result<View, SessionError> {
    var v := Fold(s.events);
    if v.None? then Err(InvalidValue)
    else if !s.status.Setup? && v.value.setup.None? then Err(InvalidValue)
    else if v.value.setup.Some? && s.rulesetId.Some? && s.rulesetId.value != v.value.setup.value.rulesetId
      then Err(InvalidValue)
    else Ok(v.value)
  }

  // -------------------------------------------------------------------- operations

  function Locked(s: Store, id: Text, principal: Text): Result<Session, SessionError> {
    if id !in s.sessions then Err(SessionNotFound)
    else if s.sessions[id].principal != principal then Err(PrincipalMismatch)
    else Ok(s.sessions[id])
  }

  function NextVersion(expected: int): Result<nat, SessionError> {
    if expected < 0 || expected > U64_MAX then Err(InvalidValue)
    else if expected == U64_MAX then Err(VersionConflict)
    else Ok(expected + 1)
  }

  function RequireVersion(stored: nat, expected: int): Result<(), SessionError> {
    if expected < 0 || expected > U64_MAX || stored > U64_MAX then Err(InvalidValue)
    else if stored != expected then Err(VersionConflict)
    else Ok(())
  }

  /** The session after one more event, at the next version. */
  function Record(x: Session, status: Status, logicalTs: i64, kind: EventKind): Session {
    x.(status := status, version := x.version + 1,
       events := x.events + [LifecycleEvent(|x.events|, logicalTs, kind, x.version + 1)])
  }

  function Put(s: Store, id: Text, x: Session): Store { s.(sessions := s.sessions[id := x]) }

  type Outcome = Result<Store, SessionError>

  function Create(s: Store, id: Text, principal: Text, createdAt: i64): Outcome {
    if id in s.sessions then Err(SessionExists)
    else Ok(Put(s, id, Session(principal, Setup, 0, None, createdAt, [], [])))
  }

  /** The ruleset table with the definition present, unless it conflicts. */
  function PersistRuleset(s: Store, id: Text, r: Ruleset): Result<Store, SessionError> {
    if id in s.rulesets then if s.rulesets[id] == r then Ok(s) else Err(RulesetConflict)
    else if exists other :: other in s.rulesets && s.rulesets[other].hash == r.hash then Err(RulesetConflict)
    else Ok(s.(rulesets := s.rulesets[id := r]))
  }

  function PinOf(r: SetupRequest, eligibilityHash: Text): PinnedSetup {
    PinnedSetup(r.manifestHash, eligibilityHash, r.playStart, r.warmup, r.duration, r.rulesetId, r.ruleset.hash, r.terms)
  }

  function Commit(s: Store, id: Text, principal: Text, expected: int, r: SetupRequest, eligible: set<Text>,
                  eligibilityHash: Text): Outcome
  {
    var _ :- NextVersion(expected);
    if !r.tierAllowed then Err(RulesetFidelityUnsupported)
    else if eligible == {} then Err(SetupIneligible)
    else if r.manifestHash !in eligible then Err(ManifestIneligible)
    else
      var x :- Locked(s, id, principal);
      var _ :- RequireVersion(x.version, expected);
      if !x.status.Setup? then Err(InvalidTransition)
      else
        var s' :- PersistRuleset(s, r.rulesetId, r.ruleset);
        var y := Record(x, Committed, r.playStart, SessionCommitted(PinOf(r, eligibilityHash)));
        Ok(Put(s', id, y.(rulesetId := Some(r.rulesetId))))
  }

  /** Locks a session, checks its version and status, and reads its frontier. */
  function Frontier(s: Store, id: Text, principal: Text, expected: int, allowed: set<Status>)
    : (r: Result<(Session, View), SessionError>)
    ensures r.Ok? ==> id in s.sessions && r.value.0 == s.sessions[id] && expected == r.value.0.version
    ensures r.Ok? ==> r.value.0.status in allowed && Materialize(r.value.0) == Ok(r.value.1)
  {
    var x :- Locked(s, id, principal);
    var _ :- RequireVersion(x.version, expected);
    var v :- Materialize(x);
    if x.status !in allowed then Err(InvalidTransition) else Ok((x, v))
  }

  function StatusTransition(s: Store, id: Text, principal: Text, expected: int, allowed: set<Status>, target: Status,
                            kind: EventKind): Outcome
  {
    var _ :- NextVersion(expected);
    var (x, v) :- Frontier(s, id, principal, expected, allowed);
    if v.time.None? then Err(InvalidTransition) else Ok(Put(s, id, Record(x, target, v.time.value, kind)))
  }

  function Start(s: Store, id: Text, principal: Text, expected: int): Outcome {
    StatusTransition(s, id, principal, expected, {Committed, Paused}, Running, SessionStarted)
  }

  function Pause(s: Store, id: Text, principal: Text, expected: int): Outcome {
    StatusTransition(s, id, principal, expected, {Running}, Paused, SessionPaused)
  }

  function Advance(s: Store, id: Text, principal: Text, expected: int, time: i64): Outcome {
    var _ :- NextVersion(expected);
    var (x, v) :- Frontier(s, id, principal, expected, {Running});
    if v.setup.None? || v.time.None? then Err(InvalidTransition)
    else if time <= v.time.value || time > PlayEnd(v.setup.value) then Err(AdvanceOutOfRange)
    else Ok(Put(s, id, Record(x, Running, time, SessionAdvanced(time))))
  }

  function Complete(s: Store, id: Text, principal: Text, expected: int): Outcome {
    var _ :- NextVersion(expected);
    var (x, v) :- Frontier(s, id, principal, expected, {Running, Paused});
    if v.setup.None? || v.time.None? || v.time.value != PlayEnd(v.setup.value) then Err(InvalidTransition)
    else Ok(Put(s, id, Record(x, Completed, v.time.value, SessionCompleted)))
  }

  function Fork(s: Store, id: Text, principal: Text, expected: int, child: Text, createdAt: i64): Outcome {
    if expected < 0 || expected > U64_MAX then Err(InvalidValue)
    else if child == id then Err(InvalidForkTarget)
    else
      var (x, v) :- Frontier(s, id, principal, expected, {Committed, Running, Paused});
      if v.setup.None? || v.time.None? then Err(InvalidTransition)
      else if child in s.sessions then Err(SessionExists)
      else
        var setup, time := v.setup.value, v.time.value;
        var born := Session(principal, Setup, 0, Some(setup.rulesetId), createdAt, [], []);
        Ok(Put(s, child, Record(born, if time == setup.playStart then Committed else Paused, time,
                                SessionForked(setup, time, id, expected))))
  }

  /** Identity of a command: a digest of session, key and payload. */
  type CommandIds = (Text, Text, Text) -> Text

  datatype Acceptance = Acceptance(command: Command, resulting: nat, replayed: bool)

  function FindKey(cs: seq<Command>, key: Text): Option<Command>
    decreases |cs|
  {
    if cs == [] then None
    else if cs[0].key == key then Some(cs[0])
    else FindKey(cs[1..], key)
  }

  predicate IdTaken(s: Store, commandId: Text) {
    exists id :: id in s.sessions && exists i :: 0 <= i < |s.sessions[id].commands| && s.sessions[id].commands[i].id == commandId
  }

  function Accept(s: Store, id: Text, principal: Text, key: Text, expected: u64, acceptedAt: i64, payloadHash: Text,
                  ids: CommandIds): Result<(Store, Acceptance), SessionError>
  {
    var x :- Locked(s, id, principal);
    var existing := FindKey(x.commands, key);
    if existing.Some? then
      if existing.value.payloadHash != payloadHash then Err(IdempotencyConflict)
      else Ok((s, Acceptance(existing.value, existing.value.expectedVersion + 1, true)))
    else if !x.status.Running? then Err(SessionNotRunning)
    else if x.version != expected || expected == U64_MAX then Err(VersionConflict)
    else
      var c := Command(ids(id, key, payloadHash), key, payloadHash, expected, acceptedAt);
      if IdTaken(s, c.id) then Err(DatabaseConflict)
      else Ok((Put(s, id, x.(version := x.version + 1, commands := x.commands + [c])), Acceptance(c, expected + 1, false)))
  }

  // -------------------------------------------------------------------------- runs

  datatype Request =
    | CreateRequest(id: Text, principal: Text, createdAt: i64)
    | CommitRequest(id: Text, principal: Text, expected: int, setup: SetupRequest, eligible: set<Text>, hash: Text)
    | StartRequest(id: Text, principal: Text, expected: int)
    | PauseRequest(id: Text, principal: Text, expected: int)
    | AdvanceRequest(id: Text, principal: Text, expected: int, time: i64)
    | CompleteRequest(id: Text, principal: Text, expected: int)
    | ForkRequest(id: Text, principal: Text, expected: int, child: Text, createdAt: i64)
    | AcceptRequest(id: Text, principal: Text, key: Text, version: u64, acceptedAt: i64, payloadHash: Text)

  function Attempt(s: Store, r: Request, ids: CommandIds): Outcome {
    match r
    case CreateRequest(id, p, at) => Create(s, id, p, at)
    case CommitRequest(id, p, e, setup, eligible, hash) => Commit(s, id, p, e, setup, eligible, hash)
    case StartRequest(id, p, e) => Start(s, id, p, e)
    case PauseRequest(id, p, e) => Pause(s, id, p, e)
    case AdvanceRequest(id, p, e, time) => Advance(s, id, p, e, time)
    case CompleteRequest(id, p, e) => Complete(s, id, p, e)
    case ForkRequest(id, p, e, child, at) => Fork(s, id, p, e, child, at)
    case AcceptRequest(id, p, key, e, at, hash) =>
      var a :- Accept(s, id, p, key, e, at, hash, ids);
      Ok(a.0)
  }

  /** A request is one transaction: a failed one changes nothing. */
  function Step(s: Store, r: Request, ids: CommandIds): Store {
    var x := Attempt(s, r, ids);
    if x.Ok? then x.value else s
  }

  function Run(s: Store, rs: seq<Request>, ids: CommandIds): Store
    decreases |rs|
  {
    if rs == [] then s else Step(Run(s, rs[..|rs| - 1], ids), rs[|rs| - 1], ids)
  }
}
