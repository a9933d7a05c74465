/** The session service and command store as objects over the shared tables. */
module SessionService {
  import opened Common
  import opened Numeric
  import opened Bytes
  import opened Sessions

  lemma {:induction false} FoldStops(es: seq<LifecycleEvent>, n: nat)
    requires n <= |es| && Fold(es[..n]).None?
    ensures Fold(es).None?
    decreases |es| - n
  {
    if n == |es| {
      assert es[..n] == es;
    } else {
      assert es[..n + 1][..n] == es[..n];
      FoldStops(es, n + 1);
    }
  }

  /** Reads a session back from its events. */
  method MaterializeFromRow(x: Session) returns (r: Result<View, SessionError>)
    ensures r == Materialize(x)
  {
    var setup: Option<PinnedSetup> := None;
    var time: Option<i64> := None;
    var parent: Option<Text> := None;
    for i := 0 to |x.events|
      invariant Fold(x.events[..i]) == Some(View(setup, time, parent))
    {
      var kind := x.events[i].kind;
      assert x.events[..i + 1][..i] == x.events[..i];
      assert Fold(x.events[..i + 1]) == FoldOne(View(setup, time, parent), kind);
      if kind.SessionCommitted? || kind.SessionForked? {
        if setup.Some? {
          FoldStops(x.events, i + 1);
          return Err(InvalidValue);
        }
        setup := Some(kind.setup);
        time := Some(kind.setup.playStart);
        if kind.SessionForked? {
          parent := Some(kind.parent);
          time := Some(kind.time);
        }
      } else if kind.SessionAdvanced? {
        if setup.None? {
          FoldStops(x.events, i + 1);
          return Err(InvalidValue);
        }
        time := Some(kind.time);
      }
    }
    assert x.events[..|x.events|] == x.events;
    if !x.status.Setup? && setup.None? { return Err(InvalidValue); }
    if setup.Some? && x.rulesetId.Some? && x.rulesetId.value != setup.value.rulesetId { return Err(InvalidValue); }
    return Ok(View(setup, time, parent));
  }

  /** A transaction either takes effect as specified or leaves the tables alone. */
  ghost predicate Settles(o: Outcome, before: Store, after: Store, r: Option<SessionError>) {
    if o.Ok? then r.None? && after == o.value else r == Some(o.error) && after == before
  }

  class SessionService {
    var sessions: map<Text, Session>
    var rulesets: map<Text, Ruleset>

    function Value(): Store
      reads this
    {
      Store(sessions, rulesets)
    }

    constructor ()
      ensures Value() == EMPTY_STORE
    {
      sessions, rulesets := map[], map[];
    }

    method CreateSession(id: Text, principal: Text, createdAt: i64) returns (r: Option<SessionError>)
      modifies this
      ensures Settles(Create(old(Value()), id, principal, createdAt), old(Value()), Value(), r)
    {
      if id in sessions { return Some(SessionExists); }
      sessions := sessions[id := Session(principal, Setup, 0, None, createdAt, [], [])];
      return None;
    }

    /** Appends one event and moves row version and status with it. */
    method AppendAndAdvance(id: Text, target: Status, logicalTs: i64, kind: EventKind)
      requires id in sessions
      modifies this
      ensures Value() == Put(old(Value()), id, Record(old(sessions[id]), target, logicalTs, kind))
    {
      var x := sessions[id];
      var next := x.version + 1;
      var event := LifecycleEvent(|x.events|, logicalTs, kind, next);
      sessions := sessions[id := x.(status := target, version := next, events := x.events + [event])];
    }

    method LockFrontier(id: Text, principal: Text, expected: int, allowed: set<Status>)
      returns (r: Result<View, SessionError>)
      ensures var f := Frontier(Value(), id, principal, expected, allowed);
              if f.Ok? then r == Ok(f.value.1) else r == Err(f.error)
    {
      if id !in sessions { return Err(SessionNotFound); }
      var x := sessions[id];
      if x.principal != principal { return Err(PrincipalMismatch); }
      var versioned := RequireVersion(x.version, expected);
      if versioned.Err? { return Err(versioned.error); }
      var v := MaterializeFromRow(x);
      if v.Err? { return v; }
      if x.status !in allowed { return Err(InvalidTransition); }
      return v;
    }

    method CommitSetup(id: Text, principal: Text, expected: int, request: SetupRequest, eligible: set<Text>, hash: Text)
      returns (r: Option<SessionError>)
      modifies this
      ensures Settles(Commit(old(Value()), id, principal, expected, request, eligible, hash), old(Value()), Value(), r)
    {
      var next := NextVersion(expected);
      if next.Err? { return Some(next.error); }
      if !request.tierAllowed { return Some(RulesetFidelityUnsupported); }
      if eligible == {} { return Some(SetupIneligible); }
      if request.manifestHash !in eligible { return Some(ManifestIneligible); }
      if id !in sessions { return Some(SessionNotFound); }
      var x := sessions[id];
      if x.principal != principal { return Some(PrincipalMismatch); }
      var versioned := RequireVersion(x.version, expected);
      if versioned.Err? { return Some(versioned.error); }
      if !x.status.Setup? { return Some(InvalidTransition); }
      var known := PersistRuleset(Value(), request.rulesetId, request.ruleset);
      if known.Err? { return Some(known.error); }
      rulesets := known.value.rulesets;
      AppendAndAdvance(id, Committed, request.playStart, SessionCommitted(PinOf(request, hash)));
      sessions := sessions[id := sessions[id].(rulesetId := Some(request.rulesetId))];
      return None;
    }

    method TransitionStatus(id: Text, principal: Text, expected: int, allowed: set<Status>, target: Status, kind: EventKind)
      returns (r: Option<SessionError>)
      modifies this
      ensures Settles(StatusTransition(old(Value()), id, principal, expected, allowed, target, kind),
                      old(Value()), Value(), r)
    {
      var next := NextVersion(expected);
      if next.Err? { return Some(next.error); }
      var v := LockFrontier(id, principal, expected, allowed);
      if v.Err? { return Some(v.error); }
      if v.value.time.None? { return Some(InvalidTransition); }
      AppendAndAdvance(id, target, v.value.time.value, kind);
      return None;
    }

    method AdvanceTo(id: Text, principal: Text, expected: int, time: i64) returns (r: Option<SessionError>)
      modifies this
      ensures Settles(Advance(old(Value()), id, principal, expected, time), old(Value()), Value(), r)
    {
      var next := NextVersion(expected);
      if next.Err? { return Some(next.error); }
      var v := LockFrontier(id, principal, expected, {Running});
      if v.Err? { return Some(v.error); }
      if v.value.setup.None? || v.value.time.None? { return Some(InvalidTransition); }
      if time <= v.value.time.value || time > PlayEnd(v.value.setup.value) { return Some(AdvanceOutOfRange); }
      AppendAndAdvance(id, Running, time, SessionAdvanced(time));
      return None;
    }

    method CompleteSession(id: Text, principal: Text, expected: int) returns (r: Option<SessionError>)
      modifies this
      ensures Settles(Complete(old(Value()), id, principal, expected), old(Value()), Value(), r)
    {
      var next := NextVersion(expected);
      if next.Err? { return Some(next.error); }
      var v := LockFrontier(id, principal, expected, {Running, Paused});
      if v.Err? { return Some(v.error); }
      if v.value.setup.None? || v.value.time.None? || v.value.time.value != PlayEnd(v.value.setup.value) {
        return Some(InvalidTransition);
      }
      AppendAndAdvance(id, Completed, v.value.time.value, SessionCompleted);
      return None;
    }

    method ForkSession(id: Text, principal: Text, expected: int, child: Text, createdAt: i64)
      returns (r: Option<SessionError>)
      modifies this
      ensures Settles(Fork(old(Value()), id, principal, expected, child, createdAt), old(Value()), Value(), r)
    {
      if expected < 0 || expected > U64_MAX { return Some(InvalidValue); }
      if child == id { return Some(InvalidForkTarget); }
      var v := LockFrontier(id, principal, expected, {Committed, Running, Paused});
      if v.Err? { return Some(v.error); }
      if v.value.setup.None? || v.value.time.None? { return Some(InvalidTransition); }
      if child in sessions { return Some(SessionExists); }
      var setup, time := v.value.setup.value, v.value.time.value;
      var event := LifecycleEvent(0, time, SessionForked(setup, time, id, expected), 1);
      assert [] + [event] == [event];
      var status := if time == setup.playStart then Committed else Paused;
      sessions := sessions[child := Session(principal, status, 1, Some(setup.rulesetId), createdAt, [event], [])];
      return None;
    }

    method AcceptCommand(id: Text, principal: Text, key: Text, expected: u64, acceptedAt: i64, payloadHash: Text,
                         ids: CommandIds) returns (r: Result<Acceptance, SessionError>)
      modifies this
      ensures var a := Accept(old(Value()), id, principal, key, expected, acceptedAt, payloadHash, ids);
              if a.Ok? then r == Ok(a.value.1) && Value() == a.value.0
              else r == Err(a.error) && Value() == old(Value())
    {
      if id !in sessions { return Err(SessionNotFound); }
      var x := sessions[id];
      if x.principal != principal { return Err(PrincipalMismatch); }
      var existing := FindKey(x.commands, key);
      if existing.Some? {
        if existing.value.payloadHash != payloadHash { return Err(IdempotencyConflict); }
        return Ok(Acceptance(existing.value, existing.value.expectedVersion + 1, true));
      }
      if !x.status.Running? { return Err(SessionNotRunning); }
      if x.version != expected || expected == U64_MAX { return Err(VersionConflict); }
      var c := Command(ids(id, key, payloadHash), key, payloadHash, expected, acceptedAt);
      if IdTaken(Value(), c.id) { return Err(DatabaseConflict); }
      sessions := sessions[id := x.(version := x.version + 1, commands := x.commands + [c])];
      return Ok(Acceptance(c, expected + 1, false));
    }
  }
}
