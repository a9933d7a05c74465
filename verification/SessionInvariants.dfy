/** What every run of lifecycle transitions and commands keeps. */
module SessionInvariants {
  import opened Common
  import opened Numeric
  import opened Bytes
  import opened Sessions

  // ------------------------------------------------------------- consumed versions

  function EventVersions(es: seq<LifecycleEvent>): multiset<int>
    decreases |es|
  {
    if es == [] then multiset{} else EventVersions(es[..|es| - 1]) + multiset{es[|es| - 1].stateVersion - 1}
  }

  function CommandVersions(cs: seq<Command>): multiset<int>
    decreases |cs|
  {
    if cs == [] then multiset{} else CommandVersions(cs[..|cs| - 1]) + multiset{cs[|cs| - 1].expectedVersion}
  }

  /** The versions that some event or command moved the session away from. */
  function Consumed(x: Session): multiset<int> { EventVersions(x.events) + CommandVersions(x.commands) }

  /** Each of 0, …, n-1 once. */
  function Below(n: nat): multiset<int> { if n == 0 then multiset{} else Below(n - 1) + multiset{n - 1} }

  lemma {:induction false} BelowCounts(n: nat, v: int)
    ensures Below(n)[v] == if 0 <= v < n then 1 else 0
  {
    if n > 0 { BelowCounts(n - 1, v); }
  }

  // ------------------------------------------------------------------- invariant

  ghost predicate Pinned(x: Session, v: View) {
    match v.setup
    case None => v == NO_VIEW && x.status.Setup? && x.version == 0
    case Some(p) =>
      && !x.status.Setup? && x.version > 0 && x.rulesetId == Some(p.rulesetId) && p.duration > 0 && p.warmup >= 0
      && v.time.Some? && p.playStart <= v.time.value <= PlayEnd(p)
      && (x.status.Completed? ==> v.time.value == PlayEnd(p))
  }

  /** Events are numbered from zero and carry ever larger versions, none beyond the session's own. */
  predicate Numbered(es: seq<LifecycleEvent>, version: nat) {
    && (forall i :: 0 <= i < |es| ==> es[i].eventSeq == i && 0 < es[i].stateVersion <= version)
    && (forall i, j :: 0 <= i < j < |es| ==> es[i].stateVersion < es[j].stateVersion)
  }

  /** The time an event sets, if any. */
  function TimeSet(k: EventKind): Option<i64> {
    match k
    case SessionCommitted(setup) => Some(setup.playStart)
    case SessionForked(_, time, _, _) => Some(time)
    case SessionAdvanced(time) => Some(time)
    case _ => None
  }

  /** No event sets a time before the one in force. */
  ghost predicate Chronological(es: seq<LifecycleEvent>)
    decreases |es|
  {
    es == [] ||
    var n := |es| - 1;
    Chronological(es[..n]) && (Fold(es[..n]).Some? ==> NotEarlier(Fold(es[..n]).value, es[n].kind))
  }

  ghost predicate NotEarlier(v: View, k: EventKind) {
    v.time.Some? && TimeSet(k).Some? ==> v.time.value <= TimeSet(k).value
  }

  predicate DistinctKeys(cs: seq<Command>) {
    forall i, j :: 0 <= i < j < |cs| ==> cs[i].key != cs[j].key
  }

  ghost predicate Healthy(x: Session) {
    && x.version <= U64_MAX
    && Consumed(x) == Below(x.version)
    && Numbered(x.events, x.version) && DistinctKeys(x.commands)
    && Chronological(x.events) && Fold(x.events).Some? && Pinned(x, Fold(x.events).value)
  }

  ghost predicate Accounted(s: Store) {
    forall id :: id in s.sessions ==> Healthy(s.sessions[id])
  }

  /** A healthy session can always be read. */
  lemma HealthyReads(x: Session)
    requires Healthy(x)
    ensures Materialize(x) == Ok(Fold(x.events).value)
  {
  }

  lemma AppendFolds(es: seq<LifecycleEvent>, e: LifecycleEvent)
    requires Fold(es).Some? && Chronological(es) && NotEarlier(Fold(es).value, e.kind)
    ensures Fold(es + [e]) == FoldOne(Fold(es).value, e.kind) && Chronological(es + [e])
  {
    assert (es + [e])[..|es|] == es;
  }

  lemma AppendNumbers(es: seq<LifecycleEvent>, version: nat, e: LifecycleEvent)
    requires Numbered(es, version) && e.eventSeq == |es| && e.stateVersion == version + 1
    ensures Numbered(es + [e], version + 1)
  {
  }

  /** Appending one event with the next version. */
  lemma RecordKeeps(x: Session, status: Status, ts: i64, kind: EventKind)
    requires Fold(x.events).Some? && FoldOne(Fold(x.events).value, kind).Some?
    requires Chronological(x.events) && NotEarlier(Fold(x.events).value, kind)
    requires x.version < U64_MAX && Consumed(x) == Below(x.version) && Numbered(x.events, x.version) && DistinctKeys(x.commands)
    ensures var y := Record(x, status, ts, kind);
            && Fold(y.events) == FoldOne(Fold(x.events).value, kind) && Chronological(y.events)
            && y.version <= U64_MAX && Consumed(y) == Below(y.version) && Numbered(y.events, y.version) && DistinctKeys(y.commands)
  {
    hide FoldOne, Fold, Chronological, NotEarlier, Numbered, Consumed, DistinctKeys, Below;
    var e := LifecycleEvent(|x.events|, ts, kind, x.version + 1);
    AppendFolds(x.events, e);
    AppendNumbers(x.events, x.version, e);
    EventConsumes(x, status, e);
  }

  lemma EventConsumes(x: Session, status: Status, e: LifecycleEvent)
    requires Consumed(x) == Below(x.version) && e.stateVersion == x.version + 1
    ensures Consumed(x.(status := status, version := x.version + 1, events := x.events + [e])) == Below(x.version + 1)
  {
    var a, b := EventVersions(x.events), CommandVersions(x.commands);
    assert (x.events + [e])[..|x.events|] == x.events;
    assert EventVersions(x.events + [e]) == a + multiset{x.version};
    AddInTheMiddle(a, b, x.version);
  }

  lemma AddInTheMiddle(a: multiset<int>, b: multiset<int>, v: int)
    ensures (a + multiset{v}) + b == (a + b) + multiset{v}
  {
  }

  lemma {:induction false} FindKeyFinds(cs: seq<Command>, key: Text)
    ensures FindKey(cs, key).None? ==> forall i :: 0 <= i < |cs| ==> cs[i].key != key
    ensures FindKey(cs, key).Some? ==> FindKey(cs, key).value in cs && FindKey(cs, key).value.key == key
    decreases |cs|
  {
    if cs != [] && cs[0].key != key {
      FindKeyFinds(cs[1..], key);
      assert forall i :: 0 < i < |cs| ==> cs[i] == cs[1..][i - 1];
    }
  }

  lemma CommandKeeps(x: Session, c: Command)
    requires Healthy(x) && x.status.Running? && x.version < U64_MAX
    requires c.expectedVersion == x.version && FindKey(x.commands, c.key).None?
    ensures Healthy(x.(version := x.version + 1, commands := x.commands + [c]))
  {
    hide Fold, Chronological, Consumed, DistinctKeys, Below;
    CommandConsumes(x, c);
    DistinctGrows(x.commands, c);
  }

  lemma CommandConsumes(x: Session, c: Command)
    requires Consumed(x) == Below(x.version) && c.expectedVersion == x.version
    ensures Consumed(x.(version := x.version + 1, commands := x.commands + [c])) == Below(x.version + 1)
  {
    hide EventVersions;
    assert (x.commands + [c])[..|x.commands|] == x.commands;
  }

  lemma DistinctGrows(cs: seq<Command>, c: Command)
    requires DistinctKeys(cs) && FindKey(cs, c.key).None?
    ensures DistinctKeys(cs + [c])
  {
    FindKeyFinds(cs, c.key);
  }

  lemma CommitKeeps(s: Store, id: Text, principal: Text, expected: int, r: SetupRequest, eligible: set<Text>, hash: Text)
    requires Accounted(s)
    ensures var o := Commit(s, id, principal, expected, r, eligible, hash);
            o.Ok? ==> id in o.value.sessions && Healthy(o.value.sessions[id])
                      && o.value.sessions == s.sessions[id := o.value.sessions[id]]
  {
    hide EventVersions, CommandVersions, Numbered, DistinctKeys, Chronological;
    if Commit(s, id, principal, expected, r, eligible, hash).Ok? {
      var x := s.sessions[id];
      assert Healthy(x);
      RecordKeeps(x, Committed, r.playStart, SessionCommitted(PinOf(r, hash)));
    }
  }

  /** A transition that keeps the pinned setup keeps a session healthy. */
  lemma TransitionKeeps(x: Session, status: Status, ts: i64, kind: EventKind)
    requires Healthy(x) && x.version < U64_MAX && !x.status.Setup? && !status.Setup?
    requires FoldOne(Fold(x.events).value, kind).Some? && NotEarlier(Fold(x.events).value, kind)
    requires var v, w := Fold(x.events).value, FoldOne(Fold(x.events).value, kind).value;
             && w.setup == v.setup && w.time.Some? && v.setup.Some?
             && v.setup.value.playStart <= w.time.value <= PlayEnd(v.setup.value)
             && (status.Completed? ==> w.time.value == PlayEnd(v.setup.value))
    ensures Healthy(Record(x, status, ts, kind))
  {
    hide Consumed, Numbered, DistinctKeys, Chronological;
    RecordKeeps(x, status, ts, kind);
  }

  ghost predicate KeepsAll(s: Store, id: Text, o: Outcome) {
    o.Ok? ==> && id in o.value.sessions && Healthy(o.value.sessions[id])
              && o.value == Put(s, id, o.value.sessions[id])
  }

  lemma StatusKeeps(s: Store, id: Text, principal: Text, expected: int, allowed: set<Status>, target: Status, kind: EventKind)
    requires Accounted(s) && (kind.SessionStarted? || kind.SessionPaused?)
    requires Setup !in allowed && !target.Setup? && !target.Completed?
    ensures KeepsAll(s, id, StatusTransition(s, id, principal, expected, allowed, target, kind))
  {
    hide Consumed, Numbered, DistinctKeys, Chronological, Fold, Below, Record;
    if StatusTransition(s, id, principal, expected, allowed, target, kind).Ok? {
      var x := s.sessions[id];
      assert Healthy(x);
      TransitionKeeps(x, target, Fold(x.events).value.time.value, kind);
    }
  }

  lemma AdvanceKeeps(s: Store, id: Text, principal: Text, expected: int, time: i64)
    requires Accounted(s)
    ensures KeepsAll(s, id, Advance(s, id, principal, expected, time))
  {
    hide Consumed, Numbered, DistinctKeys, Chronological, Fold, Below, Record;
    if Advance(s, id, principal, expected, time).Ok? {
      var x := s.sessions[id];
      assert Healthy(x);
      TransitionKeeps(x, Running, time, SessionAdvanced(time));
    }
  }

  lemma CompleteKeeps(s: Store, id: Text, principal: Text, expected: int)
    requires Accounted(s)
    ensures KeepsAll(s, id, Complete(s, id, principal, expected))
  {
    hide Consumed, Numbered, DistinctKeys, Chronological, Fold, Below, Record;
    if Complete(s, id, principal, expected).Ok? {
      var x := s.sessions[id];
      assert Healthy(x);
      TransitionKeeps(x, Completed, Fold(x.events).value.time.value, SessionCompleted);
    }
  }

  lemma BornIsHealthy(principal: Text, createdAt: i64, parent: Text, version: u64, setup: PinnedSetup, time: i64)
    requires setup.duration > 0 && setup.warmup >= 0 && setup.playStart <= time <= PlayEnd(setup)
    ensures Healthy(Record(Session(principal, Setup, 0, Some(setup.rulesetId), createdAt, [], []),
                           if time == setup.playStart then Committed else Paused, time,
                           SessionForked(setup, time, parent, version)))
  {
    hide Consumed, Numbered, DistinctKeys, Chronological, Below, Fold;
    var born := Session(principal, Setup, 0, Some(setup.rulesetId), createdAt, [], []);
    EmptyIsReady(born);
    RecordKeeps(born, if time == setup.playStart then Committed else Paused, time,
                SessionForked(setup, time, parent, version));
  }

  lemma EmptyIsReady(x: Session)
    requires x.version == 0 && x.events == [] && x.commands == []
    ensures Fold(x.events) == Some(NO_VIEW) && Chronological(x.events) && Numbered(x.events, 0)
    ensures DistinctKeys(x.commands) && Consumed(x) == Below(0)
  {
  }

  lemma ForkKeeps(s: Store, id: Text, principal: Text, expected: int, child: Text, createdAt: i64)
    requires Accounted(s)
    ensures var o := Fork(s, id, principal, expected, child, createdAt);
            KeepsAll(s, child, o) && (o.Ok? ==> child !in s.sessions)
  {
    hide Consumed, Numbered, DistinctKeys, Chronological, Fold, Below, Record;
    if Fork(s, id, principal, expected, child, createdAt).Ok? {
      assert Healthy(s.sessions[id]);
      var v := Fold(s.sessions[id].events).value;
      BornIsHealthy(principal, createdAt, id, expected, v.setup.value, v.time.value);
    }
  }

  lemma AcceptKeeps(s: Store, r: Request, ids: CommandIds)
    requires Accounted(s) && r.AcceptRequest?
    ensures KeepsAll(s, r.id, Attempt(s, r, ids))
  {
    hide Consumed, Numbered, DistinctKeys, Chronological, Fold, Below;
    var o := Attempt(s, r, ids);
    if o.Ok? {
      var x := s.sessions[r.id];
      assert Healthy(x);
      if FindKey(x.commands, r.key).Some? {
        assert s.sessions[r.id := x] == s.sessions;
      } else {
        CommandKeeps(x, Command(ids(r.id, r.key, r.payloadHash), r.key, r.payloadHash, r.version, r.acceptedAt));
      }
    }
  }

  lemma StepKeeps(s: Store, r: Request, ids: CommandIds)
    requires Accounted(s)
    ensures Accounted(Step(s, r, ids))
  {
    hide Healthy;
    var o := Attempt(s, r, ids);
    if o.Ok? {
      match r
      case CreateRequest(id, p, at) => NewIsHealthy(p, at);
      case CommitRequest(id, p, e, setup, eligible, hash) => CommitKeeps(s, id, p, e, setup, eligible, hash);
      case ForkRequest(id, p, e, child, at) => ForkKeeps(s, id, p, e, child, at);
      case AcceptRequest(_, _, _, _, _, _) => AcceptKeeps(s, r, ids);
      case StartRequest(id, p, e) => StatusKeeps(s, id, p, e, {Committed, Paused}, Running, SessionStarted);
      case PauseRequest(id, p, e) => StatusKeeps(s, id, p, e, {Running}, Paused, SessionPaused);
      case AdvanceRequest(id, p, e, time) => AdvanceKeeps(s, id, p, e, time);
      case CompleteRequest(id, p, e) => CompleteKeeps(s, id, p, e);
    }
  }

  lemma NewIsHealthy(principal: Text, createdAt: i64)
    ensures Healthy(Session(principal, Setup, 0, None, createdAt, [], []))
  {
  }

  lemma {:induction false} RunKeeps(s: Store, rs: seq<Request>, ids: CommandIds)
    requires Accounted(s)
    ensures Accounted(Run(s, rs, ids))
    decreases |rs|
  {
    if rs != [] {
      RunKeeps(s, rs[..|rs| - 1], ids);
      StepKeeps(Run(s, rs[..|rs| - 1], ids), rs[|rs| - 1], ids);
    }
  }

  /** In every reachable store, each earlier version of a session was consumed by exactly one event or command. */
  lemma EveryVersionConsumedOnce(rs: seq<Request>, ids: CommandIds, id: Text, v: int)
    requires id in Run(EMPTY_STORE, rs, ids).sessions
    ensures var x := Run(EMPTY_STORE, rs, ids).sessions[id];
            EventVersions(x.events)[v] + CommandVersions(x.commands)[v] == if 0 <= v < x.version then 1 else 0
  {
    RunKeeps(EMPTY_STORE, rs, ids);
    var x := Run(EMPTY_STORE, rs, ids).sessions[id];
    assert Healthy(x);
    BelowCounts(x.version, v);
  }

  /** In every reachable store a completed session stopped exactly at its committed end. */
  lemma CompletedAtPlayEnd(rs: seq<Request>, ids: CommandIds, id: Text)
    requires id in Run(EMPTY_STORE, rs, ids).sessions && Run(EMPTY_STORE, rs, ids).sessions[id].status.Completed?
    ensures var x := Run(EMPTY_STORE, rs, ids).sessions[id];
            && Materialize(x).Ok? && Materialize(x).value.setup.Some?
            && Materialize(x).value.time == Some(PlayEnd(Materialize(x).value.setup.value))
  {
    RunKeeps(EMPTY_STORE, rs, ids);
    assert Healthy(Run(EMPTY_STORE, rs, ids).sessions[id]);
  }
}
