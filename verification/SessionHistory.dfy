/** Sessions only grow: logs are append-only, pinned setups never change, time never runs back. */
module SessionHistory {
  import opened Common
  import opened Numeric
  import opened Bytes
  import opened Sessions
  import opened SessionInvariants

  ghost predicate ViewGrows(v: View, w: View) {
    v.setup.Some? ==>
      && w.setup == v.setup && w.parent == v.parent
      && v.time.Some? && w.time.Some? && v.time.value <= w.time.value
  }

  /** What may become of a session. */
  ghost predicate Extends(x: Session, y: Session) {
    && y.principal == x.principal && y.createdAt == x.createdAt
    && x.version <= y.version && x.events <= y.events && x.commands <= y.commands
    && (forall i :: |x.events| <= i < |y.events| ==> y.events[i].stateVersion > x.version)
    && Fold(x.events).Some? && Fold(y.events).Some? && ViewGrows(Fold(x.events).value, Fold(y.events).value)
    && (x.status.Completed? ==> y == x)
  }

  lemma ExtendsSelf(x: Session)
    requires Healthy(x)
    ensures Extends(x, x)
  {
  }

  lemma ExtendsTransitive(x: Session, y: Session, z: Session)
    requires Extends(x, y) && Extends(y, z)
    ensures Extends(x, z)
  {
    hide Fold;
    assert x.events <= z.events && x.commands <= z.commands;
    forall i | |x.events| <= i < |z.events| ensures z.events[i].stateVersion > x.version {
      if i < |y.events| { assert z.events[i] == y.events[i]; }
    }
  }

  lemma RecordExtends(x: Session, status: Status, ts: i64, kind: EventKind)
    requires Healthy(x) && !x.status.Completed? && FoldOne(Fold(x.events).value, kind).Some?
    requires ViewGrows(Fold(x.events).value, FoldOne(Fold(x.events).value, kind).value)
    ensures Extends(x, Record(x, status, ts, kind))
  {
    hide FoldOne;
    assert Record(x, status, ts, kind).events[..|x.events|] == x.events;
  }

  lemma CommandExtends(x: Session, c: Command)
    requires Healthy(x) && !x.status.Completed?
    ensures Extends(x, x.(version := x.version + 1, commands := x.commands + [c]))
  {
    assert (x.commands + [c])[..|x.commands|] == x.commands;
  }

  ghost predicate StoreExtends(s: Store, t: Store) {
    forall id :: id in s.sessions ==> id in t.sessions && Extends(s.sessions[id], t.sessions[id])
  }

  lemma PutExtends(s: Store, id: Text, y: Session)
    requires Accounted(s) && (id in s.sessions ==> Extends(s.sessions[id], y))
    ensures StoreExtends(s, Put(s, id, y))
  {
    hide Extends, Healthy;
    forall other | other in s.sessions ensures Extends(s.sessions[other], Put(s, id, y).sessions[other]) {
      if other != id { ExtendsSelf(s.sessions[other]); }
    }
  }

  lemma CommitExtends(s: Store, id: Text, principal: Text, expected: int, r: SetupRequest, eligible: set<Text>, hash: Text)
    requires Accounted(s)
    ensures var o := Commit(s, id, principal, expected, r, eligible, hash);
            o.Ok? ==> id in s.sessions && id in o.value.sessions && Extends(s.sessions[id], o.value.sessions[id])
                      && o.value.sessions == s.sessions[id := o.value.sessions[id]]
  {
    hide Consumed, Numbered, DistinctKeys, Chronological, Below, Fold;
    if Commit(s, id, principal, expected, r, eligible, hash).Ok? {
      var x := s.sessions[id];
      assert Healthy(x);
      RecordExtends(x, Committed, r.playStart, SessionCommitted(PinOf(r, hash)));
    }
  }

  ghost predicate Grows(s: Store, id: Text, o: Outcome) {
    o.Ok? ==> && id in s.sessions && id in o.value.sessions && Extends(s.sessions[id], o.value.sessions[id])
              && o.value == Put(s, id, o.value.sessions[id])
  }

  lemma StatusExtends(s: Store, id: Text, principal: Text, expected: int, allowed: set<Status>, target: Status, kind: EventKind)
    requires Accounted(s) && (kind.SessionStarted? || kind.SessionPaused?) && Completed !in allowed
    ensures Grows(s, id, StatusTransition(s, id, principal, expected, allowed, target, kind))
  {
    hide Consumed, Numbered, DistinctKeys, Chronological, Fold, Below, Extends, Record;
    if StatusTransition(s, id, principal, expected, allowed, target, kind).Ok? {
      var x := s.sessions[id];
      assert Healthy(x);
      RecordExtends(x, target, Fold(x.events).value.time.value, kind);
    }
  }

  lemma AdvanceExtends(s: Store, id: Text, principal: Text, expected: int, time: i64)
    requires Accounted(s)
    ensures Grows(s, id, Advance(s, id, principal, expected, time))
  {
    hide Consumed, Numbered, DistinctKeys, Chronological, Fold, Below, Extends, Record;
    if Advance(s, id, principal, expected, time).Ok? {
      var x := s.sessions[id];
      assert Healthy(x);
      RecordExtends(x, Running, time, SessionAdvanced(time));
    }
  }

  lemma CompleteExtends(s: Store, id: Text, principal: Text, expected: int)
    requires Accounted(s)
    ensures Grows(s, id, Complete(s, id, principal, expected))
  {
    hide Consumed, Numbered, DistinctKeys, Chronological, Fold, Below, Extends, Record;
    if Complete(s, id, principal, expected).Ok? {
      var x := s.sessions[id];
      assert Healthy(x);
      RecordExtends(x, Completed, Fold(x.events).value.time.value, SessionCompleted);
    }
  }

  lemma AcceptExtends(s: Store, r: Request, ids: CommandIds)
    requires Accounted(s) && r.AcceptRequest?
    ensures Grows(s, r.id, Attempt(s, r, ids))
  {
    hide Consumed, Numbered, DistinctKeys, Chronological, Fold, Below, Extends;
    if Attempt(s, r, ids).Ok? {
      var x := s.sessions[r.id];
      assert Healthy(x);
      if FindKey(x.commands, r.key).Some? {
        ExtendsSelf(x);
        assert s.sessions[r.id := x] == s.sessions;
      } else {
        CommandExtends(x, Command(ids(r.id, r.key, r.payloadHash), r.key, r.payloadHash, r.version, r.acceptedAt));
      }
    }
  }

  /** No request rewrites anything: it leaves or extends every session that existed. */
  lemma StepExtends(s: Store, r: Request, ids: CommandIds)
    requires Accounted(s)
    ensures StoreExtends(s, Step(s, r, ids))
  {
    hide Healthy, Extends, Commit, StatusTransition, Advance, Complete, Accept;
    var o := Attempt(s, r, ids);
    if o.Err? {
      forall id | id in s.sessions ensures Extends(s.sessions[id], s.sessions[id]) { ExtendsSelf(s.sessions[id]); }
    } else {
      match r
      case CreateRequest(id, p, at) => PutExtends(s, id, o.value.sessions[id]);
      case CommitRequest(id, p, e, setup, eligible, hash) =>
        CommitExtends(s, id, p, e, setup, eligible, hash);
        PutExtends(s, id, o.value.sessions[id]);
      case ForkRequest(id, p, e, child, at) => PutExtends(s, child, o.value.sessions[child]);
      case AcceptRequest(id, _, _, _, _, _) => AcceptExtends(s, r, ids); PutExtends(s, id, o.value.sessions[id]);
      case StartRequest(id, p, e) =>
        StatusExtends(s, id, p, e, {Committed, Paused}, Running, SessionStarted);
        PutExtends(s, id, o.value.sessions[id]);
      case PauseRequest(id, p, e) =>
        StatusExtends(s, id, p, e, {Running}, Paused, SessionPaused);
        PutExtends(s, id, o.value.sessions[id]);
      case AdvanceRequest(id, p, e, time) => AdvanceExtends(s, id, p, e, time); PutExtends(s, id, o.value.sessions[id]);
      case CompleteRequest(id, p, e) => CompleteExtends(s, id, p, e); PutExtends(s, id, o.value.sessions[id]);
    }
  }

  /** Over any run: setups never change, logical time and version only grow, completed sessions never move. */
  lemma {:induction false} RunExtends(s: Store, rs: seq<Request>, ids: CommandIds)
    requires Accounted(s)
    ensures StoreExtends(s, Run(s, rs, ids))
    decreases |rs|
  {
    hide Extends, Healthy, Step;
    if rs == [] {
      forall id | id in s.sessions ensures Extends(s.sessions[id], s.sessions[id]) { ExtendsSelf(s.sessions[id]); }
    } else {
      var mid := Run(s, rs[..|rs| - 1], ids);
      RunExtends(s, rs[..|rs| - 1], ids);
      RunKeeps(s, rs[..|rs| - 1], ids);
      StepExtends(mid, rs[|rs| - 1], ids);
      forall id | id in s.sessions ensures Extends(s.sessions[id], Run(s, rs, ids).sessions[id]) {
        ExtendsTransitive(s.sessions[id], mid.sessions[id], Run(s, rs, ids).sessions[id]);
      }
    }
  }

  // ------------------------------------------------------------- exactly-once commands

  lemma {:induction false} FindKeyInPrefix(cs: seq<Command>, ds: seq<Command>, key: Text)
    requires cs <= ds && FindKey(cs, key).Some?
    ensures FindKey(ds, key) == FindKey(cs, key)
    decreases |cs|
  {
    if cs[0].key != key { FindKeyInPrefix(cs[1..], ds[1..], key); }
  }

  lemma {:induction false} FindKeyAtEnd(cs: seq<Command>, c: Command)
    requires FindKey(cs, c.key).None?
    ensures FindKey(cs + [c], c.key) == Some(c)
    decreases |cs|
  {
    if cs != [] {
      assert (cs + [c])[1..] == cs[1..] + [c];
      FindKeyAtEnd(cs[1..], c);
    }
  }

  /** Once accepted, a command is answered the same way ever after, and never consumes a version again. */
  lemma RetryConsumesNothing(s: Store, id: Text, principal: Text, key: Text, expected: u64, at: i64, hash: Text,
                             ids: CommandIds, rs: seq<Request>, expected': u64, at': i64)
    requires Accounted(s) && Accept(s, id, principal, key, expected, at, hash, ids).Ok?
    ensures var (s', a) := Accept(s, id, principal, key, expected, at, hash, ids).value;
            var later := Run(s', rs, ids);
            Accept(later, id, principal, key, expected', at', hash, ids)
            == Ok((later, Acceptance(a.command, a.resulting, true)))
  {
    hide Healthy, Extends, Fold;
    var r := AcceptRequest(id, principal, key, expected, at, hash);
    var (s', a) := Accept(s, id, principal, key, expected, at, hash, ids).value;
    assert s' == Step(s, r, ids);
    StepKeeps(s, r, ids);
    RunExtends(s', rs, ids);
    var x, y := s.sessions[id], s'.sessions[id];
    if FindKey(x.commands, key).None? { FindKeyAtEnd(x.commands, a.command); }
    assert FindKey(y.commands, key) == Some(a.command);
    AcceptedFields(s, id, principal, key, expected, at, hash, ids);
    var z := Run(s', rs, ids).sessions[id];
    ExtendsParts(y, z);
    FindKeyInPrefix(y.commands, z.commands, key);
  }

  lemma AcceptedFields(s: Store, id: Text, principal: Text, key: Text, expected: u64, at: i64, hash: Text, ids: CommandIds)
    requires Accept(s, id, principal, key, expected, at, hash, ids).Ok?
    ensures var (s', a) := Accept(s, id, principal, key, expected, at, hash, ids).value;
            && a.command.payloadHash == hash && a.resulting == a.command.expectedVersion + 1
            && id in s'.sessions && s'.sessions[id].principal == principal
  {
  }

  lemma ExtendsParts(x: Session, y: Session)
    requires Extends(x, y)
    ensures y.principal == x.principal && x.commands <= y.commands && x.version <= y.version
  {
  }

  // --------------------------------------------------------- time as versions go by

  /** The logical time a session had at version v. */
  function TimeAt(es: seq<LifecycleEvent>, v: int): Option<i64>
    decreases |es|
  {
    if es == [] then None
    else
      var e := es[|es| - 1];
      if e.stateVersion <= v && TimeSet(e.kind).Some? then TimeSet(e.kind) else TimeAt(es[..|es| - 1], v)
  }

  lemma {:induction false} TimeAtNow(es: seq<LifecycleEvent>, v: int)
    requires Fold(es).Some? && forall i :: 0 <= i < |es| ==> es[i].stateVersion <= v
    ensures TimeAt(es, v) == Fold(es).value.time
    decreases |es|
  {
    if es != [] {
      assert forall i :: 0 <= i < |es| - 1 ==> es[..|es| - 1][i] == es[i];
      TimeAtNow(es[..|es| - 1], v);
    }
  }

  lemma {:induction false} TimeAtSettled(es: seq<LifecycleEvent>, fs: seq<LifecycleEvent>, v: int)
    requires es <= fs && forall i :: |es| <= i < |fs| ==> fs[i].stateVersion > v
    ensures TimeAt(fs, v) == TimeAt(es, v)
    decreases |fs|
  {
    if |es| < |fs| {
      TimeAtSettled(es, fs[..|fs| - 1], v);
    } else {
      assert es == fs;
    }
  }

  lemma {:induction false} TimeAtGrows(es: seq<LifecycleEvent>, u: int, v: int)
    requires Fold(es).Some? && Chronological(es) && u <= v
    requires forall i, j :: 0 <= i < j < |es| ==> es[i].stateVersion < es[j].stateVersion
    requires TimeAt(es, u).Some?
    ensures TimeAt(es, v).Some? && TimeAt(es, u).value <= TimeAt(es, v).value
    decreases |es|
  {
    var n := |es| - 1;
    var e := es[n];
    assert forall i :: 0 <= i < n ==> es[..n][i] == es[i];
    if TimeSet(e.kind).Some? && e.stateVersion <= v {
      if e.stateVersion > u { TimeAtBounded(es[..n], u); }
    } else {
      TimeAtGrows(es[..n], u, v);
    }
  }

  lemma {:induction false} TimeAtBounded(es: seq<LifecycleEvent>, v: int)
    requires Fold(es).Some? && Chronological(es) && TimeAt(es, v).Some?
    ensures Fold(es).value.time.Some? && TimeAt(es, v).value <= Fold(es).value.time.value
    decreases |es|
  {
    var n := |es| - 1;
    if !(TimeSet(es[n].kind).Some? && es[n].stateVersion <= v) { TimeAtBounded(es[..n], v); }
  }

  /** A session's current time is its time at its current version. */
  lemma CurrentTime(x: Session)
    requires Healthy(x)
    ensures Fold(x.events).Some? && TimeAt(x.events, x.version) == Fold(x.events).value.time
  {
    TimeAtNow(x.events, x.version);
  }

  /** The time of a version already reached never changes again. */
  lemma PastTimeIsSettled(x: Session, y: Session, v: nat)
    requires Extends(x, y) && v <= x.version
    ensures TimeAt(y.events, v) == TimeAt(x.events, v)
  {
    TimeAtSettled(x.events, y.events, v);
  }
}
