/** Coverage catalog: gap-free segments of immutable manifests, and the setups they admit. */
module Catalog {
  import opened Common
  import opened Numeric
  import opened Bytes
  import opened Sorting
  import opened Intervals

  datatype Quality = Pending | Valid | Degraded | Quarantined
  datatype Redistribution = Redistributable | UserLicensed | Restricted | Unknown
  datatype ExecutionTier = F0 | F0T | F1 | F2 | F3
  datatype Capability =
    | Bars | Trades | Bbo | L2Snapshots | L2Deltas | L3 | MarkPrice | IndexPrice | Funding | OpenInterest | Liquidations

  function Rank(t: ExecutionTier): nat {
    match t
    case F0 => 0
    case F0T => 1
    case F1 => 2
    case F2 => 3
    case F3 => 4
  }

  /** The facts of one manifest; `other` stands for those no query looks at. */
  datatype ManifestRow = ManifestRow(
    hash: Text, instrument: Text, provider: Text, dataset: Text, venue: Text, start: i64, end: i64, status: Quality,
    redistribution: Redistribution, tier: ExecutionTier, capabilities: set<Capability>, gaps: seq<Gap>, other: Bytes)
  type Manifest = m: ManifestRow | m.start < m.end
    witness ManifestRow([], [], [], [], [], 0, 1, Pending, Unknown, F0, {}, [], [])

  datatype Segment = Segment(
    instrument: Text, start: int, end: int, hash: Text, provider: Text, dataset: Text, venue: Text,
    tier: ExecutionTier, capabilities: set<Capability>, redistribution: Redistribution, status: Quality)

  datatype RequirementRow = RequirementRow(
    instrument: Text, playStart: int, warmup: int, duration: int, minimumTier: ExecutionTier,
    capabilities: set<Capability>, redistribution: set<Redistribution>, allowDegraded: bool)
  type Requirement = r: RequirementRow | r.warmup >= 0 && r.duration > 0
    witness RequirementRow([], 0, 0, 1, F0, {}, {}, false)

  datatype EligibleSetup = EligibleSetup(hash: Text, coverageStart: int, coverageEnd: int, playStart: int, playEnd: int)
  datatype EligibleWindow = EligibleWindow(hash: Text, coverageStart: int, coverageEnd: int, earliest: int, latest: int)

  /** Manifests in registration order, and the revocation facts beside them. */
  datatype State = State(manifests: seq<Manifest>, revocations: map<Text, (i64, Text)>)

  datatype CatalogError = ManifestHashConflict | UnknownManifest | InvalidRevocation | RevocationConflict

  // ----------------------------------------------------------------------- orders

  /** Lexicographic comparison of keys made of texts and numbers. */
  datatype KeyPart = TextPart(text: Text) | NumberPart(number: int)

  predicate KeyLeq(a: seq<KeyPart>, b: seq<KeyPart>)
    decreases |a|
  {
    if a == [] || b == [] then true
    else if a[0] == b[0] then KeyLeq(a[1..], b[1..])
    else
      match (a[0], b[0])
      case (TextPart(x), TextPart(y)) => LexLeq(x, y)
      case (NumberPart(x), NumberPart(y)) => x <= y
      case _ => true
  }

  predicate SegmentLeq(a: Segment, b: Segment) {
    KeyLeq([TextPart(a.instrument), NumberPart(a.start), NumberPart(a.end), TextPart(a.hash), TextPart(a.provider),
            TextPart(a.dataset), TextPart(a.venue)],
           [TextPart(b.instrument), NumberPart(b.start), NumberPart(b.end), TextPart(b.hash), TextPart(b.provider),
            TextPart(b.dataset), TextPart(b.venue)])
  }

  predicate SetupLeq(a: EligibleSetup, b: EligibleSetup) {
    KeyLeq([TextPart(a.hash), NumberPart(a.coverageStart), NumberPart(a.coverageEnd), NumberPart(a.playStart), NumberPart(a.playEnd)],
           [TextPart(b.hash), NumberPart(b.coverageStart), NumberPart(b.coverageEnd), NumberPart(b.playStart), NumberPart(b.playEnd)])
  }

  predicate WindowLeq(a: EligibleWindow, b: EligibleWindow) {
    KeyLeq([TextPart(a.hash), NumberPart(a.coverageStart), NumberPart(a.coverageEnd), NumberPart(a.earliest), NumberPart(a.latest)],
           [TextPart(b.hash), NumberPart(b.coverageStart), NumberPart(b.coverageEnd), NumberPart(b.earliest), NumberPart(b.latest)])
  }

  // ---------------------------------------------------------------------- queries

  function Find(ms: seq<Manifest>, hash: Text): Option<Manifest>
    decreases |ms|
  {
    if ms == [] then None else if ms[0].hash == hash then Some(ms[0]) else Find(ms[1..], hash)
  }

  predicate Contributes(c: State, m: Manifest, instrument: Option<Text>) {
    && (instrument.Some? ==> m.instrument == instrument.value)
    && (m.status.Valid? || m.status.Degraded?) && m.hash !in c.revocations
  }

  function SegmentOf(m: Manifest, s: Span): Segment {
    Segment(m.instrument, s.start, s.end, m.hash, m.provider, m.dataset, m.venue, m.tier, m.capabilities,
            m.redistribution, m.status)
  }

  function SegmentsOf(m: Manifest): (ss: seq<Segment>)
    ensures |ss| == |Subtract(m.start, m.end, m.gaps)|
  {
    var spans := Subtract(m.start, m.end, m.gaps);
    seq(|spans|, i requires 0 <= i < |spans| => SegmentOf(m, spans[i]))
  }

  function Collect(c: State, ms: seq<Manifest>, instrument: Option<Text>): seq<Segment>
    decreases |ms|
  {
    if ms == [] then []
    else
      var m := ms[|ms| - 1];
      Collect(c, ms[..|ms| - 1], instrument) + (if Contributes(c, m, instrument) then SegmentsOf(m) else [])
  }

  function Segments(c: State, instrument: Option<Text>): seq<Segment> {
    Sort(Collect(c, c.manifests, instrument), SegmentLeq)
  }

  predicate MeetsPolicy(s: Segment, r: Requirement) {
    && Rank(s.tier) >= Rank(r.minimumTier) && r.capabilities <= s.capabilities
    && s.redistribution in r.redistribution && (s.status.Degraded? ==> r.allowDegraded)
  }

  function RequiredStart(r: Requirement): int { r.playStart - r.warmup }

  function RequiredEnd(r: Requirement): int { r.playStart + r.duration }

  predicate Admits(s: Segment, r: Requirement) {
    MeetsPolicy(s, r) && s.start <= RequiredStart(r) && s.end >= RequiredEnd(r)
  }

  function SetupsFrom(ss: seq<Segment>, r: Requirement): seq<EligibleSetup>
    decreases |ss|
  {
    if ss == [] then []
    else
      var s := ss[|ss| - 1];
      SetupsFrom(ss[..|ss| - 1], r)
      + (if Admits(s, r) then [EligibleSetup(s.hash, s.start, s.end, r.playStart, RequiredEnd(r))] else [])
  }

  function EligibleSetups(c: State, r: Requirement): seq<EligibleSetup> {
    Sort(SetupsFrom(Segments(c, Some(r.instrument)), r), SetupLeq)
  }

  predicate HasWindow(s: Segment, r: Requirement) {
    MeetsPolicy(s, r) && s.start + r.warmup <= s.end - r.duration
  }

  function WindowsFrom(ss: seq<Segment>, r: Requirement): seq<EligibleWindow>
    decreases |ss|
  {
    if ss == [] then []
    else
      var s := ss[|ss| - 1];
      WindowsFrom(ss[..|ss| - 1], r)
      + (if HasWindow(s, r) then [EligibleWindow(s.hash, s.start, s.end, s.start + r.warmup, s.end - r.duration)] else [])
  }

  function EligibleWindows(c: State, r: Requirement): seq<EligibleWindow> {
    Sort(WindowsFrom(Segments(c, Some(r.instrument)), r), WindowLeq)
  }

  // ----------------------------------------------------------------------- meaning

  lemma SameElements<T>(a: seq<T>, b: seq<T>, x: T)
    requires multiset(a) == multiset(b)
    ensures x in a <==> x in b
  {
    assert x in a <==> x in multiset(a);
    assert x in b <==> x in multiset(b);
  }

  /** The manifest contributes this very segment. */
  predicate Gives(c: State, m: Manifest, instrument: Option<Text>, s: Segment) {
    Contributes(c, m, instrument) && s in SegmentsOf(m)
  }

  lemma {:induction false} Collected(c: State, ms: seq<Manifest>, instrument: Option<Text>, s: Segment)
    ensures s in Collect(c, ms, instrument) <==> exists k :: 0 <= k < |ms| && Gives(c, ms[k], instrument, s)
    decreases |ms|
  {
    if ms != [] {
      var n := |ms| - 1;
      Collected(c, ms[..n], instrument, s);
      LastGives(c, ms, instrument, s);
      GivenBefore(c, ms, n, instrument, s);
    }
  }

  lemma LastGives(c: State, ms: seq<Manifest>, instrument: Option<Text>, s: Segment)
    requires ms != []
    ensures var n := |ms| - 1;
            s in Collect(c, ms, instrument) <==> s in Collect(c, ms[..n], instrument) || Gives(c, ms[n], instrument, s)
  {
    hide SegmentsOf, Contributes;
  }

  lemma GivenBefore(c: State, ms: seq<Manifest>, n: nat, instrument: Option<Text>, s: Segment)
    requires |ms| == n + 1
    ensures (exists k :: 0 <= k < |ms| && Gives(c, ms[k], instrument, s))
            <==> (exists k :: 0 <= k < n && Gives(c, ms[..n][k], instrument, s)) || Gives(c, ms[n], instrument, s)
  {
    hide Gives;
    if k :| 0 <= k < n && Gives(c, ms[..n][k], instrument, s) { assert Gives(c, ms[k], instrument, s); }
    if k :| 0 <= k < |ms| && Gives(c, ms[k], instrument, s) {
      if k < n { assert Gives(c, ms[..n][k], instrument, s); }
    }
  }

  lemma InSegments(c: State, instrument: Option<Text>, s: Segment)
    ensures s in Segments(c, instrument) <==> exists k :: 0 <= k < |c.manifests| && Gives(c, c.manifests[k], instrument, s)
  {
    hide Gives, SegmentLeq, Collect;
    Collected(c, c.manifests, instrument, s);
    SameElements(Segments(c, instrument), Collect(c, c.manifests, instrument), s);
  }

  /** Some eligible setup uses manifest h. */
  predicate Listed(es: seq<EligibleSetup>, h: Text) { exists i :: 0 <= i < |es| && es[i].hash == h }

  lemma {:induction false} ListedFrom(ss: seq<Segment>, r: Requirement, h: Text)
    ensures Listed(SetupsFrom(ss, r), h) <==> exists k :: 0 <= k < |ss| && Admits(ss[k], r) && ss[k].hash == h
    decreases |ss|
  {
    hide Admits;
    if ss != [] {
      var n := |ss| - 1;
      ListedFrom(ss[..n], r, h);
      var before, all := SetupsFrom(ss[..n], r), SetupsFrom(ss, r);
      if Listed(before, h) {
        var i :| 0 <= i < |before| && before[i].hash == h;
        assert all[i].hash == h;
      }
      if Admits(ss[n], r) && ss[n].hash == h { assert all[|before|].hash == h; }
      assert forall k :: 0 <= k < n ==> ss[..n][k] == ss[k];
      if Listed(all, h) {
        var i :| 0 <= i < |all| && all[i].hash == h;
        if i < |before| { assert before[i].hash == h; }
      }
    }
  }

  lemma ListedSorted(es: seq<EligibleSetup>, h: Text)
    ensures Listed(Sort(es, SetupLeq), h) <==> Listed(es, h)
  {
    hide SetupLeq;
    var sorted := Sort(es, SetupLeq);
    if Listed(es, h) {
      var i :| 0 <= i < |es| && es[i].hash == h;
      SameElements(es, sorted, es[i]);
      var j :| 0 <= j < |sorted| && sorted[j] == es[i];
    }
    if Listed(sorted, h) {
      var i :| 0 <= i < |sorted| && sorted[i].hash == h;
      SameElements(es, sorted, sorted[i]);
      var j :| 0 <= j < |es| && es[j] == sorted[i];
    }
  }

  /** What makes a manifest eligible, without mentioning segments: quality, policy, revocation,
      and the whole interval from warm-up to end in range and clear of every known gap. */
  predicate Eligible(c: State, m: Manifest, r: Requirement) {
    && Contributes(c, m, Some(r.instrument))
    && Rank(m.tier) >= Rank(r.minimumTier) && r.capabilities <= m.capabilities
    && m.redistribution in r.redistribution && (m.status.Degraded? ==> r.allowDegraded)
    && m.start <= RequiredStart(r) && RequiredEnd(r) <= m.end && Clear(m.gaps, RequiredStart(r), RequiredEnd(r))
  }

  lemma AdmittedSegment(m: Manifest, r: Requirement, c: State)
    requires Contributes(c, m, Some(r.instrument))
    ensures (exists k :: 0 <= k < |SegmentsOf(m)| && Admits(SegmentsOf(m)[k], r)) <==> Eligible(c, m, r)
  {
    hide Subtract, Clear;
    var spans := Subtract(m.start, m.end, m.gaps);
    CoveredExactly(m.start, m.end, m.gaps, RequiredStart(r), RequiredEnd(r));
    if CoveredBy(spans, RequiredStart(r), RequiredEnd(r)) {
      var k :| 0 <= k < |spans| && Covers(spans[k], RequiredStart(r), RequiredEnd(r));
      assert SegmentsOf(m)[k] == SegmentOf(m, spans[k]);
    }
    forall k | 0 <= k < |spans| ensures Admits(SegmentsOf(m)[k], r) ==> Covers(spans[k], RequiredStart(r), RequiredEnd(r)) {
      assert SegmentsOf(m)[k] == SegmentOf(m, spans[k]);
    }
  }

  lemma SegmentsCarryHash(m: Manifest, k: nat)
    requires k < |SegmentsOf(m)|
    ensures SegmentsOf(m)[k].hash == m.hash
  {
  }

  /** eligible_setups names exactly the eligible manifests. */
  lemma EligibleExactly(c: State, r: Requirement, h: Text)
    ensures Listed(EligibleSetups(c, r), h)
            <==> exists k :: 0 <= k < |c.manifests| && c.manifests[k].hash == h && Eligible(c, c.manifests[k], r)
  {
    hide Eligible, Admits, SegmentsOf, Segments, SetupsFrom, SetupLeq, Listed, Contributes;
    var ss := Segments(c, Some(r.instrument));
    ListedSorted(SetupsFrom(ss, r), h);
    ListedFrom(ss, r, h);
    if k :| 0 <= k < |ss| && Admits(ss[k], r) && ss[k].hash == h {
      InSegments(c, Some(r.instrument), ss[k]);
      var n :| 0 <= n < |c.manifests| && Gives(c, c.manifests[n], Some(r.instrument), ss[k]);
      var j :| 0 <= j < |SegmentsOf(c.manifests[n])| && SegmentsOf(c.manifests[n])[j] == ss[k];
      AdmittedSegment(c.manifests[n], r, c);
      SegmentsCarryHash(c.manifests[n], j);
      assert c.manifests[n].hash == h && Eligible(c, c.manifests[n], r);
    }
    if n :| 0 <= n < |c.manifests| && c.manifests[n].hash == h && Eligible(c, c.manifests[n], r) {
      var m := c.manifests[n];
      EligibleContributes(c, m, r);
      AdmittedSegment(m, r, c);
      var j :| 0 <= j < |SegmentsOf(m)| && Admits(SegmentsOf(m)[j], r);
      SegmentsCarryHash(m, j);
      assert Gives(c, c.manifests[n], Some(r.instrument), SegmentsOf(m)[j]);
      InSegments(c, Some(r.instrument), SegmentsOf(m)[j]);
      var k :| 0 <= k < |ss| && ss[k] == SegmentsOf(m)[j];
      assert Admits(ss[k], r) && ss[k].hash == h;
    }
  }

  lemma EligibleContributes(c: State, m: Manifest, r: Requirement)
    requires Eligible(c, m, r)
    ensures Contributes(c, m, Some(r.instrument))
  {
  }

  /** Some listed window of manifest h contains play start t. */
  predicate Offered(ws: seq<EligibleWindow>, h: Text, t: int) {
    exists i :: 0 <= i < |ws| && ws[i].hash == h && ws[i].earliest <= t <= ws[i].latest
  }

  lemma {:induction false} OfferedFrom(ss: seq<Segment>, r: Requirement, h: Text, t: int)
    ensures Offered(WindowsFrom(ss, r), h, t)
            <==> exists k :: 0 <= k < |ss| && Admits(ss[k], r.(playStart := t)) && ss[k].hash == h
    decreases |ss|
  {
    if ss != [] {
      var n := |ss| - 1;
      OfferedFrom(ss[..n], r, h, t);
      var before, all := WindowsFrom(ss[..n], r), WindowsFrom(ss, r);
      if Offered(before, h, t) {
        var i :| 0 <= i < |before| && before[i].hash == h && before[i].earliest <= t <= before[i].latest;
        assert all[i] == before[i];
      }
      if Admits(ss[n], r.(playStart := t)) && ss[n].hash == h { assert all[|before|].hash == h; }
      assert forall k :: 0 <= k < n ==> ss[..n][k] == ss[k];
      if Offered(all, h, t) {
        var i :| 0 <= i < |all| && all[i].hash == h && all[i].earliest <= t <= all[i].latest;
        if i < |before| { assert all[i] == before[i]; }
      }
    }
  }

  lemma OfferedSorted(ws: seq<EligibleWindow>, h: Text, t: int)
    ensures Offered(Sort(ws, WindowLeq), h, t) <==> Offered(ws, h, t)
  {
    hide WindowLeq;
    var sorted := Sort(ws, WindowLeq);
    if Offered(ws, h, t) {
      var i :| 0 <= i < |ws| && ws[i].hash == h && ws[i].earliest <= t <= ws[i].latest;
      SameElements(ws, sorted, ws[i]);
      var j :| 0 <= j < |sorted| && sorted[j] == ws[i];
    }
    if Offered(sorted, h, t) {
      var i :| 0 <= i < |sorted| && sorted[i].hash == h && sorted[i].earliest <= t <= sorted[i].latest;
      SameElements(ws, sorted, sorted[i]);
      var j :| 0 <= j < |ws| && ws[j] == sorted[i];
    }
  }

  /** eligible_windows lists exactly the play starts at which eligible_setups would name the manifest. */
  lemma WindowsExactly(c: State, r: Requirement, h: Text, t: int)
    ensures Offered(EligibleWindows(c, r), h, t) <==> Listed(EligibleSetups(c, r.(playStart := t)), h)
  {
    hide Admits, Segments, SetupsFrom, WindowsFrom, SetupLeq, WindowLeq, Listed, Offered;
    var ss := Segments(c, Some(r.instrument));
    OfferedSorted(WindowsFrom(ss, r), h, t);
    OfferedFrom(ss, r, h, t);
    ListedSorted(SetupsFrom(ss, r.(playStart := t)), h);
    ListedFrom(ss, r.(playStart := t), h);
  }

  // ------------------------------------------------------------------------ object

  class CoverageCatalog {
    var manifests: seq<Manifest>
    var revocations: map<Text, (i64, Text)>

    function Value(): State
      reads this
    {
      State(manifests, revocations)
    }

    constructor ()
      ensures Value() == State([], map[])
    {
      manifests, revocations := [], map[];
    }

    /** First registration inserts, an exact retry does nothing, changed facts are refused. */
    method Register(m: Manifest) returns (r: Result<bool, CatalogError>)
      modifies this
      ensures revocations == old(revocations)
      ensures var known := Find(old(manifests), m.hash);
              if known.None? then r == Ok(true) && manifests == old(manifests) + [m]
              else manifests == old(manifests) && r == if known.value == m then Ok(false) else Err(ManifestHashConflict)
    {
      var existing := Find(manifests, m.hash);
      if existing.None? {
        manifests := manifests + [m];
        return Ok(true);
      }
      if existing.value != m { return Err(ManifestHashConflict); }
      return Ok(false);
    }

    method Revoke(hash: Text, revokedAt: int, reason: Text) returns (r: Result<bool, CatalogError>)
      modifies this
      ensures manifests == old(manifests)
      ensures r == Ok(true) ==> I64_MIN <= revokedAt <= I64_MAX && hash !in old(revocations)
                                && revocations == old(revocations)[hash := (revokedAt, reason)]
      ensures r != Ok(true) ==> revocations == old(revocations)
      ensures r == Ok(false) ==> hash in revocations && revocations[hash] == (revokedAt, reason)
      ensures r.Err? <==> || Find(manifests, hash).None? || reason == [] || !(I64_MIN <= revokedAt <= I64_MAX)
                          || (hash in old(revocations) && old(revocations)[hash] != (revokedAt, reason))
      ensures r.Err? ==> r.error == if Find(manifests, hash).None? then UnknownManifest
                                    else if reason == [] || !(I64_MIN <= revokedAt <= I64_MAX) then InvalidRevocation
                                    else RevocationConflict
    {
      if Find(manifests, hash).None? { return Err(UnknownManifest); }
      if reason == [] || revokedAt < I64_MIN || revokedAt > I64_MAX { return Err(InvalidRevocation); }
      if hash !in revocations {
        revocations := revocations[hash := (revokedAt, reason)];
        return Ok(true);
      }
      if revocations[hash] != (revokedAt, reason) { return Err(RevocationConflict); }
      return Ok(false);
    }

    method ManifestSegments(m: Manifest) returns (mine: seq<Segment>)
      ensures mine == SegmentsOf(m)
    {
      hide Subtract;
      var spans := SubtractGaps(m.start, m.end, m.gaps);
      mine := [];
      for j := 0 to |spans|
        invariant mine == SegmentsOf(m)[..j]
      {
        mine := mine + [SegmentOf(m, spans[j])];
      }
    }

    method ListSegments(instrument: Option<Text>) returns (ss: seq<Segment>)
      ensures ss == Segments(Value(), instrument)
    {
      hide SegmentsOf, SegmentLeq;
      ss := [];
      for i := 0 to |manifests|
        invariant ss == Collect(Value(), manifests[..i], instrument)
      {
        var m := manifests[i];
        assert manifests[..i + 1][..i] == manifests[..i];
        var mine: seq<Segment> := [];
        if Contributes(Value(), m, instrument) { mine := ManifestSegments(m); }
        ss := ss + mine;
      }
      assert manifests[..|manifests|] == manifests;
      ss := Sort(ss, SegmentLeq);
    }

    method ListEligibleSetups(r: Requirement) returns (es: seq<EligibleSetup>)
      ensures es == EligibleSetups(Value(), r)
    {
      hide SegmentLeq, SetupLeq, Segments;
      es := [];
      var ss := ListSegments(Some(r.instrument));
      for i := 0 to |ss|
        invariant es == SetupsFrom(ss[..i], r)
      {
        var s := ss[i];
        assert ss[..i + 1][..i] == ss[..i];
        if MeetsPolicy(s, r) && s.start <= RequiredStart(r) && s.end >= RequiredEnd(r) {
          es := es + [EligibleSetup(s.hash, s.start, s.end, r.playStart, RequiredEnd(r))];
        } else {
          assert es + [] == es;
        }
      }
      assert ss[..|ss|] == ss;
      es := Sort(es, SetupLeq);
    }

    method ListEligibleWindows(r: Requirement) returns (ws: seq<EligibleWindow>)
      ensures ws == EligibleWindows(Value(), r)
    {
      hide SegmentLeq, WindowLeq, Segments;
      ws := [];
      var ss := ListSegments(Some(r.instrument));
      for i := 0 to |ss|
        invariant ws == WindowsFrom(ss[..i], r)
      {
        var s := ss[i];
        assert ss[..i + 1][..i] == ss[..i];
        var earliest, latest := s.start + r.warmup, s.end - r.duration;
        if MeetsPolicy(s, r) && earliest <= latest {
          ws := ws + [EligibleWindow(s.hash, s.start, s.end, earliest, latest)];
        } else {
          assert ws + [] == ws;
        }
      }
      assert ss[..|ss|] == ss;
      ws := Sort(ws, WindowLeq);
    }
  }
}
