/** A committed setup was covered by the catalog at the moment it was pinned. */
module SessionEligibility {
  import opened Common
  import opened Bytes
  import opened Intervals
  import opened Catalog
  import Sessions

  /** The requirement that commit_setup builds from a request. */
  function RequirementOf(instrument: Text, p: Sessions.SetupRequest, policy: Requirement): Requirement {
    policy.(instrument := instrument, playStart := p.playStart, warmup := p.warmup, duration := p.duration)
  }

  /** The hashes commit_setup compares the request with. */
  function ListedHashes(es: seq<EligibleSetup>): set<Text> {
    set i | 0 <= i < |es| :: es[i].hash
  }

  lemma ListedIn(es: seq<EligibleSetup>, h: Text)
    ensures h in ListedHashes(es) <==> Listed(es, h)
  {
    if Listed(es, h) {
      var i :| 0 <= i < |es| && es[i].hash == h;
      assert es[i].hash in ListedHashes(es);
    }
  }

  /** The manifest covers every instant from warm-up to the end of play. */
  predicate CoversInterval(m: Manifest, from: int, to: int) {
    m.start <= from && to <= m.end && forall t :: from <= t < to ==> !InGap(t, m.gaps)
  }

  lemma ClearMeans(gs: seq<Gap>, from: int, to: int)
    requires Clear(gs, from, to)
    ensures forall t :: from <= t < to ==> !InGap(t, gs)
  {
  }

  /** The newest event of a session. */
  function LastEvent(s: Sessions.Store, id: Text): Option<Sessions.EventKind> {
    if id in s.sessions && s.sessions[id].events != []
    then Some(s.sessions[id].events[|s.sessions[id].events| - 1].kind) else None
  }

  /** A registered manifest of the pinned hash meets the requirement and has every instant of the
      pinned interval. */
  ghost predicate Backed(c: State, q: Requirement, p: Sessions.PinnedSetup) {
    exists k :: 0 <= k < |c.manifests| && c.manifests[k].hash == p.manifestHash && Eligible(c, c.manifests[k], q)
                && CoversInterval(c.manifests[k], p.playStart - p.warmup, Sessions.PlayEnd(p))
  }

  /** Against the catalog's own list, a committed setup is backed by its manifest, and a request
      is refused for its manifest exactly when no registered manifest of that hash is eligible. */
  lemma CommittedIsCovered(s: Sessions.Store, id: Text, principal: Text, expected: int, r: Sessions.SetupRequest,
                           c: State, instrument: Text, policy: Requirement, eligibilityHash: Text)
    ensures var q := RequirementOf(instrument, r, policy);
            var committed := Sessions.Commit(s, id, principal, expected, r, ListedHashes(EligibleSetups(c, q)), eligibilityHash);
            && (committed.Ok? ==>
                  var last := LastEvent(committed.value, id);
                  last.Some? && last.value.SessionCommitted? && Backed(c, q, last.value.setup))
            && (Sessions.NextVersion(expected).Ok? && r.tierAllowed ==>
                  ((committed == Err(Sessions.SetupIneligible) || committed == Err(Sessions.ManifestIneligible))
                   <==> forall k :: 0 <= k < |c.manifests| && c.manifests[k].hash == r.manifestHash
                                    ==> !Eligible(c, c.manifests[k], q)))
  {
    hide EligibleSetups, Eligible, Clear;
    var q := RequirementOf(instrument, r, policy);
    ListedIn(EligibleSetups(c, q), r.manifestHash);
    EligibleExactly(c, q, r.manifestHash);
    forall k | 0 <= k < |c.manifests| && Eligible(c, c.manifests[k], q)
      ensures CoversInterval(c.manifests[k], r.playStart - r.warmup, r.playStart + r.duration)
    {
      EligibleCovers(c, c.manifests[k], q);
    }
  }

  lemma EligibleCovers(c: State, m: Manifest, q: Requirement)
    requires Eligible(c, m, q)
    ensures CoversInterval(m, RequiredStart(q), RequiredEnd(q))
  {
    hide Clear;
    ClearMeans(m.gaps, RequiredStart(q), RequiredEnd(q));
  }
}
