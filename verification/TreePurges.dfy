/** When a failed manifest may be purged, and by whom, told by the events alone. */
module TreePurges {
  import opened Common
  import opened TreeDelta
  import opened TreeManifest
  import opened TreeStore
  import opened TreeProtocol
  import opened TreeResults
  import opened TreeLeases

  /** The manifest is frozen as failed. */
  predicate FailsManifest(w: Trace, f: nat, id: ManifestId)
    requires |w.states| == |w.events| + 1
  {
    && f < |w.events| && w.events[f].Fail? && w.events[f].seen.manifest == id
    && id in At(w, f).manifests && At(w, f).manifests[id].status == Staging
    && id in At(w, f + 1).manifests && At(w, f + 1).manifests[id].status == Failed
  }

  /** A purger's claim on the manifest is granted. */
  predicate ClaimsPurge(w: Trace, j: nat, id: ManifestId)
    requires |w.states| == |w.events| + 1
  {
    && j < |w.events| && w.events[j].StartPurge? && w.events[j].id == id
    && id in At(w, j).manifests && id in At(w, j + 1).manifests
    && At(w, j + 1).manifests[id] != At(w, j).manifests[id]
  }

  predicate NoClaimSince(w: Trace, j: nat, i: nat, id: ManifestId)
    requires |w.states| == |w.events| + 1
  {
    forall k :: j < k < i ==> !ClaimsPurge(w, k, id)
  }

  /** The manifest failed at `f`, and its last claim is the one granted at `j`. */
  predicate IsPurgeOf(w: Trace, f: nat, j: nat, i: nat, id: ManifestId)
    requires |w.states| == |w.events| + 1 && i < |w.states|
  {
    && f < j < i && FailsManifest(w, f, id) && ClaimsPurge(w, j, id) && NoClaimSince(w, j, i, id)
    && id in At(w, i).manifests
    && var m := At(w, i).manifests[id];
    && m.failedAt == ClockAt(w, f) && m.purgeToken == w.events[j].token
    && m.leaseUntil == ClockAt(w, j) + w.events[j].lease
  }

  predicate IsFailure(w: Trace, f: nat, i: nat, id: ManifestId)
    requires |w.states| == |w.events| + 1 && i < |w.states|
  {
    f < i && FailsManifest(w, f, id) && id in At(w, i).manifests && At(w, i).manifests[id].failedAt == ClockAt(w, f)
  }

  /** What an event may do to a manifest that has left collection. */
  ghost predicate PurgeRules(s: State, e: Event, m: Manifest, n: Manifest, id: ManifestId) {
    && n.failedAt == m.failedAt && n.status in {Failed, Purging, Purged}
    && (n.status == Failed || m.status == Purged ==> n == m)
    && (!(e.StartPurge? && e.id == id) ==> n.purgeToken == m.purgeToken && n.leaseUntil == m.leaseUntil)
    && (e.StartPurge? && e.id == id && n != m ==> MayTake(s, e, m) && n == Taken(s, e, m))
    && (n.entries != m.entries || (n.status == Purged && m.status != Purged) ==> IsHolder(s, e, m, id))
  }

  /** A claim is granted thirty days after the failure, when the next attempt is due and no lease is running. */
  predicate MayTake(s: State, e: Event, m: Manifest)
    requires e.StartPurge?
  {
    && s.clock >= m.failedAt + FAILED_RETENTION_MS
    && (m.nextAttemptAt.Some? ==> m.nextAttemptAt.value <= s.clock)
    && (m.status == Purging ==> m.leaseUntil <= s.clock)
  }

  function Taken(s: State, e: Event, m: Manifest): Manifest
    requires e.StartPurge?
  {
    m.(status := Purging, retentionVersion := m.retentionVersion + 1, retentionAttempt := m.retentionAttempt + 1,
       nextAttemptAt := Some(s.clock + e.lease), purgeToken := e.token, leaseUntil := s.clock + e.lease)
  }

  /** The event is sent under the token the manifest is held with, within its lease. */
  predicate IsHolder(s: State, e: Event, m: Manifest, id: ManifestId) {
    && ((e.DropChunk? && e.claim.manifest == id && e.claim.token == m.purgeToken)
        || (e.EndPurge? && e.claim.manifest == id && e.claim.token == m.purgeToken))
    && m.status == Purging && s.clock < m.leaseUntil
  }

  predicate HasLeft(m: Manifest) {
    m.status in {Failed, Purging, Purged}
  }

  lemma {:induction false} CollectionKeepsLeft(s: State, e: Event, id: ManifestId)
    requires e.Begin? || e.Persist? || e.Seal? || e.Fail?
    requires id in s.tables.manifests && HasLeft(s.tables.manifests[id])
    ensures id in Step(s, e).tables.manifests && Step(s, e).tables.manifests[id] == s.tables.manifests[id]
  {
  }

  lemma {:induction false} OthersKeepManifests(s: State, e: Event)
    requires !ChangesManifests(e)
    ensures Step(s, e).tables.manifests == s.tables.manifests
  {
  }

  lemma {:induction false} TakingKeepsRules(s: State, e: Event, id: ManifestId)
    requires e.StartPurge? && id in s.tables.manifests && HasLeft(s.tables.manifests[id])
    ensures id in Step(s, e).tables.manifests
    ensures PurgeRules(s, e, s.tables.manifests[id], Step(s, e).tables.manifests[id], id)
  {
  }

  /** A statement under a claim changes only the claim's manifest, and only while it is being purged. */
  predicate ChangesOnly(t: Tables, n: Tables, k: PurgeClaim) {
    && n.manifests.Keys == t.manifests.Keys
    && forall id :: id in t.manifests && n.manifests[id] != t.manifests[id] ==>
      id == k.manifest && t.manifests[id].status == Purging && t.manifests[id].purgeToken == k.token
  }

  lemma {:induction false} AllowedHolds(t: Tables, k: PurgeClaim, now: Time)
    requires PurgeAllowed(t, k, now)
    ensures k.manifest in t.manifests
    ensures var m := t.manifests[k.manifest]; m.status == Purging && m.purgeToken == k.token && now < m.leaseUntil
  {
  }

  lemma {:induction false} LogKeepsManifests(t: Tables, k: PurgeClaim, paths: set<Path>)
    requires k.manifest in t.manifests
    ensures LogChunk(t, k, paths).manifests == t.manifests
    ensures DropEntries(t, k, paths).manifests ==
      t.manifests[k.manifest := t.manifests[k.manifest].(entries := t.manifests[k.manifest].entries - paths)]
    ensures DropEntries(LogChunk(t, k, paths), k, paths).manifests == DropEntries(t, k, paths).manifests
  {
  }

  lemma {:induction false} ChunkManifests(t: Tables, k: PurgeClaim, paths: set<Path>, now: Time)
    ensures var n := PurgeChunk(t, k, paths, now);
      || n.manifests == t.manifests
      || (PurgeAllowed(t, k, now) && n.manifests == DropEntries(t, k, paths).manifests)
  {
    if PurgeAllowed(t, k, now) {
      AllowedHolds(t, k, now);
      LogKeepsManifests(t, k, paths);
    }
  }

  lemma {:induction false} ChunkRules(t: Tables, k: PurgeClaim, paths: set<Path>, now: Time)
    ensures var n := PurgeChunk(t, k, paths, now);
      && ChangesOnly(t, n, k)
      && (n.manifests != t.manifests ==>
           && k.manifest in t.manifests && k.manifest in n.manifests
           && var m, after := t.manifests[k.manifest], n.manifests[k.manifest];
           after == m.(entries := after.entries) && now < m.leaseUntil)
  {
    ChunkManifests(t, k, paths, now);
    if PurgeChunk(t, k, paths, now).manifests != t.manifests {
      AllowedHolds(t, k, now);
      LogKeepsManifests(t, k, paths);
    }
  }

  lemma {:induction false} FinishRules(t: Tables, k: PurgeClaim, now: Time)
    ensures var n := FinishPurge(t, k, now);
      && ChangesOnly(t, n, k)
      && (n.manifests != t.manifests ==>
           var m, after := t.manifests[k.manifest], n.manifests[k.manifest];
           && after.status == Purged && now < m.leaseUntil && after.failedAt == m.failedAt
           && after.purgeToken == m.purgeToken && after.leaseUntil == m.leaseUntil && after.entries == m.entries)
  {
  }

  lemma {:induction false} DeferRules(t: Tables, k: PurgeClaim, now: Time)
    ensures var n := DeferPurge(t, k, now);
      && ChangesOnly(t, n, k)
      && (n.manifests != t.manifests ==>
           var m, after := t.manifests[k.manifest], n.manifests[k.manifest];
           after == m.(nextAttemptAt := after.nextAttemptAt))
  {
  }

  lemma {:induction false} DropIs(s: State, e: Event)
    requires e.DropChunk?
    ensures Step(s, e).tables == s.tables || Step(s, e).tables == PurgeChunk(s.tables, e.claim, e.paths, s.clock)
  {
  }

  lemma {:induction false} EndIs(s: State, e: Event)
    requires e.EndPurge?
    ensures Step(s, e).tables == FinishPurge(s.tables, e.claim, s.clock)
  {
  }

  lemma {:induction false} DeferIs(s: State, e: Event)
    requires e.Defer?
    ensures Step(s, e).tables == DeferPurge(s.tables, e.claim, s.clock)
  {
  }

  /** What purgers without a new claim may have done. */
  ghost predicate IsPurgers(s: State, e: Event, n: Tables) {
    && (e.DropChunk? ==> n == s.tables || n == PurgeChunk(s.tables, e.claim, e.paths, s.clock))
    && (e.EndPurge? ==> n == FinishPurge(s.tables, e.claim, s.clock))
    && (e.Defer? ==> n == DeferPurge(s.tables, e.claim, s.clock))
  }

  lemma {:induction false} PurgersRules(s: State, e: Event, n: Tables)
    requires (e.DropChunk? || e.EndPurge? || e.Defer?) && IsPurgers(s, e, n)
    ensures ChangesOnly(s.tables, n, e.claim)
    ensures forall id :: id in s.tables.manifests && HasLeft(s.tables.manifests[id]) ==>
      PurgeRules(s, e, s.tables.manifests[id], n.manifests[id], id)
  {
    match e
    case DropChunk(k, paths) => ChunkRules(s.tables, k, paths, s.clock);
    case EndPurge(k) => FinishRules(s.tables, k, s.clock);
    case Defer(k) => DeferRules(s.tables, k, s.clock);
  }

  lemma {:induction false} StepIsPurgers(s: State, e: Event)
    requires e.DropChunk? || e.EndPurge? || e.Defer?
    ensures IsPurgers(s, e, Step(s, e).tables)
  {
    if e.DropChunk? {
      DropIs(s, e);
    } else if e.EndPurge? {
      EndIs(s, e);
    } else {
      DeferIs(s, e);
    }
  }

  lemma {:induction false} DroppingKeepsRules(s: State, e: Event, id: ManifestId)
    requires (e.DropChunk? || e.EndPurge? || e.Defer?) && id in s.tables.manifests && HasLeft(s.tables.manifests[id])
    ensures id in Step(s, e).tables.manifests
    ensures PurgeRules(s, e, s.tables.manifests[id], Step(s, e).tables.manifests[id], id)
  {
    StepIsPurgers(s, e);
    PurgersRules(s, e, Step(s, e).tables);
  }

  /** What is not being purged is left alone by purgers, unless it has failed and is claimed. */
  lemma {:induction false} PurgersLeaveOthers(s: State, e: Event)
    requires e.StartPurge? || e.DropChunk? || e.EndPurge? || e.Defer?
    ensures var t, n := s.tables.manifests, Step(s, e).tables.manifests;
      n.Keys == t.Keys && forall id :: id in t && !HasLeft(t[id]) ==> n[id] == t[id]
  {
    if e.StartPurge? {
      TakingLeavesOthers(s.tables, e.id, e.status, e.version, e.attempt, e.token, e.lease, s.clock);
    } else {
      StepIsPurgers(s, e);
      PurgersRules(s, e, Step(s, e).tables);
    }
  }

  lemma {:induction false} TakingLeavesOthers(t: Tables, id: ManifestId, status: Status, version: nat, attempt: nat,
    token: nat, lease: nat, now: Time)
    ensures var n := ClaimPurge(t, id, status, version, attempt, token, lease, now);
      && n.manifests.Keys == t.manifests.Keys
      && forall o :: o in t.manifests && (o != id || !HasLeft(t.manifests[o])) ==> n.manifests[o] == t.manifests[o]
  {
  }

  lemma {:induction false} ManifestStep(s: State, e: Event, id: ManifestId)
    requires id in s.tables.manifests && HasLeft(s.tables.manifests[id])
    ensures id in Step(s, e).tables.manifests
    ensures PurgeRules(s, e, s.tables.manifests[id], Step(s, e).tables.manifests[id], id)
  {
    if !ChangesManifests(e) {
      OthersKeepManifests(s, e);
    } else if e.StartPurge? {
      TakingKeepsRules(s, e, id);
    } else if e.DropChunk? || e.EndPurge? || e.Defer? {
      DroppingKeepsRules(s, e, id);
    } else {
      CollectionKeepsLeft(s, e, id);
    }
  }

  /** A manifest leaves collection for the purge only by failing, at that time. */
  lemma {:induction false} LeavingIsFailing(s: State, e: Event, id: ManifestId)
    requires id in Step(s, e).tables.manifests && HasLeft(Step(s, e).tables.manifests[id])
    requires id in s.tables.manifests ==> !HasLeft(s.tables.manifests[id])
    ensures e.Fail? && e.seen.manifest == id && id in s.tables.manifests && s.tables.manifests[id].status == Staging
    ensures Step(s, e).tables.manifests[id].status == Failed && Step(s, e).tables.manifests[id].failedAt == s.clock
  {
    if !ChangesManifests(e) {
      OthersKeepManifests(s, e);
    } else if e.StartPurge? || e.DropChunk? || e.EndPurge? || e.Defer? {
      PurgersLeaveOthers(s, e);
    }
  }

  lemma {:induction false} FailureKept(w: Trace, f: nat, i: nat, id: ManifestId)
    requires IsTrace(w) && i < |w.events| && IsFailure(w, f, i, id) && HasLeft(At(w, i).manifests[id])
    ensures IsFailure(w, f, i + 1, id)
  {
    assert IsStep(w, i);
    ManifestStep(w.states[i], w.events[i], id);
  }

  lemma {:induction false} LeftHasFailed(w: Trace, i: nat, id: ManifestId) returns (f: nat)
    requires IsTrace(w) && i < |w.states| && id in At(w, i).manifests && HasLeft(At(w, i).manifests[id])
    ensures IsFailure(w, f, i, id)
  {
    assert i > 0;
    if id in At(w, i - 1).manifests && HasLeft(At(w, i - 1).manifests[id]) {
      f := LeftHasFailed(w, i - 1, id);
      FailureKept(w, f, i - 1, id);
    } else {
      assert IsStep(w, i - 1);
      LeavingIsFailing(w.states[i - 1], w.events[i - 1], id);
      f := i - 1;
    }
  }

  lemma {:induction false} PurgeKept(w: Trace, f: nat, j: nat, i: nat, id: ManifestId)
    requires IsTrace(w) && i < |w.events| && IsPurgeOf(w, f, j, i, id) && HasLeft(At(w, i).manifests[id])
    requires !ClaimsPurge(w, i, id)
    ensures IsPurgeOf(w, f, j, i + 1, id)
  {
    assert IsStep(w, i);
    ManifestStep(w.states[i], w.events[i], id);
    assert NoClaimSince(w, j, i + 1, id);
  }

  lemma {:induction false} ClaimStarts(w: Trace, j: nat, id: ManifestId) returns (f: nat)
    requires IsTrace(w) && ClaimsPurge(w, j, id) && HasLeft(At(w, j).manifests[id])
    ensures IsPurgeOf(w, f, j, j + 1, id)
  {
    assert IsStep(w, j);
    ManifestStep(w.states[j], w.events[j], id);
    f := LeftHasFailed(w, j, id);
  }

  /** What is being purged was being purged before, unless it has just been claimed. */
  lemma {:induction false} WasPurging(w: Trace, i: nat, id: ManifestId)
    requires IsTrace(w) && i < |w.events| && id in At(w, i + 1).manifests
    requires At(w, i + 1).manifests[id].status == Purging
    ensures id in At(w, i).manifests && HasLeft(At(w, i).manifests[id])
    ensures At(w, i).manifests[id].status == Purging || ClaimsPurge(w, i, id)
  {
    assert IsStep(w, i);
    var s, e := w.states[i], w.events[i];
    if id !in s.tables.manifests || !HasLeft(s.tables.manifests[id]) {
      LeavingIsFailing(s, e, id);
    } else {
      StartsByClaim(s, e, id);
    }
  }

  lemma {:induction false} StartsByClaim(s: State, e: Event, id: ManifestId)
    requires id in s.tables.manifests && HasLeft(s.tables.manifests[id])
    requires id in Step(s, e).tables.manifests && Step(s, e).tables.manifests[id].status == Purging
    ensures s.tables.manifests[id].status == Purging || (e.StartPurge? && e.id == id)
  {
    if !ChangesManifests(e) {
      OthersKeepManifests(s, e);
    } else if e.DropChunk? {
      ChunkRules(s.tables, e.claim, e.paths, s.clock);
    } else if e.EndPurge? {
      FinishRules(s.tables, e.claim, s.clock);
    } else if e.Defer? {
      DeferRules(s.tables, e.claim, s.clock);
    } else if !e.StartPurge? {
      CollectionKeepsLeft(s, e, id);
    }
  }

  lemma {:induction false} PurgingHasClaim(w: Trace, i: nat, id: ManifestId) returns (f: nat, j: nat)
    requires IsTrace(w) && i < |w.states| && id in At(w, i).manifests && At(w, i).manifests[id].status == Purging
    ensures IsPurgeOf(w, f, j, i, id)
  {
    assert i > 0;
    WasPurging(w, i - 1, id);
    if ClaimsPurge(w, i - 1, id) {
      j := i - 1;
      f := ClaimStarts(w, j, id);
    } else {
      f, j := PurgingHasClaim(w, i - 1, id);
      PurgeKept(w, f, j, i - 1, id);
    }
  }

  /**
   An entry of a manifest that has left collection is dropped only by the holder of the last claim granted on it, within
   that claim's lease, and not before thirty days after the failure. So is the manifest declared purged.
   */
  lemma {:induction false} PurgeIsTimely(w: Trace, i: nat, id: ManifestId) returns (f: nat, j: nat)
    requires IsTrace(w) && i < |w.events| && id in At(w, i).manifests && HasLeft(At(w, i).manifests[id])
    requires var m, n := At(w, i).manifests[id], At(w, i + 1).manifests;
      id !in n || n[id].entries != m.entries || (n[id].status == Purged && m.status != Purged)
    ensures f < j < i && FailsManifest(w, f, id) && ClaimsPurge(w, j, id) && NoClaimSince(w, j, i, id)
    ensures ClockAt(w, j) >= ClockAt(w, f) + FAILED_RETENTION_MS
    ensures ClockAt(w, i) < ClockAt(w, j) + w.events[j].lease
    ensures var e := w.events[i];
      || (e.DropChunk? && e.claim.manifest == id && e.claim.token == w.events[j].token)
      || (e.EndPurge? && e.claim.manifest == id && e.claim.token == w.events[j].token)
  {
    assert IsStep(w, i);
    ManifestStep(w.states[i], w.events[i], id);
    f, j := PurgingHasClaim(w, i, id);
    assert IsStep(w, j);
    ClaimIsOnLeft(w, j, id);
    ManifestStep(w.states[j], w.events[j], id);
    var g := LeftHasFailed(w, j, id);
    FailsOnce(w, f, g, id);
  }

  lemma {:induction false} ClaimIsOnLeft(w: Trace, j: nat, id: ManifestId)
    requires IsTrace(w) && ClaimsPurge(w, j, id)
    ensures HasLeft(At(w, j).manifests[id])
  {
    assert IsStep(w, j);
  }

  lemma {:induction false} FailedStaysLeft(w: Trace, f: nat, i: nat, id: ManifestId)
    requires IsTrace(w) && FailsManifest(w, f, id) && f < i < |w.states|
    ensures id in At(w, i).manifests && HasLeft(At(w, i).manifests[id])
  {
    if i > f + 1 {
      FailedStaysLeft(w, f, i - 1, id);
      assert IsStep(w, i - 1);
      ManifestStep(w.states[i - 1], w.events[i - 1], id);
    }
  }

  lemma {:induction false} FailsOnce(w: Trace, f: nat, g: nat, id: ManifestId)
    requires IsTrace(w) && FailsManifest(w, f, id) && FailsManifest(w, g, id)
    ensures f == g
  {
    if f < g {
      FailedStaysLeft(w, f, g, id);
    } else if g < f {
      FailedStaysLeft(w, g, f, id);
    }
  }

  /** No purge claim is granted while another one's lease runs. */
  lemma {:induction false} PurgeClaimsExclude(w: Trace, j: nat, k: nat, id: ManifestId)
    requires IsTrace(w) && j < k && ClaimsPurge(w, j, id) && ClaimsPurge(w, k, id)
    ensures ClockAt(w, j) + w.events[j].lease <= ClockAt(w, k)
  {
    ClaimIsOnLeft(w, k, id);
    assert IsStep(w, k);
    ManifestStep(w.states[k], w.events[k], id);
    LeaseBefore(w, j, k, id);
  }

  /** The lease stored ends no earlier than the one granted at `j`. */
  predicate LeaseCovers(w: Trace, j: nat, i: nat, id: ManifestId)
    requires j < |w.events| && w.events[j].StartPurge? && j < |w.states| && i < |w.states|
  {
    && id in At(w, i).manifests
    && var m := At(w, i).manifests[id];
    && HasLeft(m) && m.status != Failed
    && (m.status == Purging ==> m.leaseUntil >= ClockAt(w, j) + w.events[j].lease)
  }

  lemma {:induction false} LeaseStarts(w: Trace, j: nat, id: ManifestId)
    requires IsTrace(w) && ClaimsPurge(w, j, id)
    ensures LeaseCovers(w, j, j + 1, id)
  {
    ClaimIsOnLeft(w, j, id);
    assert IsStep(w, j);
    ManifestStep(w.states[j], w.events[j], id);
  }

  lemma {:induction false} LeaseKept(w: Trace, j: nat, i: nat, id: ManifestId)
    requires IsTrace(w) && j < i < |w.events| && w.events[j].StartPurge? && LeaseCovers(w, j, i, id)
    ensures LeaseCovers(w, j, i + 1, id)
  {
    assert IsStep(w, i);
    ManifestStep(w.states[i], w.events[i], id);
    LeaseGrows(w.states[i], w.events[i], At(w, i).manifests[id], At(w, i + 1).manifests[id], id);
  }

  lemma {:induction false} LeaseBefore(w: Trace, j: nat, i: nat, id: ManifestId)
    requires IsTrace(w) && j < i < |w.states| && ClaimsPurge(w, j, id)
    ensures LeaseCovers(w, j, i, id)
  {
    if i == j + 1 {
      LeaseStarts(w, j, id);
    } else {
      LeaseBefore(w, j, i - 1, id);
      LeaseKept(w, j, i - 1, id);
    }
  }

  lemma {:induction false} LeaseGrows(s: State, e: Event, m: Manifest, n: Manifest, id: ManifestId)
    requires HasLeft(m) && PurgeRules(s, e, m, n, id)
    ensures HasLeft(n) && (m.status != Failed ==> n.status != Failed)
    ensures m.status == Purging && n.status == Purging ==> n.leaseUntil >= m.leaseUntil
    ensures e.StartPurge? && e.id == id && n != m ==> n.status == Purging && n.leaseUntil == s.clock + e.lease
    ensures m.status == Purged ==> n.status == Purged
  {
  }
}
