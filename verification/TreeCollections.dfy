/** Exactly when a manifest begins, fills, completes, fails, and is purged, in every run. */
module TreeCollections {
  import opened Common
  import opened TreeDelta
  import opened TreeManifest
  import opened TreeStore
  import opened TreeProtocol
  import opened TreeResults
  import opened TreeLeases

  /** Only this manifest is different, and it is as given. */
  predicate Becomes(t: Tables, n: Tables, id: ManifestId, m: Manifest) {
    n == t.(manifests := t.manifests[id := m])
  }

  // ----- Collection

  /** A manifest begins, empty, exactly if neither its identifier nor its collection key is taken. */
  lemma {:induction false} BeginsIff(w: Trace, i: nat)
    requires IsTrace(w) && i < |w.events| && w.events[i].Begin?
    ensures var e := w.events[i]; var t, n := At(w, i), At(w, i + 1);
      if e.id !in t.manifests && forall o :: o in t.manifests ==> t.manifests[o].collectionKey != e.key
      then Becomes(t, n, e.id, Manifest(
             e.sha, e.key, e.defaultBranch, Staging, map[], 0, map[], 0, 0, 0, None, 0, 0))
      else n == t
  {
    assert IsStep(w, i);
  }

  /** Entries are added to a manifest that is still being collected; an entry once stored is never replaced. */
  lemma {:induction false} PersistAdds(w: Trace, i: nat)
    requires IsTrace(w) && i < |w.events| && w.events[i].Persist?
    ensures var e := w.events[i]; var t, n := At(w, i), At(w, i + 1);
      if e.id in t.manifests && t.manifests[e.id].status == Staging
      then
        && e.id in n.manifests && Becomes(t, n, e.id, t.manifests[e.id].(entries := n.manifests[e.id].entries))
        && (forall p :: p in n.manifests[e.id].entries <==> p in t.manifests[e.id].entries || p in e.rows)
        && (forall p :: p in n.manifests[e.id].entries ==>
              n.manifests[e.id].entries[p] ==
                if p in t.manifests[e.id].entries then t.manifests[e.id].entries[p] else e.rows[p])
      else n == t
  {
    assert IsStep(w, i);
  }

  /** Somebody has read exactly this back from the manifest before. */
  predicate WasRead(w: Trace, i: nat, seen: Seen)
    requires |w.states| == |w.events| + 1 && i < |w.states|
  {
    exists j :: 0 <= j < i && w.events[j] == Read(seen) && seen.manifest in At(w, j).manifests
      && IsSubmap(seen.entries, At(w, j).manifests[seen.manifest].entries)
  }

  lemma {:induction false} SeenWasRead(w: Trace, i: nat, seen: Seen)
    requires IsTrace(w) && i < |w.states|
    ensures seen in w.states[i].seenSoFar <==> WasRead(w, i, seen)
  {
    if i > 0 {
      SeenWasRead(w, i - 1, seen);
      assert IsStep(w, i - 1);
    } else {
      var repository, cursor :| w.states[0] == Init(repository, cursor);
    }
  }

  /** What was read is all that is stored: nothing has been added since. */
  predicate IsWhole(t: Tables, seen: Seen) {
    && seen.manifest in t.manifests && t.manifests[seen.manifest].status == Staging
    && seen.entries == t.manifests[seen.manifest].entries
  }

  lemma {:induction false} WholeIffCounted(s: State, seen: Seen)
    requires Inv(s) && seen in s.seenSoFar
    ensures IsWhole(s.tables, seen) <==>
      IsStaging(s.tables, seen.manifest) && |seen.entries| == |s.tables.manifests[seen.manifest].entries|
  {
    if IsStaging(s.tables, seen.manifest) && |seen.entries| == |s.tables.manifests[seen.manifest].entries| {
      EqualCountsMeanEqual(seen.entries, s.tables.manifests[seen.manifest].entries);
    }
  }

  /**
   A manifest becomes complete exactly if somebody has read it, nothing was added since, and no entry is partial; what
   is frozen then is what is stored, although only the numbers are compared.
   */
  lemma {:induction false} SealsIff(w: Trace, i: nat)
    requires IsTrace(w) && i < |w.events| && w.events[i].Seal?
    ensures var seen := w.events[i].seen; var t, n := At(w, i), At(w, i + 1);
      if && WasRead(w, i, seen) && IsWhole(t, seen)
         && forall p :: p in seen.entries ==> seen.entries[p].disposition != Partial
      then Becomes(t, n, seen.manifest, t.manifests[seen.manifest].(
             status := Complete, entryCount := |seen.entries|, frozen := t.manifests[seen.manifest].entries))
      else n == t
  {
    TraceKeepsInv(w, i);
    assert IsStep(w, i);
    var seen := w.events[i].seen;
    SeenWasRead(w, i, seen);
    if WasRead(w, i, seen) {
      WholeIffCounted(w.states[i], seen);
    }
  }

  /** A manifest fails exactly if somebody has read it and nothing was added since. */
  lemma {:induction false} FailsIff(w: Trace, i: nat)
    requires IsTrace(w) && i < |w.events| && w.events[i].Fail?
    ensures var seen := w.events[i].seen; var t, n := At(w, i), At(w, i + 1);
      if WasRead(w, i, seen) && IsWhole(t, seen)
      then Becomes(t, n, seen.manifest, t.manifests[seen.manifest].(
             status := Failed, entryCount := |seen.entries|, frozen := t.manifests[seen.manifest].entries,
             failedAt := ClockAt(w, i)))
      else n == t
  {
    TraceKeepsInv(w, i);
    assert IsStep(w, i);
    var seen := w.events[i].seen;
    SeenWasRead(w, i, seen);
    if WasRead(w, i, seen) {
      WholeIffCounted(w.states[i], seen);
    }
  }

  // ----- Purge

  /** Neither the head nor the log of changes refers to the manifest. */
  predicate IsUnused(t: Tables, id: ManifestId) {
    && (t.head.Some? ==> t.head.value.manifest != id)
    && forall d :: d in t.deltas ==> t.deltas[d].prior != Some(id) && t.deltas[d].next != id
  }

  /**
   A purge is claimed exactly if the manifest is still in the state the claimer read, failed thirty days ago or earlier,
   is due, not held by anybody, and unused, and the lease asked for is half an hour or less.
   */
  lemma {:induction false} TakesIff(w: Trace, i: nat)
    requires IsTrace(w) && i < |w.events| && w.events[i].StartPurge?
    ensures var e, now := w.events[i], ClockAt(w, i); var t, n := At(w, i), At(w, i + 1);
      if && e.id in t.manifests
         && var m := t.manifests[e.id];
            && m.status == e.status && m.retentionVersion == e.version && m.retentionAttempt == e.attempt
            && (m.status == Failed || (m.status == Purging && m.leaseUntil <= now))
            && m.failedAt + 30 * 86_400_000 <= now
            && (m.nextAttemptAt.Some? ==> m.nextAttemptAt.value <= now)
            && IsUnused(t, e.id) && 0 < e.lease <= 30 * 60_000
      then Becomes(t, n, e.id, t.manifests[e.id].(
             status := Purging, retentionVersion := e.version + 1, retentionAttempt := e.attempt + 1,
             nextAttemptAt := Some(now + e.lease), purgeToken := e.token, leaseUntil := now + e.lease))
      else n == t
  {
    TakesUnder(w.states[i], w.events[i]);
    assert IsStep(w, i);
  }

  lemma {:induction false} UnusedIffUnreferenced(t: Tables, id: ManifestId)
    ensures IsUnused(t, id) <==> Unreferenced(t, id)
  {
  }

  lemma {:induction false} TakesUnder(s: State, e: Event)
    requires e.StartPurge?
    ensures MayClaimPurge(s.tables, e.id, e.status, e.version, e.attempt, s.clock) <==>
      && e.id in s.tables.manifests
      && var m := s.tables.manifests[e.id];
      && m.status == e.status && m.retentionVersion == e.version && m.retentionAttempt == e.attempt
      && (m.status == Failed || (m.status == Purging && m.leaseUntil <= s.clock))
      && m.failedAt + 30 * 86_400_000 <= s.clock
      && (m.nextAttemptAt.Some? ==> m.nextAttemptAt.value <= s.clock)
      && IsUnused(s.tables, e.id)
  {
    UnusedIffUnreferenced(s.tables, e.id);
  }

  /** The claim is the one the manifest is held under, and its lease has not ended. */
  predicate IsHeldUnder(t: Tables, k: PurgeClaim, now: Time) {
    && k.manifest in t.manifests
    && var m := t.manifests[k.manifest];
       && m.status == Purging && m.purgeToken == k.token && m.retentionVersion == k.version
       && m.retentionAttempt == k.attempt && now < m.leaseUntil && m.failedAt + 30 * 86_400_000 <= now
  }

  lemma {:induction false} AllowedIffHeld(t: Tables, k: PurgeClaim, now: Time)
    ensures PurgeAllowed(t, k, now) <==> IsHeldUnder(t, k, now) && IsUnused(t, k.manifest)
  {
    UnusedIffUnreferenced(t, k.manifest);
  }

  /** A chunk is logged and dropped exactly if its claim holds, the manifest is unused, and all its paths are there. */
  lemma {:induction false} DropsIff(w: Trace, i: nat)
    requires IsTrace(w) && i < |w.events| && w.events[i].DropChunk?
    ensures var k, paths := w.events[i].claim, w.events[i].paths; var t, n := At(w, i), At(w, i + 1);
      if && 1 <= |paths| <= 500 && IsHeldUnder(t, k, ClockAt(w, i)) && IsUnused(t, k.manifest)
         && forall p :: p in paths ==> p in t.manifests[k.manifest].entries
      then n == t.(
        manifests := t.manifests[k.manifest :=
          t.manifests[k.manifest].(entries := t.manifests[k.manifest].entries - paths)],
        chunks := t.chunks + [PurgedChunk(k.manifest, k.version, paths)])
      else n == t
  {
    TraceKeepsInv(w, i);
    assert IsStep(w, i);
    var k := w.events[i].claim;
    AllowedIffHeld(At(w, i), k, ClockAt(w, i));
    if 1 <= |w.events[i].paths| <= 500 {
      ChunkIsAllOrNothing(At(w, i), k, w.events[i].paths, ClockAt(w, i));
    }
  }

  /** A manifest is purged exactly if its claim holds, it is unused, and no entry is left. */
  lemma {:induction false} EndsIff(w: Trace, i: nat)
    requires IsTrace(w) && i < |w.events| && w.events[i].EndPurge?
    ensures var k := w.events[i].claim; var t, n := At(w, i), At(w, i + 1);
      if && IsHeldUnder(t, k, ClockAt(w, i)) && IsUnused(t, k.manifest)
         && t.manifests[k.manifest].entries == map[]
      then Becomes(t, n, k.manifest, t.manifests[k.manifest].(
             status := Purged, retentionVersion := k.version + 1, nextAttemptAt := None))
      else n == t
  {
    assert IsStep(w, i);
    AllowedIffHeld(At(w, i), w.events[i].claim, ClockAt(w, i));
  }

  /** Twelve hours after the first attempt, twice as long after each further one, seven days from the fifth on. */
  function Delay(attempt: nat): nat {
    var hour := 3_600_000;
    if attempt <= 1 then 12 * hour
    else if attempt == 2 then 24 * hour
    else if attempt == 3 then 48 * hour
    else if attempt == 4 then 96 * hour
    else 7 * 24 * hour
  }

  lemma {:induction false} DoubledGrows(n: nat, a: nat, b: nat)
    requires a <= b
    ensures Doubled(n, a) <= Doubled(n, b)
  {
    if a < b {
      DoubledGrows(n, a, b - 1);
    }
  }

  lemma {:induction false} BackoffIsDelay(attempt: nat)
    ensures Backoff(attempt) == Delay(attempt)
  {
    var n := BACKOFF_BASE_MS;
    assert Doubled(n, 1) == 2 * Doubled(n, 0) && Doubled(n, 2) == 2 * Doubled(n, 1);
    assert Doubled(n, 3) == 2 * Doubled(n, 2) && Doubled(n, 4) == 2 * Doubled(n, 3);
    if attempt > 4 {
      DoubledGrows(n, 4, if attempt > 11 then 10 else attempt - 1);
    }
  }

  /**
   A purge is put off only under the claim its manifest is held with, even after its lease has ended, and only if that
   makes it later.
   */
  lemma {:induction false} DefersIff(w: Trace, i: nat)
    requires IsTrace(w) && i < |w.events| && w.events[i].Defer?
    ensures var k := w.events[i].claim; var t, n, until := At(w, i), At(w, i + 1), ClockAt(w, i) + Delay(k.attempt);
      if && k.manifest in t.manifests
         && var m := t.manifests[k.manifest];
            && m.status == Purging && m.purgeToken == k.token && m.retentionVersion == k.version
            && m.retentionAttempt == k.attempt && m.nextAttemptAt.Some? && m.nextAttemptAt.value < until
      then Becomes(t, n, k.manifest, t.manifests[k.manifest].(nextAttemptAt := Some(until)))
      else n == t
  {
    assert IsStep(w, i);
    BackoffIsDelay(w.events[i].claim.attempt);
  }
}
