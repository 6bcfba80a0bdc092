/** When a run may be claimed and its activation may commit, told by the events alone. */
module TreeLeases {
  import opened Common
  import opened TreeDelta
  import opened TreeManifest
  import opened TreeStore
  import opened TreeProtocol
  import opened TreeResults

  /** A run, with the state before each event and after the last. */
  datatype Trace = Trace(states: seq<State>, events: seq<Event>)

  ghost predicate IsStep(w: Trace, i: nat) {
    i + 1 < |w.states| && i < |w.events| && w.states[i + 1] == Step(w.states[i], w.events[i])
  }

  ghost predicate IsStart(s: State) {
    exists repository, cursor :: s == Init(repository, cursor)
  }

  ghost predicate IsTrace(w: Trace) {
    && |w.states| == |w.events| + 1 && IsStart(w.states[0])
    && forall i {:trigger IsStep(w, i)} :: 0 <= i < |w.events| ==> IsStep(w, i)
  }

  /** Every run is a trace, so what holds of traces holds of all runs. */
  lemma {:induction false} RunIsTrace(repository: Repository, cursor: Cursor, events: seq<Event>) returns (w: Trace)
    ensures IsTrace(w) && w.events == events
    ensures forall i :: 0 <= i <= |events| ==> w.states[i] == Run(Init(repository, cursor), events[..i])
  {
    if events == [] {
      w := Trace([Init(repository, cursor)], []);
      assert IsStart(w.states[0]);
    } else {
      var n := |events| - 1;
      var front := RunIsTrace(repository, cursor, events[..n]);
      var last := Step(front.states[n], events[n]);
      w := Trace(front.states + [last], events);
      assert forall i :: 0 <= i <= n ==> w.states[i] == front.states[i] && events[..n][..i] == events[..i];
      forall i | 0 <= i < |events| ensures IsStep(w, i) {
        assert i < n ==> IsStep(front, i);
      }
      assert events[..|events|] == events;
    }
  }

  lemma {:induction false} TraceKeepsInv(w: Trace, i: nat)
    requires IsTrace(w) && i < |w.states|
    ensures Inv(w.states[i])
  {
    if i == 0 {
      var repository, cursor :| w.states[0] == Init(repository, cursor);
      RunsKeepInv(repository, cursor, []);
    } else {
      TraceKeepsInv(w, i - 1);
      assert IsStep(w, i - 1);
      StepKeepsInv(w.states[i - 1], w.events[i - 1]);
    }
  }

  function At(w: Trace, i: nat): Tables
    requires i < |w.states|
  {
    w.states[i].tables
  }

  function ClockAt(w: Trace, i: nat): Time
    requires i < |w.states|
  {
    w.states[i].clock
  }

  /** An activation committed. */
  predicate MovesHead(w: Trace, i: nat)
    requires |w.states| == |w.events| + 1
  {
    i < |w.events| && w.events[i].Activate? && At(w, i + 1).head != At(w, i).head
  }

  /** A run was claimed. */
  predicate ClaimsRun(w: Trace, j: nat)
    requires |w.states| == |w.events| + 1
  {
    && j < |w.events| && w.events[j].ClaimRun?
    && w.events[j].run !in At(w, j).runs && w.events[j].run in At(w, j + 1).runs
  }

  /** The event ends the run: its activation commits, or it is abandoned. */
  predicate EndsRun(w: Trace, k: nat, run: RunId)
    requires |w.states| == |w.events| + 1
  {
    && k < |w.events|
    && (w.events[k] == AbandonRun(run) || (MovesHead(w, k) && w.events[k].request.run == run))
  }

  predicate IsUnended(w: Trace, j: nat, i: nat, run: RunId)
    requires |w.states| == |w.events| + 1
  {
    forall k :: j < k < i ==> !EndsRun(w, k, run)
  }

  /** The run as it is stored by its claim. */
  function ClaimedRun(w: Trace, j: nat): SyncRun
    requires |w.states| == |w.events| + 1 && ClaimsRun(w, j)
  {
    SyncRun(
      Running, At(w, j).head, w.events[j].scheduledFor, w.events[j].full,
      At(w, j).repository.configurationVersion, At(w, j).cursor.version, ClockAt(w, j) + w.events[j].lease, None)
  }

  /** The stored run is the one claimed at `j`, and runs on until an event ends it. */
  predicate IsRecordOf(w: Trace, j: nat, i: nat, run: RunId)
    requires |w.states| == |w.events| + 1 && i < |w.states|
  {
    && j < i && ClaimsRun(w, j) && w.events[j].run == run && run in At(w, i).runs
    && SameClaim(ClaimedRun(w, j), At(w, i).runs[run])
    && (At(w, i).runs[run].status == Running <==> IsUnended(w, j, i, run))
  }

  predicate SameClaim(c: SyncRun, r: SyncRun) {
    r == c.(status := r.status, completedAt := r.completedAt) && (r.status == Running ==> r.completedAt == None)
  }

  lemma {:induction false} MovesIffMay(s: State, e: Event)
    requires Inv(s) && e.Activate?
    ensures Step(s, e).tables.head != s.tables.head <==> MayActivate(s.tables, e.request, s.clock)
  {
    if MayActivate(s.tables, e.request, s.clock) {
      StepRaisesVersion(s, e);
    }
  }

  lemma {:induction false} CollectingKeepsRuns(s: State, e: Event)
    requires e.Begin? || e.Persist? || e.Read? || e.Seal? || e.Fail? || e.Tick?
    ensures Step(s, e).tables.runs == s.tables.runs
  {
  }

  lemma {:induction false} PurgingKeepsRuns(s: State, e: Event)
    requires e.StartPurge? || e.DropChunk? || e.EndPurge? || e.Defer?
    ensures Step(s, e).tables.runs == s.tables.runs
  {
  }

  lemma {:induction false} QuietRuns(s: State, e: Event)
    requires !e.ClaimRun? && !e.AbandonRun? && !e.Activate?
    ensures Step(s, e).tables.runs == s.tables.runs
  {
    if e.StartPurge? || e.DropChunk? || e.EndPurge? || e.Defer? {
      PurgingKeepsRuns(s, e);
    } else if e.Begin? || e.Persist? || e.Read? || e.Seal? || e.Fail? || e.Tick? {
      CollectingKeepsRuns(s, e);
    }
  }

  lemma {:induction false} ActivationRuns(s: State, e: Event)
    requires Inv(s) && e.Activate?
    ensures Step(s, e).tables.head == s.tables.head ==> Step(s, e).tables.runs == s.tables.runs
    ensures Step(s, e).tables.head != s.tables.head ==>
      && e.request.run in s.tables.runs && s.tables.runs[e.request.run].status == Running
      && Step(s, e).tables.runs == s.tables.runs[e.request.run :=
           s.tables.runs[e.request.run].(status := Finished, completedAt := Some(e.at))]
  {
    MovesIffMay(s, e);
  }

  /** Whether the event ends the run. */
  ghost predicate Ends(s: State, e: Event, run: RunId) {
    e == AbandonRun(run) || (e.Activate? && e.request.run == run && Step(s, e).tables.head != s.tables.head)
  }

  /** What one event does to one stored run. */
  lemma {:induction false} RunStep(s: State, e: Event, run: RunId)
    requires Inv(s) && run in s.tables.runs
    ensures run in Step(s, e).tables.runs
    ensures var r, n := s.tables.runs[run], Step(s, e).tables.runs[run];
      && n == r.(status := n.status, completedAt := n.completedAt)
      && (n.status == Running <==> r.status == Running && !Ends(s, e, run))
      && (n.status == Running ==> n == r)
  {
    if e.Activate? {
      ActivationRuns(s, e);
    } else if !e.ClaimRun? && !e.AbandonRun? {
      QuietRuns(s, e);
    }
  }

  lemma {:induction false} ClaimRecords(w: Trace, j: nat)
    requires IsTrace(w) && ClaimsRun(w, j)
    ensures IsRecordOf(w, j, j + 1, w.events[j].run)
  {
    assert IsStep(w, j);
  }

  lemma {:induction false} RecordKept(w: Trace, j: nat, i: nat, run: RunId)
    requires IsTrace(w) && i < |w.events| && IsRecordOf(w, j, i, run)
    ensures IsRecordOf(w, j, i + 1, run)
  {
    TraceKeepsInv(w, i);
    assert IsStep(w, i);
    RunStep(w.states[i], w.events[i], run);
    assert EndsRun(w, i, run) <==> Ends(w.states[i], w.events[i], run);
    assert IsUnended(w, j, i + 1, run) <==> IsUnended(w, j, i, run) && !EndsRun(w, i, run);
  }

  lemma {:induction false} NewRunIsClaimed(w: Trace, i: nat, run: RunId)
    requires IsTrace(w) && i < |w.events| && run !in At(w, i).runs && run in At(w, i + 1).runs
    ensures ClaimsRun(w, i) && w.events[i].run == run
  {
    TraceKeepsInv(w, i);
    assert IsStep(w, i);
    var s, e := w.states[i], w.events[i];
    if e.Activate? {
      ActivationRuns(s, e);
    } else if !e.ClaimRun? && !e.AbandonRun? {
      QuietRuns(s, e);
    }
  }

  /** Every stored run is as it was claimed, and runs on until an event ends it. */
  lemma {:induction false} RunHasClaim(w: Trace, i: nat, run: RunId) returns (j: nat)
    requires IsTrace(w) && i < |w.states| && run in At(w, i).runs
    ensures IsRecordOf(w, j, i, run)
  {
    assert i > 0;
    if run in At(w, i - 1).runs {
      j := RunHasClaim(w, i - 1, run);
      RecordKept(w, j, i - 1, run);
    } else {
      NewRunIsClaimed(w, i - 1, run);
      j := i - 1;
      ClaimRecords(w, j);
    }
  }

  lemma {:induction false} ClaimStays(w: Trace, j: nat, i: nat)
    requires IsTrace(w) && j < i < |w.states| && ClaimsRun(w, j)
    ensures IsRecordOf(w, j, i, w.events[j].run)
  {
    if i == j + 1 {
      ClaimRecords(w, j);
    } else {
      ClaimStays(w, j, i - 1);
      RecordKept(w, j, i - 1, w.events[j].run);
    }
  }

  // ----- When an activation commits

  /** The request's run was claimed at `j`, its lease still runs, it was not ended, and nothing it read has moved. */
  ghost predicate ClaimHolds(w: Trace, j: nat, i: nat, q: Request)
    requires |w.states| == |w.events| + 1 && i < |w.states|
  {
    && j < i && ClaimsRun(w, j) && w.events[j].run == q.run && IsUnended(w, j, i, q.run)
    && ClockAt(w, i) < ClockAt(w, j) + w.events[j].lease
    && w.events[j].scheduledFor == q.scheduledFor && w.events[j].full == q.full
    && At(w, i).head == At(w, j).head == q.expectedHead
    && At(w, i).repository.configurationVersion == At(w, j).repository.configurationVersion
    && At(w, i).cursor.version == At(w, j).cursor.version
  }

  /** What the request says of repository and cursor is so, and the cursor is not paused. */
  ghost predicate ReadsAreCurrent(t: Tables, q: Request) {
    && t.repository.enabled && t.repository.identity == q.identity
    && t.repository.configurationVersion == q.configurationVersion && t.repository.updatedAt == q.repositoryUpdatedAt
    && t.cursor.observedSha == q.cursorSha && t.cursor.status == q.cursorStatus && t.cursor.status != Paused
    && t.cursor.updatedAt == q.cursorUpdatedAt && t.cursor.version == q.cursorVersion
  }

  /** The manifest is complete, of this collection and commit, of a ref that is followed, and not the head's already. */
  ghost predicate ManifestIsReady(t: Tables, q: Request) {
    && q.manifest in t.manifests
    && var m := t.manifests[q.manifest];
    && m.status == Complete && m.collectionKey == q.scheduledFor && m.observedSha == q.observedSha
    && m.defaultBranch == q.defaultBranch
    && (m.defaultBranch ==> t.repository.refIsDefault) && (!m.defaultBranch ==> t.repository.refIsTracked)
    && !(t.head.Some? && t.head.value.manifest == q.manifest)
  }

  /**
   An activation commits if and only if its run's claim holds, what it read is current, its manifest is ready, and its
   event is not recorded with another payload.
   */
  lemma {:induction false} CommitsIffClaimHolds(w: Trace, i: nat)
    requires IsTrace(w) && i < |w.events| && w.events[i].Activate?
    ensures var q := w.events[i].request; var t := At(w, i);
      MovesHead(w, i) <==>
        && (exists j: nat :: ClaimHolds(w, j, i, q))
        && ReadsAreCurrent(t, q) && ManifestIsReady(t, q)
        && (q.event in t.outbox ==> t.outbox[q.event] == q.payload)
  {
    var q, t := w.events[i].request, At(w, i);
    TraceKeepsInv(w, i);
    assert IsStep(w, i);
    MovesIffMay(w.states[i], w.events[i]);
    if q.run in t.runs {
      var j := RunHasClaim(w, i, q.run);
      if MovesHead(w, i) {
        assert ClaimHolds(w, j, i, q);
      }
    }
    if j: nat :| ClaimHolds(w, j, i, q) {
      ClaimStays(w, j, i);
    }
  }

  /**
   A run is claimed if and only if neither the run nor its schedule was claimed before, and every run claimed before
   has ended or outlived its lease.
   */
  lemma {:induction false} ClaimsIffNoneLives(w: Trace, k: nat)
    requires IsTrace(w) && k < |w.events| && w.events[k].ClaimRun?
    ensures ClaimsRun(w, k) <==>
      forall j: nat :: j < k && ClaimsRun(w, j) ==>
        && w.events[j].run != w.events[k].run && w.events[j].scheduledFor != w.events[k].scheduledFor
        && (!IsUnended(w, j, k, w.events[j].run) || ClockAt(w, j) + w.events[j].lease <= ClockAt(w, k))
  {
    var e, t := w.events[k], At(w, k);
    TraceKeepsInv(w, k);
    assert IsStep(w, k);
    assert ClaimsRun(w, k) <==> MayClaim(t, e, ClockAt(w, k));
    if ClaimsRun(w, k) {
      forall j: nat | j < k && ClaimsRun(w, j)
        ensures w.events[j].run != e.run && w.events[j].scheduledFor != e.scheduledFor
        ensures !IsUnended(w, j, k, w.events[j].run) || ClockAt(w, j) + w.events[j].lease <= ClockAt(w, k)
      {
        ClaimStays(w, j, k);
      }
    } else {
      var j := ClaimIsRefusedFor(w, k);
    }
  }

  /** A refused claim meets an earlier one that stands in its way. */
  lemma {:induction false} ClaimIsRefusedFor(w: Trace, k: nat) returns (j: nat)
    requires IsTrace(w) && k < |w.events| && w.events[k].ClaimRun? && !MayClaim(At(w, k), w.events[k], ClockAt(w, k))
    ensures j < k && ClaimsRun(w, j)
    ensures || w.events[j].run == w.events[k].run || w.events[j].scheduledFor == w.events[k].scheduledFor
      || (IsUnended(w, j, k, w.events[j].run) && ClockAt(w, j) + w.events[j].lease > ClockAt(w, k))
  {
    var e, t := w.events[k], At(w, k);
    var run: RunId;
    if e.run in t.runs {
      run := e.run;
    } else if r :| r in t.runs && t.runs[r].scheduledFor == e.scheduledFor {
      run := r;
    } else {
      run :| run in t.runs && t.runs[run].status == Running && t.runs[run].leaseExpiresAt > ClockAt(w, k);
    }
    j := RunHasClaim(w, k, run);
  }

  lemma {:induction false} ClockGrows(w: Trace, i: nat, j: nat)
    requires IsTrace(w) && i <= j < |w.states|
    ensures ClockAt(w, i) <= ClockAt(w, j)
  {
    if i < j {
      ClockGrows(w, i, j - 1);
      assert IsStep(w, j - 1);
    }
  }

  /** Once a later run has been claimed, the earlier one never commits. */
  lemma {:induction false} LaterClaimEndsEarlier(w: Trace, j: nat, k: nat, i: nat)
    requires IsTrace(w) && j < k < i < |w.events| && ClaimsRun(w, j) && ClaimsRun(w, k)
    requires w.events[i].Activate? && w.events[i].request.run == w.events[j].run
    ensures !MovesHead(w, i)
  {
    ClaimsIffNoneLives(w, k);
    ClockGrows(w, k, i);
    CommitsIffClaimHolds(w, i);
    if MovesHead(w, i) {
      var other: nat :| ClaimHolds(w, other, i, w.events[i].request);
      OneClaimPerRun(w, j, other);
    }
  }

  lemma {:induction false} OneClaimPerRun(w: Trace, j: nat, k: nat)
    requires IsTrace(w) && ClaimsRun(w, j) && ClaimsRun(w, k) && w.events[j].run == w.events[k].run
    ensures j == k
  {
    if j < k {
      ClaimStays(w, j, k);
    } else if k < j {
      ClaimStays(w, k, j);
    }
  }

  // ----- What a commit records

  /** The cursor after a commit: the commit observed, the run's schedule as last sync, and the next one as asked for. */
  lemma {:induction false} CommitRecords(w: Trace, i: nat)
    requires IsTrace(w) && MovesHead(w, i)
    ensures var q, at := w.events[i].request, w.events[i].at; var t, n := At(w, i), At(w, i + 1);
      && q.manifest in t.manifests
      && n.cursor.observedSha == Some(t.manifests[q.manifest].observedSha) && n.cursor.status == Observed
      && n.cursor.updatedAt == at && n.cursor.version == t.cursor.version + 1
      && n.cursor.detail.lastSyncAt == Some(t.manifests[q.manifest].collectionKey)
      && n.cursor.detail.nextSyncAt == Some(q.nextSyncAt)
      && n.cursor.detail.historyGap == q.historyGap && n.cursor.detail.expiring == q.expiring
      && n.cursor.detail.etag == q.etag && n.cursor.detail.error == None
      && q.run in n.runs && n.runs[q.run].status == Finished && n.runs[q.run].completedAt == Some(at)
      && (forall r :: r != q.run ==> (r in n.runs <==> r in t.runs) && (r in t.runs ==> n.runs[r] == t.runs[r]))
      && q.event in n.outbox && n.outbox[q.event] == q.payload
      && (forall o :: o != q.event ==>
        (o in n.outbox <==> o in t.outbox) && (o in t.outbox ==> n.outbox[o] == t.outbox[o]))
      && n.manifests == t.manifests && n.repository == t.repository && n.chunks == t.chunks
  {
    TraceKeepsInv(w, i);
    assert IsStep(w, i);
    MovesIffMay(w.states[i], w.events[i]);
  }
}
