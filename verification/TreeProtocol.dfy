/**
 Every interleaving of the workers on one repository ref: collectors, claimers, activators, purgers, and the
 administrators who change the repository, its cursor or its outbox under them.
 */
module TreeProtocol {
  import opened Common
  import opened TreeDelta
  import opened TreeManifest
  import opened TreeStore

  datatype Seen = Seen(manifest: ManifestId, entries: Entries)

  /** `seenSoFar` is what collectors have read back so far and may still act on. */
  datatype State = State(tables: Tables, seenSoFar: set<Seen>, clock: Time)

  datatype Event =
    | Tick
    | Begin(id: ManifestId, sha: Digest, key: Time, defaultBranch: bool)
    | Persist(id: ManifestId, rows: Entries)
    | Read(seen: Seen)
    | Seal(seen: Seen)
    | Fail(seen: Seen)
    | ClaimRun(run: RunId, scheduledFor: Time, full: bool, lease: Time)
    | AbandonRun(run: RunId)
    | Reconfigure(repository: Repository)
    | TouchCursor(cursor: Cursor)
    | Emit(event: nat, payload: Digest)
    | Activate(request: Request, at: Time)
    | StartPurge(id: ManifestId, status: Status, version: nat, attempt: nat, token: nat, lease: nat)
    | DropChunk(claim: PurgeClaim, paths: set<Path>)
    | EndPurge(claim: PurgeClaim)
    | Defer(claim: PurgeClaim)

  predicate IsSubmap(a: Entries, b: Entries) {
    forall p :: p in a ==> p in b && a[p] == b[p]
  }

  /** A read back in pages may miss rows added meanwhile, but never shows one that is not stored. */
  predicate MayRead(t: Tables, seen: Seen) {
    seen.manifest in t.manifests && IsSubmap(seen.entries, t.manifests[seen.manifest].entries)
  }

  ghost predicate MayClaim(t: Tables, e: Event, now: Time)
    requires e.ClaimRun?
  {
    && e.run !in t.runs
    && (forall r :: r in t.runs ==> t.runs[r].scheduledFor != e.scheduledFor)
    && (forall r :: r in t.runs ==> t.runs[r].status != Running || t.runs[r].leaseExpiresAt <= now)
  }

  ghost function Effect(s: State, e: Event): Tables {
    var t := s.tables;
    match e
    case Tick => t
    case Read(_) => t
    case Begin(id, sha, key, defaultBranch) => BeginManifest(t, id, sha, key, defaultBranch)
    case Persist(id, rows) => PersistEntries(t, id, rows)
    case Seal(seen) => if seen in s.seenSoFar then CompleteManifest(t, seen.manifest, seen.entries) else t
    case Fail(seen) => if seen in s.seenSoFar then FailManifest(t, seen.manifest, seen.entries, s.clock) else t
    case ClaimRun(run, scheduledFor, full, lease) =>
      if MayClaim(t, e, s.clock)
      then t.(runs := t.runs[run := SyncRun(Running, t.head, scheduledFor, full, t.repository.configurationVersion,
                                            t.cursor.version, s.clock + lease, None)])
      else t
    case AbandonRun(run) =>
      if run in t.runs && t.runs[run].status == Running
      then t.(runs := t.runs[run := t.runs[run].(status := Abandoned, completedAt := Some(s.clock))])
      else t
    case Reconfigure(repository) => t.(repository := repository)
    case TouchCursor(cursor) => t.(cursor := cursor)
    case Emit(event, payload) => if event in t.outbox then t else t.(outbox := t.outbox[event := payload])
    case Activate(q, at) => if MayActivate(t, q, s.clock) then Activated(t, q, at) else t
    case StartPurge(id, status, version, attempt, token, lease) =>
      ClaimPurge(t, id, status, version, attempt, token, lease, s.clock)
    case DropChunk(k, paths) => if 1 <= |paths| <= DELETE_CHUNK_SIZE then PurgeChunk(t, k, paths, s.clock) else t
    case EndPurge(k) => FinishPurge(t, k, s.clock)
    case Defer(k) => DeferPurge(t, k, s.clock)
  }

  ghost function Step(s: State, e: Event): State {
    State(Effect(s, e),
          if e.Read? && MayRead(s.tables, e.seen) then s.seenSoFar + {e.seen} else s.seenSoFar,
          if e.Tick? then s.clock + 1 else s.clock)
  }

  ghost function Run(s: State, events: seq<Event>): State
    decreases |events|
  {
    if events == [] then s else Step(Run(s, events[..|events| - 1]), events[|events| - 1])
  }

  function Init(repository: Repository, cursor: Cursor): State {
    State(Tables(map[], repository, None, cursor, map[], map[], map[], map[], map[], []), {}, 0)
  }

  // ----- Purge accounting

  function Logged(chunks: seq<PurgedChunk>, id: ManifestId): set<Path> {
    if chunks == [] then {}
    else
      var last := chunks[|chunks| - 1];
      Logged(chunks[..|chunks| - 1], id) + (if last.manifest == id then last.paths else {})
  }

  function LoggedCount(chunks: seq<PurgedChunk>, id: ManifestId): nat {
    if chunks == [] then 0
    else
      var last := chunks[|chunks| - 1];
      LoggedCount(chunks[..|chunks| - 1], id) + (if last.manifest == id then |last.paths| else 0)
  }

  lemma {:induction false} LoggedHolds(chunks: seq<PurgedChunk>, i: nat)
    requires i < |chunks|
    ensures chunks[i].paths <= Logged(chunks, chunks[i].manifest)
  {
    if i < |chunks| - 1 {
      LoggedHolds(chunks[..|chunks| - 1], i);
    }
  }

  lemma {:induction false} NothingLogged(chunks: seq<PurgedChunk>, id: ManifestId)
    requires forall i :: 0 <= i < |chunks| ==> chunks[i].manifest != id
    ensures Logged(chunks, id) == {} && LoggedCount(chunks, id) == 0
  {
    if chunks != [] {
      NothingLogged(chunks[..|chunks| - 1], id);
    }
  }

  /** Remaining and logged entries split the entries the manifest was frozen with, and the counts add up. */
  ghost predicate Conserved(m: Manifest, logged: set<Path>, count: nat) {
    && IsSubmap(m.entries, m.frozen)
    && m.entries.Keys !! logged
    && m.entries.Keys + logged == m.frozen.Keys
    && |m.entries.Keys| + count == m.entryCount == |m.frozen.Keys|
  }

  ghost predicate ManifestOk(m: Manifest, chunks: seq<PurgedChunk>, id: ManifestId) {
    && (m.status in {Staging, Complete, Failed} ==> forall i :: 0 <= i < |chunks| ==> chunks[i].manifest != id)
    && (m.status == Complete ==> m.entries == m.frozen && !HasPartial(m.entries))
    && (m.status == Purged ==> m.entries == map[])
    && (m.status != Staging ==> Conserved(m, Logged(chunks, id), LoggedCount(chunks, id)))
  }

  ghost predicate ChunksAreDisjoint(chunks: seq<PurgedChunk>) {
    && (forall i :: 0 <= i < |chunks| ==> 1 <= |chunks[i].paths| <= DELETE_CHUNK_SIZE)
    && (forall i, j :: 0 <= i < j < |chunks| && chunks[i].manifest == chunks[j].manifest ==>
          chunks[i].paths !! chunks[j].paths)
  }

  ghost predicate ReadsAreStored(s: State) {
    forall r :: r in s.seenSoFar ==>
      && r.manifest in s.tables.manifests
      && (IsStaging(s.tables, r.manifest) ==> IsSubmap(r.entries, s.tables.manifests[r.manifest].entries))
  }

  type Manifests = map<ManifestId, Manifest>

  ghost predicate Collected(manifests: Manifests, chunks: seq<PurgedChunk>) {
    && (forall id {:trigger ManifestOk(manifests[id], chunks, id)} :: id in manifests ==>
      ManifestOk(manifests[id], chunks, id))
    && (forall i :: 0 <= i < |chunks| ==> chunks[i].manifest in manifests)
    && ChunksAreDisjoint(chunks)
  }

  ghost predicate Inv(s: State) {
    History(s.tables) && Collected(s.tables.manifests, s.tables.chunks) && ReadsAreStored(s)
  }

  // ----- The history

  /** What History speaks about is untouched. */
  ghost predicate SameHistory(t: Tables, u: Tables) {
    && u.head == t.head && u.receipts == t.receipts && u.witnesses == t.witnesses && u.deltas == t.deltas
    && (forall id :: id in t.manifests && t.manifests[id].status == Complete ==>
          id in u.manifests && u.manifests[id] == t.manifests[id])
    && (forall r :: r in t.runs && t.runs[r].status == Finished ==> r in u.runs && u.runs[r] == t.runs[r])
    && RunsAreScheduledOnce(u)
  }

  lemma {:induction false} SameStepDeltas(t: Tables, u: Tables, v: nat)
    requires ReceiptsAreHistory(t) && v in t.receipts
    requires forall id :: id in t.manifests && t.manifests[id].status == Complete ==>
               id in u.manifests && u.manifests[id] == t.manifests[id]
    ensures StepDeltas(u, t.receipts[v].request) == StepDeltas(t, t.receipts[v].request)
  {
    assert ReceiptOk(t, v);
    if v > 1 {
      assert ReceiptOk(t, v - 1);
    }
  }

  lemma {:induction false} SameReceiptsKept(t: Tables, u: Tables)
    requires ReceiptsAreHistory(t) && SameHistory(t, u)
    ensures ReceiptsAreHistory(u)
  {
    forall v {:trigger ReceiptOk(u, v)} | v in u.receipts ensures ReceiptOk(u, v) {
      assert ReceiptOk(t, v);
    }
  }

  lemma {:induction false} SameLogKept(t: Tables, u: Tables)
    requires ReceiptsAreHistory(t) && LogIsExact(t) && SameHistory(t, u)
    ensures LogIsExact(u)
  {
    forall v | v in u.receipts ensures StepDeltas(u, u.receipts[v].request) == StepDeltas(t, u.receipts[v].request) {
      SameStepDeltas(t, u, v);
    }
  }

  lemma {:induction false} SameHistoryKept(t: Tables, u: Tables)
    requires History(t) && SameHistory(t, u)
    ensures History(u)
  {
    SameReceiptsKept(t, u);
    SameLogKept(t, u);
    forall k | k in u.witnesses ensures TokenOf(u.witnesses[k].request) == k && HasReceipt(u, u.witnesses[k].request) {
      assert HasReceipt(t, t.witnesses[k].request);
    }
  }

  lemma {:induction false} OldReceiptOk(t: Tables, u: Tables, q: Request, v: nat)
    requires v in t.receipts && ReceiptOk(t, v) && HeadVersion(t.head) <= HeadVersion(u.head)
    requires forall w :: w in t.receipts ==> w in u.receipts && u.receipts[w] == t.receipts[w]
    requires u.manifests == t.manifests
    requires forall r :: r in t.runs && r != q.run ==> r in u.runs && u.runs[r] == t.runs[r]
    requires q.run in t.runs && t.runs[q.run].status == Running
    ensures ReceiptOk(u, v)
  {
  }

  lemma {:induction false} NewReceiptOk(t: Tables, u: Tables, q: Request, at: Time)
    requires t.head == q.expectedHead
    requires t.head.Some? ==>
      && t.head.value.version >= 1 && t.head.value.version in t.receipts
      && t.head.value.manifest == t.receipts[t.head.value.version].request.manifest
    requires q.run in u.runs && u.runs[q.run].status == Finished && u.runs[q.run].scheduledFor == q.scheduledFor
    requires q.manifest in u.manifests && u.manifests[q.manifest].status == Complete
    requires u.manifests[q.manifest].collectionKey == q.scheduledFor
    requires u.head == Some(NextHead(q))
    requires u.receipts == t.receipts[NextHead(q).version := Receipt(q, at)]
    ensures ReceiptOk(u, NextHead(q).version)
  {
  }

  lemma {:induction false} ActivationKeepsReceipts(t: Tables, u: Tables, q: Request, at: Time)
    requires ReceiptsAreHistory(t) && t.head == q.expectedHead
    requires q.run in t.runs && t.runs[q.run].status == Running && t.runs[q.run].scheduledFor == q.scheduledFor
    requires q.manifest in t.manifests && t.manifests[q.manifest].status == Complete
    requires t.manifests[q.manifest].collectionKey == q.scheduledFor
    requires u.head == Some(NextHead(q)) && u.manifests == t.manifests
    requires u.receipts == t.receipts[NextHead(q).version := Receipt(q, at)]
    requires u.runs == t.runs[q.run := t.runs[q.run].(status := Finished, completedAt := Some(at))]
    ensures ReceiptsAreHistory(u)
  {
    var n := NextHead(q).version;
    ReceiptsEndAtHead(t);
    NewReceiptOk(t, u, q, at);
    forall v {:trigger ReceiptOk(u, v)} | v in u.receipts ensures ReceiptOk(u, v) {
      if v != n {
        assert ReceiptOk(t, v);
        OldReceiptOk(t, u, q, v);
      }
    }
    assert forall v :: 1 <= v <= n ==> v in u.receipts;
    assert u.head.value.version == n && u.receipts[n].request.manifest == u.head.value.manifest;
  }

  lemma {:induction false} ActivationKeepsLog(t: Tables, u: Tables, q: Request)
    requires ReceiptsAreHistory(t) && LogIsExact(t)
    requires NextHead(q).version !in t.receipts
    requires u.receipts.Keys == t.receipts.Keys + {NextHead(q).version}
    requires forall v :: v in t.receipts ==> u.receipts[v] == t.receipts[v]
    requires u.receipts[NextHead(q).version].request == q
    requires u.manifests == t.manifests && u.deltas == t.deltas + StepDeltas(t, q)
    requires forall v :: v in t.receipts ==> t.receipts[v].request.manifest != q.manifest
    ensures LogIsExact(u)
  {
    var prior := HeadManifest(q.expectedHead);
    var rows := StepDeltas(t, q);
    var before, after := EntriesOf(t, prior), EntriesOf(t, Some(q.manifest));
    DeltaRowsDescribeStep(prior, q.manifest, before, after);
    assert forall id :: id in rows ==> id.next == rows[id].next == q.manifest && rows[id].prior == prior;
    assert forall id :: id in t.deltas ==> id.next == t.deltas[id].next != q.manifest;
    StepRowsOfInsertion(t.deltas, rows, prior, q.manifest);
    forall v | v in u.receipts
      ensures var w := u.receipts[v].request;
        StepRows(u.deltas, HeadManifest(w.expectedHead), w.manifest) == StepDeltas(u, w).Values
    {
      if v in t.receipts {
        SameStepDeltas(t, u, v);
      }
    }
    forall id | id in u.deltas
      ensures id.next == u.deltas[id].next
      ensures exists v :: v in u.receipts && u.receipts[v].request.manifest == id.next
                            && HeadManifest(u.receipts[v].request.expectedHead) == u.deltas[id].prior
    {
      if id in rows {
        assert u.receipts[NextHead(q).version].request.manifest == id.next;
      } else {
        var v :| v in t.receipts && t.receipts[v].request.manifest == id.next
                 && HeadManifest(t.receipts[v].request.expectedHead) == t.deltas[id].prior;
        assert v in u.receipts;
      }
    }
  }

  /** The fields an activation changes, without how it got there. */
  ghost predicate ActivationEffect(t: Tables, u: Tables, q: Request, at: Time) {
    && t.head == q.expectedHead
    && q.run in t.runs && t.runs[q.run].status == Running && t.runs[q.run].scheduledFor == q.scheduledFor
    && q.manifest in t.manifests && t.manifests[q.manifest].status == Complete
    && t.manifests[q.manifest].collectionKey == q.scheduledFor
    && u.head == Some(NextHead(q)) && u.manifests == t.manifests
    && u.receipts == t.receipts[NextHead(q).version := Receipt(q, at)]
    && u.runs == t.runs[q.run := t.runs[q.run].(status := Finished, completedAt := Some(at))]
    && u.witnesses == t.witnesses[TokenOf(q) := Witness(q, at)]
    && u.deltas == t.deltas + StepDeltas(t, q)
  }

  lemma {:induction false} HistoryAfter(t: Tables, u: Tables, q: Request, at: Time)
    requires History(t) && ActivationEffect(t, u, q, at) && !ReceiptClashes(t, q)
    ensures History(u)
  {
    ActivationKeepsReceipts(t, u, q, at);
    assert forall v :: v in t.receipts ==> !Shares(t.receipts[v].request, q);
    ActivationKeepsLog(t, u, q);
    ActivationKeepsWitnesses(t, u, q, at);
  }

  lemma {:induction false} ActivationKeepsHistory(t: Tables, q: Request, at: Time, now: Time)
    requires History(t) && MayActivate(t, q, now)
    ensures History(Activated(t, q, at))
  {
    ReceiptsDiffer(t, q, now);
    HistoryAfter(t, Activated(t, q, at), q, at);
  }

  lemma {:induction false} ActivationKeepsWitnesses(t: Tables, u: Tables, q: Request, at: Time)
    requires WitnessesHaveReceipts(t) && NextHead(q).version !in t.receipts
    requires u.receipts == t.receipts[NextHead(q).version := Receipt(q, at)]
    requires u.witnesses == t.witnesses[TokenOf(q) := Witness(q, at)]
    ensures WitnessesHaveReceipts(u)
  {
    forall k | k in u.witnesses ensures TokenOf(u.witnesses[k].request) == k && HasReceipt(u, u.witnesses[k].request) {
      if k == TokenOf(q) {
        assert u.receipts[NextHead(q).version].request == q;
      } else {
        assert HasReceipt(t, t.witnesses[k].request);
        var v :| v in t.receipts && t.receipts[v].request == t.witnesses[k].request;
        assert u.receipts[v] == t.receipts[v];
      }
    }
  }

  /** A manifest the history speaks about was completed. */
  lemma {:induction false} ReferencedIsComplete(t: Tables, id: ManifestId)
    requires History(t) && !Unreferenced(t, id)
    ensures id in t.manifests && t.manifests[id].status == Complete
  {
    if t.head.Some? && t.head.value.manifest == id {
      assert ReceiptOk(t, t.head.value.version);
    } else {
      var d :| d in t.deltas && (t.deltas[d].prior == Some(id) || t.deltas[d].next == id);
      var v :| v in t.receipts && t.receipts[v].request.manifest == d.next
               && HeadManifest(t.receipts[v].request.expectedHead) == t.deltas[d].prior;
      assert ReceiptOk(t, v);
      if t.deltas[d].prior == Some(id) {
        assert ReceiptOk(t, v - 1);
      }
    }
  }

  // ----- Collecting and purging

  lemma {:induction false} EqualCountsMeanEqual(seen: Entries, stored: Entries)
    requires IsSubmap(seen, stored) && |seen| == |stored|
    ensures seen == stored
  {
    SelectedCount(seen.Keys, stored.Keys);
  }

  lemma {:induction false} SealKeepsCollected(manifests: Manifests, chunks: seq<PurgedChunk>, id: ManifestId,
    seen: Entries, sealed: Manifest)
    requires Collected(manifests, chunks) && id in manifests && manifests[id].status == Staging
    requires IsSubmap(seen, manifests[id].entries) && |seen| == |manifests[id].entries|
    requires sealed.entries == manifests[id].entries && sealed.frozen == seen && sealed.entryCount == |seen|
    requires sealed.status == Failed || (sealed.status == Complete && !HasPartial(sealed.entries))
    ensures Collected(manifests[id := sealed], chunks)
  {
    EqualCountsMeanEqual(seen, manifests[id].entries);
    assert ManifestOk(manifests[id], chunks, id);
    NothingLogged(chunks, id);
    assert ManifestOk(sealed, chunks, id);
  }

  /** A manifest changed without touching what the purge accounts for. */
  lemma {:induction false} RelabelKeepsCollected(manifests: Manifests, chunks: seq<PurgedChunk>, id: ManifestId,
    n: Manifest)
    requires Collected(manifests, chunks) && id in manifests
    requires var m := manifests[id];
      && n.entries == m.entries && n.frozen == m.frozen && n.entryCount == m.entryCount
      && m.status in {Failed, Purging} && n.status in {Purging, Purged}
      && (n.status == Purged ==> n.entries == map[])
    ensures Collected(manifests[id := n], chunks)
  {
    assert ManifestOk(manifests[id], chunks, id);
    assert ManifestOk(n, chunks, id);
  }

  lemma {:induction false} DropKeepsConserved(m: Manifest, logged: set<Path>, count: nat, paths: set<Path>)
    requires Conserved(m, logged, count) && paths <= m.entries.Keys
    ensures Conserved(m.(entries := m.entries - paths), logged + paths, count + |paths|)
  {
    var kept := m.entries - paths;
    assert kept.Keys == m.entries.Keys - paths;
    assert m.entries.Keys == kept.Keys + paths;
  }

  lemma {:induction false} DroppedManifestOk(m: Manifest, chunks: seq<PurgedChunk>, chunk: PurgedChunk)
    requires ManifestOk(m, chunks, chunk.manifest) && m.status == Purging && chunk.paths <= m.entries.Keys
    ensures ManifestOk(m.(entries := m.entries - chunk.paths), chunks + [chunk], chunk.manifest)
  {
    var longer, id := chunks + [chunk], chunk.manifest;
    assert longer[..|longer| - 1] == chunks;
    DropKeepsConserved(m, Logged(chunks, id), LoggedCount(chunks, id), chunk.paths);
  }

  lemma {:induction false} OtherManifestOk(m: Manifest, chunks: seq<PurgedChunk>, chunk: PurgedChunk, id: ManifestId)
    requires ManifestOk(m, chunks, id) && id != chunk.manifest
    ensures ManifestOk(m, chunks + [chunk], id)
  {
    assert (chunks + [chunk])[..|chunks|] == chunks;
  }

  lemma {:induction false} DroppedChunksDisjoint(m: Manifest, chunks: seq<PurgedChunk>, chunk: PurgedChunk)
    requires ManifestOk(m, chunks, chunk.manifest) && m.status == Purging && chunk.paths <= m.entries.Keys
    requires ChunksAreDisjoint(chunks) && 1 <= |chunk.paths| <= DELETE_CHUNK_SIZE
    ensures ChunksAreDisjoint(chunks + [chunk])
  {
    forall i | 0 <= i < |chunks| && chunks[i].manifest == chunk.manifest ensures chunks[i].paths !! chunk.paths {
      LoggedHolds(chunks, i);
    }
  }

  lemma {:induction false} AppendKeepsCollected(manifests: Manifests, chunks: seq<PurgedChunk>, chunk: PurgedChunk,
    dropped: Manifest)
    requires Collected(manifests, chunks)
    requires chunk.manifest in manifests && ManifestOk(dropped, chunks + [chunk], chunk.manifest)
    requires ChunksAreDisjoint(chunks + [chunk])
    ensures Collected(manifests[chunk.manifest := dropped], chunks + [chunk])
  {
    forall o | o in manifests && o != chunk.manifest ensures ManifestOk(manifests[o], chunks + [chunk], o) {
      assert ManifestOk(manifests[o], chunks, o);
      OtherManifestOk(manifests[o], chunks, chunk, o);
    }
  }

  lemma {:induction false} DropChunkKeepsCollected(manifests: Manifests, chunks: seq<PurgedChunk>, chunk: PurgedChunk,
    m: Manifest)
    requires Collected(manifests, chunks) && chunk.manifest in manifests && m == manifests[chunk.manifest]
    requires 1 <= |chunk.paths| <= DELETE_CHUNK_SIZE && m.status == Purging && chunk.paths <= m.entries.Keys
    ensures Collected(manifests[chunk.manifest := m.(entries := m.entries - chunk.paths)], chunks + [chunk])
  {
    assert ManifestOk(m, chunks, chunk.manifest);
    DroppedManifestOk(m, chunks, chunk);
    DroppedChunksDisjoint(m, chunks, chunk);
    AppendKeepsCollected(manifests, chunks, chunk, m.(entries := m.entries - chunk.paths));
  }

  lemma {:induction false} LoggedIsGone(m: Manifest, chunks: seq<PurgedChunk>, chunk: PurgedChunk)
    requires ManifestOk(m, chunks, chunk.manifest) && m.status == Purging && chunk in chunks
    ensures m.entries.Keys !! chunk.paths
    ensures m.(entries := m.entries - chunk.paths) == m
  {
    var i :| 0 <= i < |chunks| && chunks[i] == chunk;
    LoggedHolds(chunks, i);
    assert m.entries - chunk.paths == m.entries;
  }

  /** In reachable states a chunk either logs and drops all its paths, or does nothing. */
  lemma {:induction false} ChunkIsAllOrNothing(t: Tables, k: PurgeClaim, paths: set<Path>, now: Time)
    requires Collected(t.manifests, t.chunks) && paths != {}
    ensures PurgeChunk(t, k, paths, now) ==
      (if PurgeAllowed(t, k, now) && paths <= t.manifests[k.manifest].entries.Keys
       then DropEntries(LogChunk(t, k, paths), k, paths) else t)
  {
    if PurgeAllowed(t, k, now) && ChunkLogged(t, k, paths) {
      var m := t.manifests[k.manifest];
      assert ManifestOk(m, t.chunks, k.manifest);
      LoggedIsGone(m, t.chunks, PurgedChunk(k.manifest, k.version, paths));
      assert t.manifests[k.manifest := m] == t.manifests;
    }
  }

  // ----- One step

  predicate ChangesManifests(e: Event) {
    e.Begin? || e.Persist? || e.Seal? || e.Fail? || e.StartPurge? || e.DropChunk? || e.EndPurge? || e.Defer?
  }

  predicate ChangesRuns(e: Event) {
    e.ClaimRun? || e.AbandonRun?
  }

  predicate TransitionOk(m: Manifest, n: Manifest) {
    && (m.status == Complete ==> n == m)
    && (n.status == Staging ==> m.status == Staging && IsSubmap(m.entries, n.entries))
    && (m.status != Staging ==> n.status != Staging && n.frozen == m.frozen && n.entryCount == m.entryCount)
  }

  /** Nothing changes a complete manifest, and nothing leaves a staging one. */
  ghost predicate ManifestsEvolve(t: Tables, u: Tables) {
    forall i :: i in t.manifests ==> i in u.manifests && TransitionOk(t.manifests[i], u.manifests[i])
  }

  lemma {:induction false} CollectEvolves(s: State, e: Event)
    requires e.Begin? || e.Persist? || e.Seal? || e.Fail?
    ensures ManifestsEvolve(s.tables, Effect(s, e))
    ensures Effect(s, e) == s.tables.(manifests := Effect(s, e).manifests)
  {
  }

  lemma {:induction false} PurgeEvolves(s: State, e: Event)
    requires e.StartPurge? || e.DropChunk? || e.EndPurge? || e.Defer?
    ensures ManifestsEvolve(s.tables, Effect(s, e))
    ensures Effect(s, e) == s.tables.(manifests := Effect(s, e).manifests, chunks := Effect(s, e).chunks)
  {
    match e
    case StartPurge(id, status, version, attempt, token, lease) =>
      ClaimEvolves(s.tables, id, status, version, attempt, token, lease, s.clock);
    case DropChunk(k, paths) => ChunkEvolves(s.tables, k, paths, s.clock);
    case EndPurge(k) => EndEvolves(s.tables, k, s.clock);
    case Defer(k) => DeferEvolves(s.tables, k, s.clock);
  }

  lemma {:induction false} EndEvolves(t: Tables, k: PurgeClaim, now: Time)
    ensures ManifestsEvolve(t, FinishPurge(t, k, now))
  {
  }

  lemma {:induction false} DeferEvolves(t: Tables, k: PurgeClaim, now: Time)
    ensures ManifestsEvolve(t, DeferPurge(t, k, now))
  {
  }

  lemma {:induction false} ClaimEvolves(t: Tables, id: ManifestId, status: Status, version: nat, attempt: nat,
    token: nat,
                                        lease: nat, now: Time)
    ensures ManifestsEvolve(t, ClaimPurge(t, id, status, version, attempt, token, lease, now))
  {
  }

  lemma {:induction false} ChunkEvolves(t: Tables, k: PurgeClaim, paths: set<Path>, now: Time)
    ensures ManifestsEvolve(t, PurgeChunk(t, k, paths, now))
  {
  }

  lemma {:induction false} OtherEventsKeepManifests(s: State, e: Event)
    requires !ChangesManifests(e)
    ensures Effect(s, e).manifests == s.tables.manifests && Effect(s, e).chunks == s.tables.chunks
  {
  }

  lemma {:induction false} RunsEvolve(s: State, e: Event)
    requires RunsAreScheduledOnce(s.tables) && ChangesRuns(e)
    ensures RunsAreScheduledOnce(Effect(s, e)) && Effect(s, e) == s.tables.(runs := Effect(s, e).runs)
    ensures forall r :: r in s.tables.runs && s.tables.runs[r].status == Finished ==>
              r in Effect(s, e).runs && Effect(s, e).runs[r] == s.tables.runs[r]
  {
  }

  lemma {:induction false} OtherEventsKeepHistory(s: State, e: Event)
    requires !ChangesManifests(e) && !ChangesRuns(e) && !e.Activate?
    ensures var t, u := s.tables, Effect(s, e);
      u == t.(repository := u.repository, cursor := u.cursor, outbox := u.outbox)
  {
  }

  /** No event but an activation touches the history. */
  lemma {:induction false} OnlyActivationMakesHistory(s: State, e: Event)
    requires RunsAreScheduledOnce(s.tables) && !e.Activate?
    ensures SameHistory(s.tables, Effect(s, e))
  {
    if e.Begin? || e.Persist? || e.Seal? || e.Fail? {
      CollectEvolves(s, e);
    } else if ChangesManifests(e) {
      PurgeEvolves(s, e);
    } else if ChangesRuns(e) {
      RunsEvolve(s, e);
    } else {
      OtherEventsKeepHistory(s, e);
    }
  }

  lemma {:induction false} EveryEventEvolves(s: State, e: Event)
    ensures ManifestsEvolve(s.tables, Effect(s, e))
  {
    if e.Begin? || e.Persist? || e.Seal? || e.Fail? {
      CollectEvolves(s, e);
    } else if ChangesManifests(e) {
      PurgeEvolves(s, e);
    } else {
      OtherEventsKeepManifests(s, e);
    }
  }

  lemma {:induction false} NewManifestKeepsCollected(manifests: Manifests, chunks: seq<PurgedChunk>, id: ManifestId,
    m: Manifest)
    requires Collected(manifests, chunks) && m.status == Staging
    requires id in manifests ==> manifests[id].status == Staging
    ensures Collected(manifests[id := m], chunks)
  {
    if id in manifests {
      assert ManifestOk(manifests[id], chunks, id);
    }
    assert ManifestOk(m, chunks, id);
  }

  lemma {:induction false} CollectKeepsCollected(s: State, e: Event)
    requires Inv(s) && (e.Begin? || e.Persist? || e.Seal? || e.Fail?)
    ensures Collected(Effect(s, e).manifests, Effect(s, e).chunks)
  {
    var t, u := s.tables, Effect(s, e);
    if u != t {
      match e
      case Begin(id, _, _, _) => NewManifestKeepsCollected(t.manifests, t.chunks, id, u.manifests[id]);
      case Persist(id, _) => NewManifestKeepsCollected(t.manifests, t.chunks, id, u.manifests[id]);
      case Seal(seen) =>
        SealKeepsCollected(t.manifests, t.chunks, seen.manifest, seen.entries, u.manifests[seen.manifest]);
      case Fail(seen) =>
        SealKeepsCollected(t.manifests, t.chunks, seen.manifest, seen.entries, u.manifests[seen.manifest]);
    }
  }

  lemma {:induction false} PurgeKeepsCollected(s: State, e: Event)
    requires Inv(s) && (e.StartPurge? || e.DropChunk? || e.EndPurge? || e.Defer?)
    ensures Collected(Effect(s, e).manifests, Effect(s, e).chunks)
  {
    var t, u := s.tables, Effect(s, e);
    if u != t {
      match e
      case StartPurge(id, _, _, _, _, _) => RelabelKeepsCollected(t.manifests, t.chunks, id, u.manifests[id]);
      case EndPurge(k) => RelabelKeepsCollected(t.manifests, t.chunks, k.manifest, u.manifests[k.manifest]);
      case Defer(k) => RelabelKeepsCollected(t.manifests, t.chunks, k.manifest, u.manifests[k.manifest]);
      case DropChunk(k, paths) =>
        ChunkIsAllOrNothing(t, k, paths, s.clock);
        DropChunkKeepsCollected(t.manifests, t.chunks, PurgedChunk(k.manifest, k.version, paths),
          t.manifests[k.manifest]);
    }
  }

  lemma {:induction false} StepKeepsInv(s: State, e: Event)
    requires Inv(s)
    ensures Inv(Step(s, e))
  {
    var t, u := s.tables, Effect(s, e);
    if e.Activate? {
      if MayActivate(t, e.request, s.clock) {
        ActivationKeepsHistory(t, e.request, e.at, s.clock);
      }
    } else {
      OnlyActivationMakesHistory(s, e);
      SameHistoryKept(t, u);
    }
    if e.Begin? || e.Persist? || e.Seal? || e.Fail? {
      CollectKeepsCollected(s, e);
    } else if ChangesManifests(e) {
      PurgeKeepsCollected(s, e);
    }
    EveryEventEvolves(s, e);
    ReadsStayStored(s, e);
  }

  lemma {:induction false} ReadsStayStored(s: State, e: Event)
    requires ReadsAreStored(s) && ManifestsEvolve(s.tables, Effect(s, e))
    ensures ReadsAreStored(Step(s, e))
  {
    var t, u := s.tables, Effect(s, e);
    forall r | r in Step(s, e).seenSoFar
      ensures r.manifest in u.manifests
      ensures IsStaging(u, r.manifest) ==> IsSubmap(r.entries, u.manifests[r.manifest].entries)
    {
      assert MayRead(t, r) || r in s.seenSoFar;
      assert TransitionOk(t.manifests[r.manifest], u.manifests[r.manifest]);
    }
  }

  lemma {:induction false} RunsKeepInv(repository: Repository, cursor: Cursor, events: seq<Event>)
    ensures Inv(Run(Init(repository, cursor), events))
  {
    if events != [] {
      RunsKeepInv(repository, cursor, events[..|events| - 1]);
      StepKeepsInv(Run(Init(repository, cursor), events[..|events| - 1]), events[|events| - 1]);
    }
  }
}
