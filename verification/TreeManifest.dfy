/**
 The tables of one repository ref and the two batches that matter for its history: activating a collected manifest as
 the ref's head, and purging a failed one
 (src/github/tree-manifest.ts, src/github/sync-activation-fence.ts, src/github/tree-manifest-purge.ts,
 migrations/0011_github_tree_manifests.sql, migrations/0017_github_sync_activation_receipts.sql).
 */
module TreeManifest {
  import opened Common
  import opened TreeDelta

  type Time = nat
  type RunId = nat

  datatype Status = Staging | Complete | Failed | Purging | Purged

  /** `frozen` is what `entries_checksum` digests: the entries at the moment collection ended. */
  datatype Manifest = Manifest(
    observedSha: Digest, collectionKey: Time, defaultBranch: bool,
    status: Status, entries: Entries, entryCount: nat, frozen: Entries,
    failedAt: Time, retentionVersion: nat, retentionAttempt: nat,
    nextAttemptAt: Option<Time>, purgeToken: nat, leaseUntil: Time)

  /** `identity` stands for provider, external ids, owner, name, default branch and tracked refs together. */
  datatype Repository = Repository(
    enabled: bool, identity: nat, configurationVersion: nat, updatedAt: Time, refIsDefault: bool, refIsTracked: bool)

  datatype CursorStatus = Idle | Observed | PendingReview | Done | Broken | Paused

  datatype CursorDetail = CursorDetail(
    lastSyncAt: Option<Time>, nextSyncAt: Option<Time>, historyGap: bool, expiring: bool, etag: Option<nat>,
      error: Option<nat>)

  datatype Cursor = Cursor(
    observedSha: Option<Digest>, status: CursorStatus, updatedAt: Time, version: nat, detail: CursorDetail)

  datatype RunStatus = Running | Finished | Abandoned

  datatype SyncRun = SyncRun(
    status: RunStatus, claimedHead: Option<Head>, scheduledFor: Time, full: bool,
    configurationVersion: nat, cursorVersion: nat, leaseExpiresAt: Time, completedAt: Option<Time>)

  datatype Head = Head(manifest: ManifestId, version: nat)

  /** sha256 over run and manifest, and over that and a random value. */
  datatype ReceiptId = ReceiptId(run: RunId, manifest: ManifestId)
  datatype Token = Token(receipt: ReceiptId, nonce: nat)

  datatype Request = Request(
    manifest: ManifestId, observedSha: Digest, defaultBranch: bool, run: RunId, nonce: nat, expectedHead: Option<Head>,
    identity: nat, configurationVersion: nat, repositoryUpdatedAt: Time,
    cursorSha: Option<Digest>, cursorStatus: CursorStatus, cursorUpdatedAt: Time, cursorVersion: nat,
    scheduledFor: Time, full: bool, nextSyncAt: Time, historyGap: bool, expiring: bool, etag: Option<nat>,
    event: nat, payload: Digest)

  /** The request digest covers every field, so a stored digest is the request itself. */
  datatype Witness = Witness(request: Request, createdAt: Time)
  datatype Receipt = Receipt(request: Request, activatedAt: Time)

  datatype PurgedChunk = PurgedChunk(manifest: ManifestId, retentionVersion: nat, paths: set<Path>)

  /** `receipts` is keyed by the unique activated head version, `chunks` lists the `purge_chunk` events in order. */
  datatype Tables = Tables(
    manifests: map<ManifestId, Manifest>,
    repository: Repository,
    head: Option<Head>,
    cursor: Cursor,
    runs: map<RunId, SyncRun>,
    witnesses: map<Token, Witness>,
    deltas: DeltaTable,
    outbox: map<nat, Digest>,
    receipts: map<nat, Receipt>,
    chunks: seq<PurgedChunk>)

  function ReceiptIdOf(q: Request): ReceiptId {
    ReceiptId(q.run, q.manifest)
  }

  function TokenOf(q: Request): Token {
    Token(ReceiptIdOf(q), q.nonce)
  }

  function HeadVersion(head: Option<Head>): nat {
    if head.Some? then head.value.version else 0
  }

  function HeadManifest(head: Option<Head>): Option<ManifestId> {
    if head.Some? then Some(head.value.manifest) else None
  }

  function EntriesOf(t: Tables, m: Option<ManifestId>): Entries {
    if m.Some? && m.value in t.manifests then t.manifests[m.value].entries else map[]
  }

  // ----- Collection

  /** Both the identifier and the collection key are unique; a conflict leaves the table as it is. */
  ghost function BeginManifest(t: Tables, id: ManifestId, sha: Digest, key: Time, defaultBranch: bool): Tables {
    if id in t.manifests || (exists o :: o in t.manifests && t.manifests[o].collectionKey == key) then t
    else t.(manifests := t.manifests[id :=
           Manifest(sha, key, defaultBranch, Staging, map[], 0, map[], 0, 0, 0, None, 0, 0)])
  }

  predicate IsStaging(t: Tables, id: ManifestId) {
    id in t.manifests && t.manifests[id].status == Staging
  }

  /** Rows already stored win. */
  function PersistEntries(t: Tables, id: ManifestId, rows: Entries): Tables {
    if IsStaging(t, id) then t.(manifests :=
      t.manifests[id := t.manifests[id].(entries := rows + t.manifests[id].entries)])
    else t
  }

  predicate HasPartial(entries: Entries) {
    exists p :: p in entries && entries[p].disposition == Partial
  }

  /** The caller gives the count and checksum of the entries it read; the trigger compares only the count. */
  function CompleteManifest(t: Tables, id: ManifestId, seen: Entries): Tables {
    if IsStaging(t, id) && |seen| == |t.manifests[id].entries| && !HasPartial(t.manifests[id].entries)
    then t.(manifests := t.manifests[id := t.manifests[id].(status := Complete, entryCount := |seen|, frozen := seen)])
    else t
  }

  function FailManifest(t: Tables, id: ManifestId, seen: Entries, at: Time): Tables {
    if IsStaging(t, id) && |seen| == |t.manifests[id].entries|
    then t.(manifests := t.manifests[id :=
           t.manifests[id].(status := Failed, entryCount := |seen|, frozen := seen, failedAt := at)])
    else t
  }

  // ----- Activation

  predicate RepositoryAsExpected(r: Repository, q: Request) {
    && r.enabled && r.identity == q.identity
    && r.configurationVersion == q.configurationVersion && r.updatedAt == q.repositoryUpdatedAt
  }

  predicate ManifestEligible(t: Tables, q: Request) {
    && q.manifest in t.manifests
    && var m := t.manifests[q.manifest];
       && m.status == Complete && m.defaultBranch == q.defaultBranch
       && m.collectionKey == q.scheduledFor
       && (if m.defaultBranch then t.repository.refIsDefault else t.repository.refIsTracked)
  }

  predicate CursorAsExpected(c: Cursor, q: Request) {
    && c.observedSha == q.cursorSha && c.status == q.cursorStatus && c.status != Paused
    && c.updatedAt == q.cursorUpdatedAt && c.version == q.cursorVersion
  }

  predicate RunAsClaimed(t: Tables, q: Request, now: Time) {
    && q.run in t.runs
    && var r := t.runs[q.run];
       && r.status == Running && r.completedAt == None && r.leaseExpiresAt > now
       && r.claimedHead == q.expectedHead && r.scheduledFor == q.scheduledFor && r.full == q.full
       && r.configurationVersion == q.configurationVersion && r.cursorVersion == q.cursorVersion
  }

  /** `pendingGitHubSyncActivationPrestateGuardSql`. */
  predicate Prestate(t: Tables, q: Request, now: Time) {
    && RepositoryAsExpected(t.repository, q)
    && ManifestEligible(t, q)
    && CursorAsExpected(t.cursor, q)
    && RunAsClaimed(t, q, now)
    && t.head == q.expectedHead
  }

  predicate Witnessed(t: Tables, q: Request) {
    TokenOf(q) in t.witnesses && t.witnesses[TokenOf(q)].request == q
  }

  predicate OutboxCompatible(t: Tables, q: Request) {
    q.event in t.outbox ==> t.outbox[q.event] == q.payload
  }

  function ObservedCursor(q: Request, at: Time): Cursor {
    Cursor(Some(q.observedSha), Observed, at, q.cursorVersion + 1,
           CursorDetail(Some(q.scheduledFor), Some(q.nextSyncAt), q.historyGap, q.expiring, q.etag, None))
  }

  function NextHead(q: Request): Head {
    Head(q.manifest, HeadVersion(q.expectedHead) + 1)
  }

  /** The trigger on the receipt insert: the transaction aborts unless the final state is exactly the promised one. */
  predicate FinalState(t: Tables, q: Request, at: Time) {
    && Witnessed(t, q) && t.witnesses[TokenOf(q)].createdAt == at
    && t.repository.enabled && t.repository.configurationVersion == q.configurationVersion
    && t.repository.updatedAt == q.repositoryUpdatedAt
    && ManifestEligible(t, q) && t.manifests[q.manifest].observedSha == q.observedSha
    && t.head == Some(NextHead(q))
    && t.cursor == ObservedCursor(q, at)
    && q.run in t.runs
    && t.runs[q.run].status == Finished && t.runs[q.run].completedAt == Some(at)
    && t.runs[q.run].claimedHead == q.expectedHead && t.runs[q.run].scheduledFor == q.scheduledFor
    && q.event in t.outbox && t.outbox[q.event] == q.payload
  }

  predicate Shares(a: Request, b: Request) {
    a.run == b.run || a.manifest == b.manifest
  }

  ghost predicate ReceiptClashes(t: Tables, q: Request) {
    || NextHead(q).version in t.receipts
    || exists v :: v in t.receipts && Shares(t.receipts[v].request, q)
  }

  ghost function StepDeltas(t: Tables, q: Request): DeltaTable {
    var prior := HeadManifest(q.expectedHead);
    DeltaRows(prior, q.manifest, EntriesOf(t, prior), EntriesOf(t, Some(q.manifest)))
  }

  ghost function Recorded(t: Tables, q: Request, at: Time): Tables {
    t.(witnesses := t.witnesses[TokenOf(q) := Witness(q, at)],
       deltas := t.deltas + StepDeltas(t, q),
       outbox := t.outbox[q.event := q.payload])
  }

  function Advanced(t: Tables, q: Request, at: Time): Tables
    requires q.run in t.runs
  {
    t.(head := Some(NextHead(q)),
       cursor := ObservedCursor(q, at),
       runs := t.runs[q.run := t.runs[q.run].(status := Finished, completedAt := Some(at))])
  }

  /** What a committed activation changes, all at once. */
  ghost function Activated(t: Tables, q: Request, at: Time): Tables
    requires q.run in t.runs
  {
    Advanced(Recorded(t, q, at), q, at).(receipts := t.receipts[NextHead(q).version := Receipt(q, at)])
  }

  /** The guard a caller could check: everything the claim recorded still holds, and the event is not another's. */
  predicate MayActivate(t: Tables, q: Request, now: Time) {
    && Prestate(t, q, now)
    && HeadManifest(q.expectedHead) != Some(q.manifest)
    && OutboxCompatible(t, q)
    && t.manifests[q.manifest].observedSha == q.observedSha
  }

  ghost predicate HasReceipt(t: Tables, q: Request) {
    exists v :: v in t.receipts && t.receipts[v].request == q
  }

  // ----- Purging

  const DELETE_CHUNK_SIZE: nat := 500
  const FAILED_RETENTION_MS: nat := 30 * 24 * 60 * 60 * 1_000
  const PURGE_LEASE_LIMIT_MS: nat := 30 * 60 * 1_000
  const BACKOFF_BASE_MS: nat := 12 * 60 * 60 * 1_000
  const BACKOFF_LIMIT_MS: nat := 7 * 24 * 60 * 60 * 1_000

  datatype PurgeClaim = PurgeClaim(manifest: ManifestId, token: nat, version: nat, attempt: nat)

  ghost predicate DeltaReferenced(t: Tables, m: ManifestId) {
    exists id :: id in t.deltas && (t.deltas[id].prior == Some(m) || t.deltas[id].next == m)
  }

  ghost predicate Unreferenced(t: Tables, m: ManifestId) {
    !(t.head.Some? && t.head.value.manifest == m) && !DeltaReferenced(t, m)
  }

  /** The guard every purge statement repeats. */
  ghost predicate PurgeAllowed(t: Tables, k: PurgeClaim, now: Time) {
    && k.manifest in t.manifests
    && var m := t.manifests[k.manifest];
       && m.status == Purging && m.purgeToken == k.token
       && m.retentionVersion == k.version && m.retentionAttempt == k.attempt
       && m.leaseUntil > now && now >= m.failedAt + FAILED_RETENTION_MS
       && Unreferenced(t, k.manifest)
  }

  predicate ChunkLogged(t: Tables, k: PurgeClaim, paths: set<Path>) {
    PurgedChunk(k.manifest, k.version, paths) in t.chunks
  }

  function LogChunk(t: Tables, k: PurgeClaim, paths: set<Path>): Tables {
    t.(chunks := t.chunks + [PurgedChunk(k.manifest, k.version, paths)])
  }

  function DropEntries(t: Tables, k: PurgeClaim, paths: set<Path>): Tables
    requires k.manifest in t.manifests
  {
    var m := t.manifests[k.manifest];
    t.(manifests := t.manifests[k.manifest := m.(entries := m.entries - paths)])
  }

  /**
   One chunk: the event is written if the claim is current and all the selected entries are still there, then entries
   go if their event exists. Writing the same event twice aborts.
   */
  ghost function PurgeChunk(t: Tables, k: PurgeClaim, paths: set<Path>, now: Time): Tables {
    if !PurgeAllowed(t, k, now) then t
    else
      var present := paths <= t.manifests[k.manifest].entries.Keys;
      if present && ChunkLogged(t, k, paths) then t
      else if present then DropEntries(LogChunk(t, k, paths), k, paths)
      else if ChunkLogged(t, k, paths) then DropEntries(t, k, paths)
      else t
  }

  ghost predicate MayClaimPurge(t: Tables, m: ManifestId, status: Status, version: nat, attempt: nat, now: Time) {
    && m in t.manifests
    && var r := t.manifests[m];
       && r.status == status && status in {Failed, Purging}
       && r.retentionVersion == version && r.retentionAttempt == attempt
       && now >= r.failedAt + FAILED_RETENTION_MS
       && (r.nextAttemptAt == None || r.nextAttemptAt.value <= now)
       && (r.status == Failed || r.leaseUntil <= now)
       && Unreferenced(t, m)
  }

  ghost function ClaimPurge(t: Tables, m: ManifestId, status: Status, version: nat, attempt: nat, token: nat,
                            lease: nat, now: Time): Tables
  {
    if MayClaimPurge(t, m, status, version, attempt, now) && 0 < lease <= PURGE_LEASE_LIMIT_MS
    then t.(manifests := t.manifests[m := t.manifests[m].(
           status := Purging, retentionVersion := version + 1, retentionAttempt := attempt + 1,
           nextAttemptAt := Some(now + lease), purgeToken := token, leaseUntil := now + lease)])
    else t
  }

  ghost function FinishPurge(t: Tables, k: PurgeClaim, now: Time): Tables {
    if PurgeAllowed(t, k, now) && t.manifests[k.manifest].entries == map[]
    then t.(manifests := t.manifests[k.manifest := t.manifests[k.manifest].(
           status := Purged, retentionVersion := k.version + 1, nextAttemptAt := None)])
    else t
  }

  function Doubled(n: nat, times: nat): nat {
    if times == 0 then n else 2 * Doubled(n, times - 1)
  }

  /** Twelve hours, doubled with every attempt up to the tenth, and at most seven days. */
  function Backoff(attempt: nat): nat {
    var exponent := if attempt <= 1 then 0 else if attempt > 11 then 10 else attempt - 1;
    var delay := Doubled(BACKOFF_BASE_MS, exponent);
    if delay < BACKOFF_LIMIT_MS then delay else BACKOFF_LIMIT_MS
  }

  /** Deferral only ever pushes the next attempt later; the trigger refuses any other. */
  function DeferPurge(t: Tables, k: PurgeClaim, now: Time): Tables {
    var until := now + Backoff(k.attempt);
    if && k.manifest in t.manifests
       && var m := t.manifests[k.manifest];
          && m.status == Purging && m.purgeToken == k.token
          && m.retentionVersion == k.version && m.retentionAttempt == k.attempt
          && m.nextAttemptAt.Some? && m.nextAttemptAt.value < until
    then t.(manifests := t.manifests[k.manifest := t.manifests[k.manifest].(nextAttemptAt := Some(until))])
    else t
  }

  // ----- Invariants

  ghost predicate ReceiptOk(t: Tables, v: nat)
    requires v in t.receipts
  {
    var q := t.receipts[v].request;
    && v == HeadVersion(q.expectedHead) + 1 <= HeadVersion(t.head)
    && (v == 1 ==> q.expectedHead == None)
    && (v > 1 ==> v - 1 in t.receipts && q.expectedHead == Some(Head(t.receipts[v - 1].request.manifest, v - 1)))
    && q.run in t.runs && t.runs[q.run].status == Finished && t.runs[q.run].scheduledFor == q.scheduledFor
    && q.manifest in t.manifests && t.manifests[q.manifest].status == Complete
    && t.manifests[q.manifest].collectionKey == q.scheduledFor
  }

  /** The receipts are numbered 1 .. head version, and the last one made the head. */
  ghost predicate ReceiptsAreHistory(t: Tables) {
    && (forall v {:trigger ReceiptOk(t, v)} :: v in t.receipts ==> ReceiptOk(t, v))
    && (forall v :: 1 <= v <= HeadVersion(t.head) ==> v in t.receipts)
    && (t.head.Some? ==>
          && t.head.value.version >= 1
          && t.head.value.manifest == t.receipts[t.head.value.version].request.manifest)
  }

  ghost predicate WitnessesHaveReceipts(t: Tables) {
    forall k :: k in t.witnesses ==> TokenOf(t.witnesses[k].request) == k && HasReceipt(t, t.witnesses[k].request)
  }

  ghost predicate RunsAreScheduledOnce(t: Tables) {
    forall a, b :: a in t.runs && b in t.runs && t.runs[a].scheduledFor == t.runs[b].scheduledFor ==> a == b
  }

  /** The delta log holds, for every receipt, exactly the rows between its two manifests, and nothing else. */
  ghost predicate LogIsExact(t: Tables) {
    && (forall id :: id in t.deltas ==>
          id.next == t.deltas[id].next && exists v :: v in t.receipts && t.receipts[v].request.manifest == id.next
                                               && HeadManifest(t.receipts[v].request.expectedHead) ==
                                                 t.deltas[id].prior)
    && (forall v :: v in t.receipts ==>
          var q := t.receipts[v].request;
          StepRows(t.deltas, HeadManifest(q.expectedHead), q.manifest) == StepDeltas(t, q).Values)
  }

  ghost predicate History(t: Tables) {
    ReceiptsAreHistory(t) && WitnessesHaveReceipts(t) && RunsAreScheduledOnce(t) && LogIsExact(t)
  }
}
