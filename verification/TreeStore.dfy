/** The activation and purge batches, statement by statement. */
module TreeStore {
  import opened Common
  import opened TreeDelta
  import opened TreeManifest

  lemma {:induction false} ReceiptsEndAtHead(t: Tables)
    requires ReceiptsAreHistory(t)
    ensures forall v :: v in t.receipts ==> 1 <= v <= HeadVersion(t.head)
  {
    forall v | v in t.receipts ensures 1 <= v <= HeadVersion(t.head) {
      assert ReceiptOk(t, v);
    }
  }

  lemma {:induction false} ReceiptsDiffer(t: Tables, q: Request, now: Time)
    requires History(t) && Prestate(t, q, now)
    ensures !ReceiptClashes(t, q)
    ensures TokenOf(q) !in t.witnesses
    ensures forall k :: k in t.witnesses ==> t.witnesses[k].request.run != q.run
    ensures forall id :: id in t.deltas ==> id.next == t.deltas[id].next != q.manifest
  {
    ReceiptsEndAtHead(t);
    forall v | v in t.receipts
      ensures t.receipts[v].request.run != q.run && t.receipts[v].request.manifest != q.manifest
    {
      assert ReceiptOk(t, v);
    }
    forall k | k in t.witnesses ensures t.witnesses[k].request.run != q.run {
      assert HasReceipt(t, t.witnesses[k].request);
    }
  }

  lemma {:induction false} ReceiptBlocksActivation(t: Tables, q: Request, now: Time)
    requires History(t) && HasReceipt(t, q)
    ensures !MayActivate(t, q, now)
  {
    assert ReceiptClashes(t, q) by {
      var v :| v in t.receipts && t.receipts[v].request == q;
      assert Shares(t.receipts[v].request, q);
    }
    if Prestate(t, q, now) {
      ReceiptsDiffer(t, q, now);
    }
  }

  /**
   What the history leaves to know about a request: a fresh one meets none of its unique keys, a replayed one does.
   */
  ghost predicate FreshOrDone(t: Tables, q: Request, now: Time) {
    && (Prestate(t, q, now) ==>
          !ReceiptClashes(t, q) && TokenOf(q) !in t.witnesses && forall id :: id in t.deltas ==> id.next != q.manifest)
    && (Witnessed(t, q) ==> ReceiptClashes(t, q) && !RunAsClaimed(t, q, now))
  }

  lemma {:induction false} HistoryDecides(t: Tables, q: Request, now: Time)
    requires History(t)
    ensures FreshOrDone(t, q, now)
  {
    if Prestate(t, q, now) {
      ReceiptsDiffer(t, q, now);
    }
    if Witnessed(t, q) {
      assert HasReceipt(t, t.witnesses[TokenOf(q)].request);
      var v :| v in t.receipts && t.receipts[v].request == q;
      assert ReceiptOk(t, v);
    }
  }

  lemma {:induction false} PrestateIgnoresWitness(t: Tables, q: Request, now: Time, witnesses: map<Token, Witness>)
    ensures Prestate(t.(witnesses := witnesses), q, now) == Prestate(t, q, now)
  {
  }

  lemma {:induction false} ClosingInsertFresh(t: Tables, recorded: Tables, q: Request, at: Time, now: Time)
    requires Prestate(t, q, now)
    requires recorded == t.(witnesses := recorded.witnesses, deltas := recorded.deltas, outbox := recorded.outbox)
    requires TokenOf(q) in recorded.witnesses && recorded.witnesses[TokenOf(q)] == Witness(q, at)
    requires q.event in recorded.outbox && recorded.outbox[q.event] == q.payload
    ensures FinalState(Advanced(recorded, q, at), q, at) <==> t.manifests[q.manifest].observedSha == q.observedSha
  {
    var advanced := Advanced(recorded, q, at);
    assert ManifestEligible(advanced, q);
  }

  lemma {:induction false} SameReceiptsClash(t: Tables, u: Tables, q: Request)
    requires t.receipts == u.receipts
    ensures ReceiptClashes(t, q) <==> ReceiptClashes(u, q)
  {
  }

  /** The closing insert succeeds exactly when every statement before it applied. */
  lemma {:induction false} ClosingInsert(t: Tables, recorded: Tables, advanced: Tables, q: Request, at: Time, now: Time)
    requires FreshOrDone(t, q, now)
    requires HeadManifest(q.expectedHead) != Some(q.manifest)
    requires Prestate(t, q, now) ==> OutboxCompatible(t, q)
    requires recorded == if Prestate(t, q, now) then Recorded(t, q, at) else t
    requires (Prestate(recorded, q, now) && Witnessed(recorded, q)) ==> advanced == Advanced(recorded, q, at)
    requires (!Witnessed(recorded, q) || !RunAsClaimed(recorded, q, now)) ==> advanced == recorded
    ensures MayActivate(t, q, now) <==> !ReceiptClashes(advanced, q) && FinalState(advanced, q, at)
    ensures advanced == if Prestate(t, q, now) then Advanced(Recorded(t, q, at), q, at) else t
  {
    if Prestate(t, q, now) {
      assert Prestate(recorded, q, now) && Witnessed(recorded, q);
      assert advanced == Advanced(recorded, q, at);
      ClosingInsertFresh(t, recorded, q, at, now);
      SameReceiptsClash(t, advanced, q);
    } else {
      assert advanced == t;
    }
  }

  lemma {:induction false} KindsOfStatements(prior: ManifestId, next: ManifestId, before: Entries, after: Entries)
    ensures forall id :: id in ChangedRows(prior, next, before, after) ==> id.kind == Changed && id.next == next
    ensures forall id :: id in WithdrawnRows(prior, next, before, after) ==> id.kind == Withdrawn && id.next == next
    ensures forall id :: id in DeletedRows(prior, next, before, after) ==> id.kind == Deleted && id.next == next
  {
  }

  lemma {:induction false} MapUnion(l: DeltaTable, a: DeltaTable, c: DeltaTable, w: DeltaTable, d: DeltaTable)
    ensures l + a + c + w + d == l + (a + c + w + d)
  {
  }

  class TreeDb {
    var manifests: map<ManifestId, Manifest>
    var repository: Repository
    var head: Option<Head>
    var cursor: Cursor
    var runs: map<RunId, SyncRun>
    var witnesses: map<Token, Witness>
    var deltas: DeltaTable
    var outbox: map<nat, Digest>
    var receipts: map<nat, Receipt>
    var chunks: seq<PurgedChunk>

    function Snapshot(): Tables
      reads this
    {
      Tables(manifests, repository, head, cursor, runs, witnesses, deltas, outbox, receipts, chunks)
    }

    constructor (repository: Repository, cursor: Cursor)
      ensures Snapshot() == Tables(map[], repository, None, cursor, map[], map[], map[], map[], map[], [])
      ensures History(Snapshot())
    {
      this.repository, this.cursor := repository, cursor;
      manifests, head, runs, witnesses := map[], None, map[], map[];
      deltas, outbox, receipts, chunks := map[], map[], map[], [];
    }

    /** `INSERT ... ON CONFLICT(delta_id) DO UPDATE`: deltas are immutable, so meeting an old row aborts. */
    method InsertDeltas(rows: DeltaTable) returns (ok: bool)
      modifies this`deltas
      ensures ok <==> old(deltas).Keys * rows.Keys == {}
      ensures deltas == if ok then old(deltas) + rows else old(deltas)
    {
      ok := deltas.Keys * rows.Keys == {};
      if ok {
        deltas := deltas + rows;
      }
    }

    /** The delta statements of `activateGitHubTreeManifest`: three of the four need an expected head. */
    method InsertStepDeltas(prior: Option<ManifestId>, next: ManifestId, before: Entries, after: Entries)
      returns (ok: bool)
      requires forall id :: id in deltas ==> id.next != next
      modifies this`deltas
      ensures ok && deltas == old(deltas) + DeltaRows(prior, next, before, after)
    {
      var added := AddedRows(prior, next, before, after);
      AddedStatement(prior, next, before, after);
      ok := InsertDeltas(added);
      if prior.Some? {
        ok := InsertLaterDeltas(added, prior.value, next, before, after);
        MapUnion(old(deltas), added, ChangedRows(prior.value, next, before, after),
                 WithdrawnRows(prior.value, next, before, after), DeletedRows(prior.value, next, before, after));
      }
    }

    method InsertLaterDeltas(ghost added: DeltaTable, prior: ManifestId, next: ManifestId, before: Entries,
      after: Entries)
      returns (ok: bool)
      requires forall id :: id in deltas ==> id.next != next || id.kind == Added
      modifies this`deltas
      ensures ok
      ensures deltas == old(deltas) + ChangedRows(prior, next, before, after)
                        + WithdrawnRows(prior, next, before, after) + DeletedRows(prior, next, before, after)
    {
      var changed, withdrawn := ChangedRows(prior, next, before, after), WithdrawnRows(prior, next, before, after);
      var deleted := DeletedRows(prior, next, before, after);
      KindsOfStatements(prior, next, before, after);
      ok := InsertDeltas(changed);
      var more := InsertDeltas(withdrawn);
      ok := ok && more;
      more := InsertDeltas(deleted);
      ok := ok && more;
    }

    /** Head, cursor and run statements: each repeats the fence, so they all apply or none does. */
    method AdvanceRef(q: Request, at: Time, now: Time)
      modifies this`head, this`cursor, this`runs
      ensures old(Prestate(Snapshot(), q, now) && Witnessed(Snapshot(), q)) ==>
        Snapshot() == old(Advanced(Snapshot(), q, at))
      ensures old(!Witnessed(Snapshot(), q) || !RunAsClaimed(Snapshot(), q, now)) ==> Snapshot() == old(Snapshot())
    {
      if Prestate(Snapshot(), q, now) && Witnessed(Snapshot(), q) && head == q.expectedHead {
        head := Some(NextHead(q));
      }
      if && CursorAsExpected(cursor, q) && RepositoryAsExpected(repository, q)
         && RunAsClaimed(Snapshot(), q, now) && Witnessed(Snapshot(), q) && head == Some(NextHead(q))
      {
        cursor := ObservedCursor(q, at);
      }
      if && RunAsClaimed(Snapshot(), q, now) && Witnessed(Snapshot(), q)
         && repository.enabled && repository.configurationVersion == q.configurationVersion
         && repository.updatedAt == q.repositoryUpdatedAt && head == Some(NextHead(q))
         && cursor.observedSha == Some(q.observedSha) && cursor.status == Observed
         && cursor.updatedAt == at && cursor.version == q.cursorVersion + 1
      {
        runs := runs[q.run := runs[q.run].(status := Finished, completedAt := Some(at))];
      }
    }

    /** The closing insert: unique keys first, then the trigger on the final state. */
    method InsertReceipt(q: Request, at: Time) returns (ok: bool)
      modifies this`receipts
      ensures ok == old(!ReceiptClashes(Snapshot(), q) && FinalState(Snapshot(), q, at))
      ensures receipts == if ok then old(receipts)[NextHead(q).version := Receipt(q, at)] else old(receipts)
    {
      var clashing := set v | v in receipts.Keys && Shares(receipts[v].request, q);
      assert clashing != {} <==> (exists v :: v in receipts && Shares(receipts[v].request, q)) by {
        if v :| v in receipts && Shares(receipts[v].request, q) {
          assert v in clashing;
        }
        if clashing != {} { var v :| v in clashing; assert v in receipts; }
      }
      ok := NextHead(q).version !in receipts && clashing == {} && FinalState(Snapshot(), q, at);
      if ok {
        receipts := receipts[NextHead(q).version := Receipt(q, at)];
      }
    }

    /** Witness, delta and outbox statements; the later ones repeat the prestate and want the witness too. */
    method RecordStep(q: Request, at: Time, now: Time) returns (ok: bool)
      requires FreshOrDone(Snapshot(), q, now) && HeadManifest(q.expectedHead) != Some(q.manifest)
      modifies this`witnesses, this`deltas, this`outbox
      ensures ok == old(Prestate(Snapshot(), q, now) ==> OutboxCompatible(Snapshot(), q))
      ensures ok ==> Snapshot() == old(if Prestate(Snapshot(), q, now) then Recorded(Snapshot(), q, at) else Snapshot())
    {
      ghost var t := Snapshot();
      if Prestate(Snapshot(), q, now) {
        witnesses := witnesses[TokenOf(q) := Witness(q, at)];
      }
      ok := true;
      if Prestate(Snapshot(), q, now) && Witnessed(Snapshot(), q) {
        assert Prestate(t, q, now) by { PrestateIgnoresWitness(t, q, now, witnesses); }
        var prior := HeadManifest(q.expectedHead);
        ok := InsertStepDeltas(prior, q.manifest, EntriesOf(Snapshot(), prior),
          EntriesOf(Snapshot(), Some(q.manifest)));
        assert deltas == t.deltas + StepDeltas(t, q);
        if q.event in outbox && outbox[q.event] != q.payload {
          ok := false;
        } else {
          outbox := outbox[q.event := q.payload];
        }
      }
    }

    /** An abort: the transaction leaves every table as it was. */
    method Abort(t: Tables)
      modifies this
      ensures Snapshot() == t
    {
      manifests, repository, head, cursor, runs := t.manifests, t.repository, t.head, t.cursor, t.runs;
      witnesses, deltas, outbox, receipts, chunks := t.witnesses, t.deltas, t.outbox, t.receipts, t.chunks;
    }

    /** The activation batch. */
    method ActivateBatch(q: Request, at: Time, now: Time) returns (committed: bool)
      requires History(Snapshot())
      modifies this
      ensures committed == old(MayActivate(Snapshot(), q, now))
      ensures Snapshot() == old(if MayActivate(Snapshot(), q, now) then Activated(Snapshot(), q, at) else Snapshot())
    {
      var t := Snapshot();
      if HeadManifest(q.expectedHead) == Some(q.manifest) {
        return false;
      }
      HistoryDecides(t, q, now);
      committed := RecordStep(q, at, now);
      if committed {
        ghost var recorded := Snapshot();
        AdvanceRef(q, at, now);
        ClosingInsert(t, recorded, Snapshot(), q, at, now);
        committed := InsertReceipt(q, at);
      }
      if !committed {
        Abort(t);
      }
    }

    /** `activateGitHubTreeManifest`: a request that has its receipt succeeds again without doing anything. */
    method ActivateManifest(q: Request, at: Time, now: Time) returns (ok: bool)
      requires History(Snapshot())
      modifies this
      ensures ok == old(HasReceipt(Snapshot(), q) || MayActivate(Snapshot(), q, now))
      ensures Snapshot() == old(if MayActivate(Snapshot(), q, now) then Activated(Snapshot(), q, at) else Snapshot())
    {
      ghost var t := Snapshot();
      var done := FindReceipt(q);
      if done {
        ReceiptBlocksActivation(t, q, now);
        return true;
      }
      ok := ActivateBatch(q, at, now);
      if !ok {
        ok := FindReceipt(q);
      }
    }

    method FindReceipt(q: Request) returns (found: bool)
      ensures found == HasReceipt(Snapshot(), q)
    {
      found := exists v :: v in receipts.Keys && receipts[v].request == q;
    }

    /** One chunk of `purgeClaimedManifestEntries`: log first, then delete what the log names. */
    method PurgeChunkBatch(k: PurgeClaim, paths: set<Path>, now: Time)
      requires forall i, j :: 0 <= i < j < |chunks| ==> chunks[i] != chunks[j]
      modifies this`manifests, this`chunks
      ensures Snapshot() == old(PurgeChunk(Snapshot(), k, paths, now))
    {
      if k.manifest in manifests {
        var m := manifests[k.manifest];
        var references := set id | id in deltas.Keys
          && (deltas[id].prior == Some(k.manifest) || deltas[id].next == k.manifest);
        assert references != {} <==> DeltaReferenced(Snapshot(), k.manifest) by {
          if id :| id in deltas && (deltas[id].prior == Some(k.manifest) || deltas[id].next == k.manifest) {
            assert id in references;
          }
          if references != {} { var id :| id in references; assert id in deltas; }
        }
        var current :=
          && m.status == Purging && m.purgeToken == k.token
          && m.retentionVersion == k.version && m.retentionAttempt == k.attempt
          && m.leaseUntil > now && now >= m.failedAt + FAILED_RETENTION_MS
          && !(head.Some? && head.value.manifest == k.manifest) && references == {};
        var event := PurgedChunk(k.manifest, k.version, paths);
        var selected := set p | p in paths && p in m.entries;
        var counted := |selected| == |paths|;
        assert counted <==> paths <= m.entries.Keys by {
          SelectedCount(selected, paths);
        }
        if current && counted {
          if event in chunks {
            return;
          }
          chunks := chunks + [event];
        }
        if current && event in chunks {
          manifests := manifests[k.manifest := m.(entries := m.entries - paths)];
        }
      }
    }
  }

  lemma {:induction false} SelectedCount(selected: set<Path>, paths: set<Path>)
    requires selected <= paths
    ensures |selected| == |paths| <==> selected == paths
  {
    if selected != paths {
      assert |selected| + |paths - selected| == |paths| by { assert paths == selected + (paths - selected); }
      assert paths - selected != {};
    }
  }
}
