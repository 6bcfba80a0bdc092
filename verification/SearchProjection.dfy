/**
 The search projection of one memory: the tables of SEARCH_DB and the batches that change them
 (src/search/indexing.ts, migrations/search/0005_memory_fts_chunk_ledger.sql).

 One owner (generation, project, memory) is fixed, so a table keyed by owner is an `Option`.
 */
module SearchProjection {
  import opened Common
  import opened Unicode

  type RevisionId = string

  /** sha256 over generation, project, revision and chunk id; injective on these inputs. */
  datatype VectorId = VectorId(revision: RevisionId, chunk: nat)

  datatype Head = Head(version: nat, revision: RevisionId, partition: string, chunkCount: nat)

  datatype Lease = Lease(revision: RevisionId, version: nat, partition: string, chunkCount: nat)

  datatype Deletion = Deletion(revision: RevisionId, version: nat, chunkCount: nat)

  datatype Claim = Unclaimed | Claimed(token: nat, expiresAt: nat)

  datatype Tables = Tables(
    head: Option<Head>,
    ledger: set<VectorId>,
    fts: map<VectorId, Text>,
    receipts: map<VectorId, Claim>,
    lease: Option<Lease>,
    deletion: Option<Deletion>)

  const CLEANUP_CLAIM_TTL_MS: nat := 2 * 60 * 60 * 1_000

  function Ids(revision: RevisionId, count: nat): (ids: set<VectorId>)
  {
    set i: nat | i < count :: VectorId(revision, i)
  }

  lemma {:induction false} IdsCount(revision: RevisionId, count: nat)
    ensures |Ids(revision, count)| == count
  {
    if count > 0 {
      IdsCount(revision, count - 1);
      assert Ids(revision, count) == Ids(revision, count - 1) + {VectorId(revision, count - 1)};
    }
  }

  function Rows(revision: RevisionId, chunks: seq<Text>): map<VectorId, Text> {
    map v | v in Ids(revision, |chunks|) :: chunks[v.chunk]
  }

  /** Between batches no write lease is visible, and the head names exactly the ledger and its FTS rows. */
  ghost predicate Consistent(t: Tables) {
    && t.lease == None
    && t.fts.Keys == t.ledger
    && (t.head.None? ==> t.ledger == {})
    && (t.head.Some? ==> t.ledger == Ids(t.head.value.revision, t.head.value.chunkCount))
  }

  ghost predicate RevisionBlocked(t: Tables, revision: RevisionId) {
    || (t.deletion.Some? && t.deletion.value.revision == revision)
    || exists v :: v in t.receipts && v.revision == revision
  }

  predicate Supersedes(version: nat, revision: RevisionId, head: Option<Head>) {
    || head.None?
    || version > head.value.version
    || (version == head.value.version && revision == head.value.revision)
  }

  ghost predicate MayPublish(t: Tables, version: nat, revision: RevisionId) {
    !RevisionBlocked(t, revision) && Supersedes(version, revision, t.head)
  }

  /** What a prior ledger leaves behind: one unclaimed receipt for every row that had none. */
  function WithReceipts(receipts: map<VectorId, Claim>, ids: set<VectorId>): map<VectorId, Claim> {
    map v | v in receipts.Keys + ids :: if v in receipts then receipts[v] else Unclaimed
  }

  /** The publishing batch as one compare-and-swap. */
  ghost function Publish(t: Tables, head: Head, chunks: seq<Text>): Tables {
    if MayPublish(t, head.version, head.revision) then
      t.(head := Some(head),
         receipts := WithReceipts(t.receipts, t.ledger),
         ledger := Ids(head.revision, |chunks|),
         fts := Rows(head.revision, chunks))
    else t
  }

  ghost function QueueUnpublished(t: Tables, candidates: set<VectorId>): Tables {
    t.(receipts := WithReceipts(t.receipts, candidates - t.ledger))
  }

  predicate Claimable(t: Tables, v: VectorId, claimedAt: nat) {
    && v in t.receipts
    && v !in t.ledger
    && (t.receipts[v].Unclaimed? || t.receipts[v].expiresAt <= claimedAt)
  }

  function ClaimReceipts(t: Tables, rows: set<VectorId>, token: nat, claimedAt: nat): Tables {
    t.(receipts := map v | v in t.receipts ::
         if v in rows && Claimable(t, v, claimedAt) then Claimed(token, claimedAt + CLEANUP_CLAIM_TTL_MS)
         else t.receipts[v])
  }

  predicate HoldsClaim(t: Tables, v: VectorId, token: nat) {
    v in t.receipts && t.receipts[v].Claimed? && t.receipts[v].token == token
  }

  predicate CurrentClaim(t: Tables, v: VectorId, token: nat, now: nat) {
    && HoldsClaim(t, v, token)
    && t.receipts[v].expiresAt > now
    && v !in t.ledger
    && !(t.head.Some? && t.head.value.revision == v.revision)
  }

  function ReleaseClaims(t: Tables, token: nat): Tables {
    t.(receipts := map v | v in t.receipts :: if HoldsClaim(t, v, token) then Unclaimed else t.receipts[v])
  }

  /** A published row's receipt goes once nobody claims it; an unpublished one only under a current claim. */
  function Finalized(t: Tables, published: set<VectorId>, claimed: set<VectorId>, token: nat, now: nat)
    : set<VectorId>
  {
    set v | v in t.receipts.Keys &&
            if v in published then t.receipts[v].Unclaimed? && v in t.ledger
            else v in claimed && CurrentClaim(t, v, token, now)
  }

  function FinalizeReceipts(t: Tables, published: set<VectorId>, claimed: set<VectorId>, token: nat, now: nat): Tables {
    ReleaseClaims(t.(receipts := t.receipts - Finalized(t, published, claimed, token, now)), token)
  }

  function BeginDeletion(t: Tables, revision: RevisionId, version: nat, chunkCount: nat): Tables {
    if && t.head.Some? && t.deletion.None?
       && t.head.value.revision == revision && t.head.value.version == version
       && t.head.value.chunkCount == chunkCount
    then t.(deletion := Some(Deletion(revision, version, chunkCount)))
    else t
  }

  predicate IsDeletionOf(d: Deletion, head: Option<Head>) {
    head.Some? && head.value.revision == d.revision && head.value.version == d.version
      && head.value.chunkCount == d.chunkCount
  }

  /** The closing assertion fires when the recorded deletion is not this one and its revision is still projected. */
  predicate FinishAborts(t: Tables, d: Deletion) {
    && !(t.deletion == Some(d) && IsDeletionOf(d, t.head))
    && t.head.Some?
    && t.head.value.revision == d.revision
    && (t.head.value.version == d.version || t.head.value.chunkCount > 0)
  }

  /** Finishing a deletion: the head goes only if it is still the recorded one, the receipt goes either way. */
  function FinishDeletion(t: Tables, d: Deletion): Tables {
    if t.deletion != Some(d) || FinishAborts(t, d) then t
    else if IsDeletionOf(d, t.head) then t.(head := None, ledger := {}, fts := map[], deletion := None)
    else t.(deletion := None)
  }

  /**
   SEARCH_DB. Each method is one D1 batch: its body runs the statements in the order the source lists them, and a
   statement's trigger is written out where it fires.
   */
  class SearchDb {
    var head: Option<Head>
    var ledger: set<VectorId>
    var fts: map<VectorId, Text>
    var receipts: map<VectorId, Claim>
    var lease: Option<Lease>
    var deletion: Option<Deletion>

    ghost function Snapshot(): Tables
      reads this
    {
      Tables(head, ledger, fts, receipts, lease, deletion)
    }

    ghost predicate Valid()
      reads this
    {
      Consistent(Snapshot())
    }

    constructor ()
      ensures Valid() && Snapshot() == Tables(None, {}, map[], map[], None, None)
    {
      head, ledger, fts := None, {}, map[];
      receipts, lease, deletion := map[], None, None;
    }

    /** `commitFtsProjection`: returns whether the head statement changed a row. */
    method CommitFtsProjection(version: nat, revision: RevisionId, partition: string, chunks: seq<Text>)
      returns (accepted: bool)
      requires Valid()
      modifies this
      ensures Valid()
      ensures accepted == old(MayPublish(Snapshot(), version, revision))
      ensures Snapshot() == old(Publish(Snapshot(), Head(version, revision, partition, |chunks|), chunks))
    {
      var exact := Some(Lease(revision, version, partition, |chunks|));
      var blocked := deletion.Some? && deletion.value.revision == revision;
      var queued := set v | v in receipts.Keys && v.revision == revision;
      assert queued != {} <==> exists v :: v in receipts && v.revision == revision by {
        if v :| v in receipts && v.revision == revision { assert v in queued; }
        if queued != {} { var v :| v in queued; assert v in receipts && v.revision == revision; }
      }
      if !blocked && queued == {} && Supersedes(version, revision, head) {
        lease := exact;
      }
      accepted := lease == exact && Supersedes(version, revision, head);
      if accepted {
        head := Some(Head(version, revision, partition, |chunks|));
      }
      if lease == exact {
        receipts := WithReceipts(receipts, ledger);
      }
      if lease == exact {
        fts := fts - ledger;
        ledger := {};
      }
      InsertChunks(revision, chunks, exact);
      IdsCount(revision, |chunks|);
      var unowned := set v | v in ledger && (v.revision != revision || v !in fts);
      if lease == exact && (|ledger| != |chunks| || unowned != {}) {
        assert false;
      }
      if lease == exact {
        lease := None;
      }
      if lease.Some? {
        assert false;
      }
      assert accepted ==> fts == Rows(revision, chunks);
    }

    /** The per-chunk statement pairs: a ledger row, then the FTS row that hangs off it. */
    method InsertChunks(revision: RevisionId, chunks: seq<Text>, exact: Option<Lease>)
      requires lease == exact ==> ledger == {} && fts == map[]
      modifies this`ledger, this`fts
      ensures lease == exact ==> ledger == Ids(revision, |chunks|) && fts == Rows(revision, chunks)
      ensures lease != exact ==> ledger == old(ledger) && fts == old(fts)
    {
      for index := 0 to |chunks|
        invariant lease == exact ==> ledger == Ids(revision, index) && fts == Rows(revision, chunks[..index])
        invariant lease != exact ==> ledger == old(ledger) && fts == old(fts)
      {
        var id := VectorId(revision, index);
        if lease == exact {
          ledger := ledger + {id};
        }
        if id in ledger && lease == exact {
          fts := fts[id := chunks[index]];
        }
        if lease == exact {
          assert fts == Rows(revision, chunks[..index + 1]);
        }
      }
      assert chunks[..|chunks|] == chunks;
    }

    /** `deleteUnpublishedCandidateVectors`: one insert per candidate. */
    method InsertUnpublishedReceipts(candidates: seq<VectorId>)
      requires Valid()
      modifies this`receipts
      ensures Valid()
      ensures Snapshot() == old(QueueUnpublished(Snapshot(), (set v | v in candidates)))
    {
      ghost var before := receipts;
      for k := 0 to |candidates|
        invariant receipts == WithReceipts(before, (set v | v in candidates[..k]) - ledger)
      {
        var candidate := candidates[k];
        if candidate !in ledger && candidate !in receipts {
          receipts := receipts[candidate := Unclaimed];
        }
        assert candidates[..k + 1] == candidates[..k] + [candidate];
      }
      assert candidates[..|candidates|] == candidates;
    }

    /** The claim batch of `cleanupMemorySearchVectorReceiptPage`: one guarded update per row. */
    method ClaimReceiptRows(rows: seq<VectorId>, token: nat, claimedAt: nat) returns (claimed: set<VectorId>)
      requires Valid()
      requires forall i, j :: 0 <= i < j < |rows| ==> rows[i] != rows[j]
      modifies this`receipts
      ensures Valid()
      ensures Snapshot() == old(ClaimReceipts(Snapshot(), (set v | v in rows), token, claimedAt))
      ensures claimed == old(set v | v in rows && Claimable(Snapshot(), v, claimedAt))
    {
      ghost var t := Snapshot();
      claimed := {};
      for k := 0 to |rows|
        invariant receipts.Keys == t.receipts.Keys
        invariant forall v :: v in receipts ==>
          receipts[v] == if v in rows[..k] && Claimable(t, v, claimedAt)
                         then Claimed(token, claimedAt + CLEANUP_CLAIM_TTL_MS) else t.receipts[v]
        invariant forall v :: v in claimed <==> v in rows[..k] && Claimable(t, v, claimedAt)
      {
        var row := rows[k];
        assert row !in rows[..k];
        if && row in receipts
           && (receipts[row].Unclaimed? || receipts[row].expiresAt <= claimedAt)
           && row !in ledger
        {
          receipts := receipts[row := Claimed(token, claimedAt + CLEANUP_CLAIM_TTL_MS)];
          claimed := claimed + {row};
        }
        assert rows[..k + 1] == rows[..k] + [row];
      }
      assert rows[..|rows|] == rows;
    }

    /** The finalizing batch: one guarded delete per row, then the token's remaining claims are released. */
    method FinalizeReceiptRows(rows: seq<VectorId>, published: set<VectorId>, claimed: set<VectorId>,
                               token: nat, now: nat)
      requires Valid()
      requires forall v :: v in published || v in claimed <==> v in rows
      modifies this`receipts
      ensures Valid()
      ensures Snapshot() == old(FinalizeReceipts(Snapshot(), published, claimed, token, now))
    {
      ghost var t := Snapshot();
      for k := 0 to |rows|
        invariant receipts ==
          t.receipts - (set v | v in Finalized(t, published, claimed, token, now) && v in rows[..k])
      {
        var row := rows[k];
        var guarded :=
          if row in published then row in receipts && receipts[row].Unclaimed? && row in ledger
          else && row in receipts && receipts[row].Claimed? && receipts[row].token == token
               && receipts[row].expiresAt > now && row !in ledger
               && !(head.Some? && head.value.revision == row.revision);
        if guarded {
          receipts := receipts - {row};
        }
        assert rows[..k + 1] == rows[..k] + [row];
      }
      assert (set v | v in Finalized(t, published, claimed, token, now) && v in rows[..|rows|])
          == Finalized(t, published, claimed, token, now);
      receipts := map v | v in receipts ::
        if receipts[v].Claimed? && receipts[v].token == token then Unclaimed else receipts[v];
    }

    method ReleaseCleanupClaims(token: nat)
      requires Valid()
      modifies this`receipts
      ensures Valid() && Snapshot() == old(ReleaseClaims(Snapshot(), token))
    {
      receipts := map v | v in receipts ::
        if receipts[v].Claimed? && receipts[v].token == token then Unclaimed else receipts[v];
    }

    /** The guarded insert of a deletion receipt; the chunk counts are re-checked against the ledger. */
    method InsertDeletion(revision: RevisionId, version: nat, chunkCount: nat)
      requires Valid()
      modifies this`deletion
      ensures Valid() && Snapshot() == old(BeginDeletion(Snapshot(), revision, version, chunkCount))
    {
      if head.Some? && head.value.revision == revision && head.value.version == version
         && head.value.chunkCount == chunkCount
      {
        IdsCount(revision, chunkCount);
        var unowned := set v | v in ledger && (v.revision != revision || v !in fts);
        if |ledger| == chunkCount && unowned == {} && deletion.None? {
          deletion := Some(Deletion(revision, version, chunkCount));
        }
      }
    }

    /** The finishing batch of `deleteMemorySearchProjection`, with the cascade and the triggers on head deletion. */
    method FinishProjectionDeletion(d: Deletion) returns (aborted: bool)
      requires Valid()
      modifies this
      ensures Valid() && Snapshot() == old(FinishDeletion(Snapshot(), d))
      ensures aborted == old(FinishAborts(Snapshot(), d))
    {
      var headBefore, ledgerBefore, ftsBefore, deletionBefore := head, ledger, fts, deletion;
      if IsDeletionOf(d, head) && deletion == Some(d) {
        IdsCount(head.value.revision, head.value.chunkCount);
        if head.value.chunkCount != |ledger| {
          assert false;
        }
        fts := fts - ledger;
        ledger := {};
        head := None;
        deletion := None;
        lease := None;
      }
      var stillHead := head.Some? && head.value.revision == d.revision && head.value.version == d.version;
      if deletion == Some(d) && !stillHead {
        deletion := None;
      }
      var leftover := set v | v in ledger && v.revision == d.revision;
      assert head.Some? && head.value.revision == d.revision && head.value.chunkCount > 0
        ==> VectorId(d.revision, 0) in leftover;
      aborted := deletion == Some(d) || stillHead || leftover != {};
      if aborted {
        head, ledger, fts, deletion := headBefore, ledgerBefore, ftsBefore, deletionBefore;
      }
    }
  }
}
