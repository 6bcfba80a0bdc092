# EdgeMneme: protocols and transformations, modelled and proved

EdgeMneme keeps a project's memories in transactional tables and publishes them to a search index, a vector index and
immutable snapshots. Many workers act on the same rows at once, a response can be lost after its commit, and the same
job can be delivered twice. This project models the parts where that matters and proves what the system relies on.

How the models are built:

- A table is a map or a set; a `batch([...])` of statements is one atomic step that sees one clock reading. Unique keys,
  foreign keys, checks and triggers are those of `migrations/`. An abort leaves every table as it was.
- Each protocol has a class whose methods send the statements in the source's order and are proved equal to a
  specification function, and a transition system in which the steps of any number of workers interleave. Theorems hold
  for every event sequence. Losing a response is the worker not seeing the result of a step that took effect.
- SHA-256 and derived identifiers are injective constructors, or any function where that is enough. ISO timestamps are integers on one clock. Versions and
  epochs are unbounded naturals.

Modules:

| file | content |
|---|---|
| Common, Chunking | shared types; lossless greedy chunking |
| SearchProjection, SearchProtocol | ledger, heads, receipts and claims; publishers, cleaners and deleters against the vector index |
| SearchResults, SearchAccounts, SearchClaims, SearchHazards | what the search projection promises, that no vector is forgotten, who may clean a row, and the exact conditions with a run for each |
| TreeDelta, TreeManifest, TreeStore, TreeProtocol, TreeResults | GitHub tree manifests: four-way deltas, fenced activation, audited purge |
| TreeLeases, TreeCollections, TreePurges | exactly when a run is claimed, an activation commits, and a manifest begins, completes, fails and is purged |
| CommitStore, CommitPlans, CommitPromotion, CommitProtocol, CommitResults | formal memory commits: guarded statement lists as one compare-and-swap |
| CommitRecords | what decisions, revisions and stored answers say about the commits that made them |
| Consolidation, ConsolidationStore, ConsolidationProtocol, ConsolidationLeases | session consolidation: lease, batch receipts, completion |
| CredentialLane, LaneProtocol, LaneLeases | credential lease and request budget |
| RetentionScan | rotating scan over retention candidates |
| SnapshotActivation | create-once objects and snapshot activation |
| Ordering, ProjectionPaths, ProjectionEnvelope | stable sorting; keys of encoded segments; Markdown objects and how they are read back |
| SnapshotInput, SnapshotPlan, SnapshotBuilder | input checks, the specified write plan, and the builder |
| SnapshotCheck, SnapshotKeys, SnapshotResults, SnapshotHazards | the validator, and exactly which built plans it accepts |
| SnapshotIndexes, SnapshotEntries, SnapshotTables | what the files of a built plan say when they are read back |
| JsonText, JsonStrings, JsonNumbers, CanonicalJson, CanonicalKeys | canonical JSON, strings and numbers included |
| VectorFilters, VectorPlans, VectorTexts | hard filter against bounded vector filters, and the sizes of their texts |
| LinkHeader, LinkForms | Link header grammar, its parser in both directions, and the pages a client visits |
| ContextPack, ExactRecall, KeysetPaging | token budgets, split recall, keyset listing |

## Findings

- The lifetime of a cleanup claim does not protect a published vector by itself. If a cleaner releases its claim after
  an ambiguous `deleteByIds` (`src/search/indexing.ts:857-866`), another one can finish the row and the revision can be
  published again before the first delete arrives, still within the two hours of its claim.
  `SearchHazards.SafeIffCareful` states exactly what is needed: an index that applies no delete after a later
  acknowledged upsert, cleaners that issue their delete at the moment of the check or within the claim's lifetime, and
  removers that issue theirs while the deletion is recorded. For each there is a run that loses a row without it. A row
  can be missing between the commit and the second upsert even then; that is what the second upsert is for.
- Of the three checks of a claim the first one is what protects a cleaner that issues its delete at once. The other two
  only end a hopeless cleanup early: `SearchResults.FailedCheckIsFinal` shows that a claim found lost never becomes
  current again, so the guard of the finalizing batch alone keeps receipts safe.
- A candidate found to be noop can keep an open review request: when two analyses of one queued candidate overlap and
  disagree, the second still inserts its request (`src/workflows/quality.ts:391-416`). `CommitResults.NoopRequestIsLate`
  says exactly when, `CommitResults.LateAnalysisHappens` gives the smallest run. A reviewable candidate's request is
  open in every run, so decision batches are not affected.
- Two reservations made at once under one lane token can both be granted the same block, because the second count is
  compared with the expected sum and not with whose update made it (`src/github/sync-workflow.ts:497-528`).
  `LaneProtocol.EqualOverlapGrantsTwice` shows it from every reachable state. `LaneProtocol.OverlapGrantsTwiceIff` says
  exactly which overlaps are harmful: those where a reservation's goal is already the stored count, or where one of the
  two has read the stored count and both have the same goal. All others are harmless in every order.
  `LaneProtocol.GrantsAreCounted` holds with one reservation at a time for each token, and
  `LaneProtocol.CountStaysInBudget` always.
- The validator refuses some plans of its own builder, because it takes every key that includes `/objects/` or
  `/revisions/` for a memory object (`src/projection/validation.ts:234-237`) and finds the checksum with a multi-line
  expression, for which U+2028 and U+2029 end a line although they are not escaped in quoted identifiers.
  `SnapshotResults.BuiltPlanIsValidIff` says exactly when; `SnapshotHazards.ReservedProjectFails` and
  `SnapshotHazards.ForgedChecksumFails` are inputs of both kinds.
- A review or promotion batch would be torn if its candidate were reviewable without an open request.
  `CommitPlans.ReviewIsAllOrNothing` and `CommitPromotion.PromotionIsAllOrNothing` state exactly when;
  `CommitResults.EveryBatchIsAllOrNothing` shows that no run gets there. A stale plan is stopped by the foreign key from
  the idempotency record to the audit event, even where its last guards would hold.

## Model

| member | source | states |
|---|---|---|
| Chunking.ChunkMemoryContent | src/search/chunking.ts:3-27 | refuses only empty content; otherwise lossless, each chunk at most 4,000 bytes and as full as the next code point allows |
| Chunking.ChunksAreGreedy | src/search/chunking.ts:3-27 | the chunks satisfy the promised properties for every text |
| Chunking.GreedyChunkingUnique | src/search/chunking.ts:3-27 | those properties determine the chunks |
| Chunking.SelectionFindsWrittenChunk | src/search/chunking.ts:29-47 | selection answers exactly for the identifiers the projection writes, with the chunk written |
| SearchProjection.SearchDb.CommitFtsProjection | src/search/indexing.ts:361-648 | the publishing batch replaces head, ledger and FTS rows together or leaves everything, and leaves no lease |
| SearchProjection.SearchDb.InsertUnpublishedReceipts | src/search/indexing.ts:1025-1093 | exactly the candidates that are not published get a receipt, once |
| SearchProjection.SearchDb.ClaimReceiptRows | src/search/indexing.ts:773-823 | exactly the free or expired receipts of rows that are unpublished get the claim |
| SearchProjection.SearchDb.FinalizeReceiptRows | src/search/indexing.ts:868-938 | a claim's receipts go only while the claim holds and the rows stay unpublished |
| SearchProjection.SearchDb.ReleaseCleanupClaims | src/search/indexing.ts:941-955 | exactly the claims of the token are given up |
| SearchProjection.SearchDb.InsertDeletion | src/search/indexing.ts:1146-1200 | a deletion is recorded only for the exact head with its whole ledger, and only the first one |
| SearchProjection.SearchDb.FinishProjectionDeletion | src/search/indexing.ts:1223-1299 | removes head, ledger and FTS rows of exactly the recorded deletion |
| SearchProtocol.RunsKeepInv | src/search/indexing.ts:144-359 | every interleaving of publishers, cleaners, deleters and the index keeps the invariants of both stores, whatever index and pace are trusted with |
| SearchResults.CleanupNeverDeletesPublishedRow | src/search/indexing.ts:778-939 | under careful trust no delete under way names a row of a returned publication, whatever the tables say when it is applied |
| SearchResults.ReturnedPublicationStaysIndexed | src/search/indexing.ts:330-358 | under careful trust, after publish returned true all ledger rows are in the vector index until retired |
| SearchResults.HeadMeansExactProjection | src/search/indexing.ts:361-648 | a head means the ledger is chunk-0 .. chunk-(n-1) with matching FTS text, and no lease outlives its batch |
| SearchResults.HeadOnlyAdvances | src/search/indexing.ts:375-440 | a head's version never decreases and its revision never changes at an equal version |
| SearchResults.ReceiptGoesUnderOneClaim | src/search/indexing.ts:824-939 | an unpublished row loses its receipt only to one cleaner whose claim was current without a break from when it saw the vector absent |
| SearchResults.FailedCheckIsFinal | src/search/indexing.ts:957-1008 | a claim that a check finds lost, expired or overtaken never becomes current again in any run |
| SearchAccounts.CommitPublishes | src/search/indexing.ts:361-440 | in every run a commit is accepted if and only if its revision is neither being deleted nor still has receipts and its version advances; it then is the head, otherwise nothing changes |
| SearchAccounts.LeavingRowHasReceipt | src/search/indexing.ts:458-468 | a row that leaves the ledger has a receipt afterwards unless its recorded deletion is finished, and a receipt it had keeps its claim |
| SearchAccounts.DiscardedHaveReceipts | src/search/indexing.ts:1025-1093 | a publisher that gives up leaves none of its vectors without head or receipt |
| SearchAccounts.NoRowIsForgotten | src/search/indexing.ts:824-939 | every row that was ever in the ledger is in it, has a receipt, was retired under its recorded deletion, or was seen absent by one unbroken claim |
| SearchClaims.ClaimsIffFree | src/search/indexing.ts:778-823 | a cleaner gets exactly the rows of its page it did not see published, that are not published, and whose receipt nobody holds; for two hours, and no other receipt changes |
| SearchClaims.LiveClaimStays | src/search/indexing.ts:778-955 | a claim stays its holder's until it expires, whatever others do, unless the holder ends its work |
| SearchClaims.FinalizesOwn | src/search/indexing.ts:868-938 | a finalizing cleaner removes unclaimed receipts of rows it found published and its own while the claim lives, gives up the rest of its claims, and touches no other receipt |
| SearchClaims.RecordsDeletionIff | src/search/indexing.ts:1146-1200 | a deletion is recorded if and only if none is and it names the head as it is |
| SearchClaims.FinishesOwnDeletion | src/search/indexing.ts:1223-1299 | in every run finishing removes head, ledger and texts if the recorded deletion is this one and the head still of its revision, the record alone if the head has moved on, otherwise nothing |
| SearchHazards.SafeIffCareful | src/search/indexing.ts:707-718 | returned publications stay whole in all runs if and only if the index keeps deletes before later upserts, cleaners issue deletes at once or within the claim lifetime, and removers while their record exists |
| SearchHazards.LateDeleteLosesRow | src/search/indexing.ts:852-866 | a run that loses a row although the delete arrives within the lifetime of its claim, the claim having been released after an ambiguous answer |
| SearchHazards.LateIssueLosesRow | src/search/indexing.ts:826-836 | a run that loses a row to a cleaner that stalls between its check and its delete |
| SearchHazards.LateRemoverLosesRow | src/search/indexing.ts:1212-1222 | a run that loses a row to a remover whose deletion another one has finished |
| TreeDelta.DeltaRowsCoverDifferences | src/github/tree-manifest-sql.ts:3-103 | the four statements give each path whose blob or disposition differs exactly one row with both sides, and no other path any |
| TreeDelta.ReplayReachesNewTree | src/github/tree-manifest-sql.ts:3-103 | replaying a step's rows turns the old tree into the new one |
| TreeDelta.DeltaRowsNamePaths | src/github/tree-manifest-sql.ts:3-103 | a row carries the new manifest's path name, a deleted one the old name, and what is withdrawn is no longer named |
| TreeStore.TreeDb.ActivateBatch | src/github/tree-manifest.ts:498-975 | the batch commits exactly under the fence, with witness, deltas, outbox, head, cursor, run and receipt together, and otherwise changes nothing |
| TreeStore.TreeDb.ActivateManifest | src/github/tree-manifest.ts:372-1011 | a request with its receipt succeeds again without effect |
| TreeStore.ReceiptBlocksActivation | migrations/0017_github_sync_activation_receipts.sql:320-466 | a committed request can never commit again |
| TreeStore.TreeDb.PurgeChunkBatch | src/github/tree-manifest-purge.ts:100-250 | one chunk is logged and then dropped under the repeated guard |
| TreeProtocol.ChunkIsAllOrNothing | src/github/tree-manifest-purge.ts:113-250 | in reachable states a chunk logs and drops all its paths or does nothing |
| TreeResults.ChunksAreDistinct | src/github/tree-manifest-purge.ts:105-130 | in every run no chunk is logged twice, as the log table requires |
| TreeProtocol.RunsKeepInv | src/github/tree-manifest.ts:169-370 | every interleaving keeps receipts, witnesses, delta log and purge accounts consistent |
| TreeResults.LogReplaysToHead | src/github/tree-manifest.ts:640-830 | in every run the delta log of versions 1 .. n replayed from nothing is the head's tree |
| TreeResults.StepRaisesVersion | src/github/tree-manifest.ts:830-975 | the version rises by exactly one, with its receipt, and only on a commit |
| TreeResults.OneCommitPerExpectedHead | src/github/sync-activation-fence.ts:28-178 | of all activations expecting one head at most one commits |
| TreeResults.ReplayHasNoEffect | src/github/tree-manifest.ts:1013-1075 | a committed request keeps its receipt and changes nothing when sent again |
| TreeResults.ReferencedNeverLosesEntries | migrations/0011_github_tree_manifests.sql:761-798 | complete, head or delta-referenced manifests keep every entry, and are free of partial ones |
| TreeResults.RemainingPlusLoggedIsConstant | src/github/tree-manifest-purge.ts:51-269 | remaining plus logged entries are constant once a manifest is frozen |
| TreeResults.PurgedMeansLoggedOnce | src/github/tree-manifest-purge.ts:269-352 | purged means empty, and every frozen entry logged in exactly one chunk |
| TreeLeases.CommitsIffClaimHolds | src/github/sync-activation-fence.ts:28-178 | in every run an activation commits if and only if its run was claimed earlier, its lease still runs, it has not ended, head, configuration and cursor are as at the claim, the manifest is ready and its event not recorded differently |
| TreeLeases.ClaimsIffNoneLives | workers/github-sync/index.ts:2332-2373 | a run is claimed if and only if neither it nor its schedule was claimed before and every earlier claim has ended or outlived its lease |
| TreeLeases.LaterClaimEndsEarlier | src/github/sync-activation-fence.ts:94-96 | once a later run has been claimed, the earlier one never commits |
| TreeLeases.CommitRecords | src/github/tree-manifest.ts:830-975 | after a commit the cursor holds the observed commit, the run's schedule as last sync and the next one asked for, one version up |
| TreeCollections.BeginsIff | src/github/tree-manifest.ts:169-201 | a manifest begins, empty, if and only if neither its identifier nor its collection key is taken |
| TreeCollections.PersistAdds | src/github/tree-manifest.ts:203-241 | entries are added only during collection, and one once stored is never replaced |
| TreeCollections.SealsIff | src/github/tree-manifest.ts:281-346 | a manifest completes if and only if somebody has read it, nothing was added since and no entry is partial; what is frozen is what is stored although only numbers are compared |
| TreeCollections.FailsIff | src/github/tree-manifest-retention.ts:96-237 | a manifest fails if and only if somebody has read it and nothing was added since |
| TreeCollections.TakesIff | src/github/tree-manifest-retention.ts:587-680 | a purge is claimed if and only if the manifest is as the claimer read it, failed thirty days ago or earlier, due, held by nobody and unused, for half an hour at most |
| TreeCollections.DropsIff | src/github/tree-manifest-purge.ts:100-250 | a chunk is logged and dropped if and only if its claim holds, the manifest is unused and all its paths are there |
| TreeCollections.EndsIff | src/github/tree-manifest-purge.ts:269-352 | a manifest is purged if and only if its claim holds, it is unused and no entry is left |
| TreeCollections.DefersIff | src/github/tree-manifest-purge.ts:20-49 | only the claim that holds a manifest puts its purge off, to twelve hours from now and twice as long with every attempt, at most seven days |
| TreePurges.PurgeIsTimely | src/github/tree-manifest-purge.ts:51-352 | entries are dropped, and a manifest declared purged, only by the last claim granted on it, within that claim's lease, and thirty days or more after the failure |
| TreePurges.PurgeClaimsExclude | src/github/tree-manifest-retention.ts:587-680 | no purge claim is granted while the lease of another one runs |
| CommitPlans.MutationIsAllOrNothing | src/storage/mutation-plan.ts:55-172 | on any store the batch applies all statements or none, and which is decided by a guard on versions, hash and free keys |
| CommitPlans.ReviewIsAllOrNothing | src/storage/review-plan.ts:49-227 | all or none, if and only if no open request is missing and no stale record slips through |
| CommitPromotion.BuildCandidatePromotionPlan | src/storage/promotion-plan.ts:69-419 | the builder's checks and its loop over evidence give the statement list in order |
| CommitPromotion.PromotionIsAllOrNothing | src/storage/promotion-plan.ts:91-419 | all or none, if and only if it is not torn |
| CommitPromotion.LinkingIsComplete | src/storage/promotion-plan.ts:227-284 | after a promotion every cited evidence is stored and linked, earlier evidence unchanged |
| CommitResults.RunsKeepInv | migrations/0001_initial.sql:476-519 | every interleaving of plans, submissions and analyses keeps log, reviews, revisions and provenance consistent |
| CommitResults.EveryBatchIsAllOrNothing | src/storage/review-plan.ts:49-227 | every prepared plan in every run applies all its statements or none |
| CommitResults.AuditChainIsContiguous | migrations/0001_initial.sql:476-487 | sequences run from 1 to the project version, each with its predecessor's hash, one outbox event and one record |
| CommitResults.HeadHashDeterminesHistory | workers/memory-orchestrator/index.ts:715-718 | two histories with one head hash hold the same requests in the same order |
| CommitResults.OneCommitPerVersionAndKey | src/storage/mutation-plan.ts:42-172 | of plans built on one version at most one commits; an idempotency key commits once |
| CommitResults.ReviewableIffRequestOpen | src/storage/review-plan.ts:49-227 | a reviewable candidate has its request open; an open request's candidate is reviewable or noop |
| CommitResults.NoopRequestIsLate | src/workflows/quality.ts:391-416 | a noop candidate has a request if and only if a persistent analysis reached it late |
| CommitResults.LateAnalysisHappens | src/workflows/quality.ts:391-416 | the smallest run with an open request nobody can review |
| CommitResults.RevisionsAreContiguous | migrations/0001_initial.sql:489-500 | a memory has one audited revision for each version, the last of them current |
| CommitResults.PromotedIffSource | src/storage/promotion-plan.ts:332-352 | a candidate is promoted to a revision exactly when that revision names it as source |
| CommitRecords.DecisionsTellStatus | src/storage/review-plan.ts:49-227 | in every run a candidate is what its last decision says, every earlier decision asked for changes, and all are on the candidate's own request |
| CommitRecords.RepeatedAnswersAreTrue | src/storage/mutation-plan.ts:55-172 | in every run the answer stored for a repeated request names what its commit really did, and so does its outbox event |
| CommitRecords.PlanCommitsIffCurrent | src/storage/promotion-plan.ts:91-419 | in every run a prepared plan changes the store if and only if nothing was committed since its read, its actor is a maintainer, and the identifiers it brings along are free |
| CommitRecords.PlanWritesWhatWasAsked | src/storage/mutation-plan.ts:55-172 | a committed mutation, review or promotion stores the content, verdict, versions and links it was asked for |
| ConsolidationStore.PrepareSuggestions | src/workflows/quality.ts:633-685 | keeps the first of equal contents, skips stored and unresolved ones |
| ConsolidationStore.PreparedManifestIsOk | src/workflows/quality.ts:633-696 | what is prepared always has distinct slots of its own batch and distinct contents |
| ConsolidationStore.ConsolidationDb.Claim | src/workflows/quality.ts:816-976 | a claim raises the epoch if it may, and gives a token exactly for a live row of its own |
| ConsolidationStore.ConsolidationDb.Renew | src/workflows/quality.ts:973-1066 | a live lease is extended past the expiry that was read |
| ConsolidationStore.ConsolidationDb.PersistBatch | src/workflows/quality.ts:1781-1929 | the batch stores all outputs with their receipt exactly under its guard, otherwise nothing, and no operation stays open |
| ConsolidationStore.ConsolidationDb.Finish | src/workflows/quality.ts:2293-2390 | completion with the terminal trigger, the sum over receipts computed by its loop |
| ConsolidationProtocol.RunsKeepInv | migrations/0018_consolidation_batch_receipts.sql:192-560 | every interleaving of claims, batches, failures and completions keeps lease, grants, receipts and outputs consistent |
| ConsolidationProtocol.OneTokenPerEpoch | src/workflows/quality.ts:816-976 | two tokens of one epoch are equal and no operation is visible between batches |
| ConsolidationProtocol.EpochsStrictlyGrow | src/workflows/quality.ts:829-863 | claims that succeed get strictly growing epochs |
| ConsolidationProtocol.SupersededTokenChangesNothing | src/workflows/quality.ts:816-1066 | after a later claim every step of an earlier token changes nothing, for ever |
| ConsolidationProtocol.TerminalIsExact | src/workflows/quality.ts:2293-2390 | complete or noop means one receipt for each frozen batch and outputs equal to the receipts' sum |
| ConsolidationProtocol.FinishSucceedsIff | src/workflows/quality.ts:2417-2553 | completion succeeds if and only if the lease is live, evidence valid and every batch has its receipt |
| ConsolidationProtocol.OutputsBelongToReceipts | src/workflows/quality.ts:637-638 | an output slot belongs to one batch, its receipt lists it, and it carries the slot's own candidate |
| ConsolidationProtocol.RecoveryIsExact | src/workflows/quality.ts:1561-1662 | after a lost response the receipt tells exactly whether this batch is durable |
| ConsolidationLeases.ClaimsIffFree | src/workflows/quality.ts:816-863 | a claim succeeds if and only if nobody holds a live lease on an unfinished consolidation, and then it is the claimer's for twenty minutes |
| ConsolidationLeases.LiveLeaseExcludes | src/workflows/quality.ts:829-863 | while a token is live no claim succeeds |
| ConsolidationLeases.LearnsLiveToken | src/workflows/quality.ts:919-971 | a claimer learns a token exactly when it is live and its own |
| ConsolidationLeases.LiveTokenStaysLive | src/workflows/quality.ts:816-1066 | a live token stays live until its stored expiry, its own failure or its own completion, whatever others send |
| ConsolidationLeases.RenewsIffRead | src/workflows/quality.ts:973-1066 | a renewal moves the expiry exactly for the live holder that read the stored one |
| ConsolidationLeases.FailFrees | src/workflows/quality.ts:2605-2682 | failing gives the consolidation up at once, and only for its own token |
| ConsolidationLeases.PersistsIffLive | src/workflows/quality.ts:1781-1929 | a batch is stored if and only if its sender's token is live, the batch is frozen and without receipt, and its manifest fits |
| ConsolidationLeases.FinishesUnderLease | src/workflows/quality.ts:2293-2398 | a consolidation ends only under a live token, with every receipt and valid evidence |
| ConsolidationLeases.FinishesIff | src/workflows/quality.ts:2293-2398 | in every run completion ends the consolidation if and only if its token is live, the evidence valid, every frozen batch has its receipt and the caller counts as many |
| ConsolidationLeases.RecoversIffDurable | src/workflows/quality.ts:1561-1662 | after a lost response this work is found durable if and only if it was before, by whoever's hand, or could be stored now |
| CredentialLane.ReservedIsPositive | src/github/sync-workflow.ts:440-478 | below the budget a block of at least one is reserved within its segment, so the last error cannot happen |
| CredentialLane.CountingWorks | src/github/sync-workflow.ts:440-500 | a reservation on the stored count is counted in full and keeps the segments |
| CredentialLane.LaneDb.TryAcquire | src/github/sync-workflow.ts:49-240 | acquires exactly when free, expired or already its own, and raises the epoch by one |
| CredentialLane.LaneDb.Release | src/github/sync-workflow.ts:259-335 | clears the lane only for its exact holder and succeeds exactly if a receipt exists |
| CredentialLane.LaneDb.Reserve | src/github/sync-workflow.ts:421-528 | grants a block that is counted in full, none when exhausted, an error without a live lease |
| LaneProtocol.LiveTokensAreEqual | src/github/sync-workflow.ts:49-240 | any two live tokens are equal, and so are two of one epoch |
| LaneProtocol.ReleaseIsExact | src/github/sync-workflow.ts:259-335 | a late or repeated release clears nothing; a released token never holds the lane again |
| LaneProtocol.GrantsAreCounted | src/github/sync-workflow.ts:421-528 | with one reservation at a time granted requests never exceed the count, the count never the budget |
| LaneProtocol.CountStaysInBudget | migrations/0021_github_annotated_tag_request_budget.sql:1-25 | the stored count stays in budget and segments in every run |
| LaneProtocol.TwoAtOnceGrantTwice | src/github/sync-workflow.ts:497-528 | the run in which one block is granted twice |
| LaneProtocol.EqualOverlapGrantsTwice | src/github/sync-workflow.ts:440-528 | from every reachable state, two reservations of one live token for the same block are both granted it and it is counted once |
| LaneProtocol.OverlapGrantsTwiceIff | src/github/sync-workflow.ts:440-528 | in every reachable state, some order in which two reservations finish grants more than it counts if and only if one can be taken for done without its own update |
| LaneLeases.ClaimsIffFree | src/github/sync-workflow.ts:89-154 | a claim takes the lane if and only if it read the present epoch, the pause after the last release is over, and the lane is free, expired or the claimer's own; it then lasts as long as asked |
| LaneLeases.FreesIffHeld | src/github/sync-workflow.ts:259-335 | a release frees the lane exactly for the token that has it, and starts a pause of 80 milliseconds |
| LaneLeases.LiveLeaseExcludes | src/github/sync-workflow.ts:128-140 | while a token is live nobody else's claim succeeds |
| LaneLeases.LiveTokenStaysLive | src/github/sync-workflow.ts:49-335 | a live token stays live until its lease ends or its holder releases or claims again |
| LaneLeases.BeginsIff | src/github/sync-workflow.ts:440-478 | a reservation begins if and only if its token is live and requests are left, for the whole block or as much as budget and segment leave |
| LaneLeases.WritesIff | src/github/sync-workflow.ts:485-519 | it is counted, in full, if and only if its token is still live and the stored count is the one it read |
| LaneLeases.SettlesIff | src/github/sync-workflow.ts:520-528 | it is granted if and only if its token is still live and the stored count is what it should have become |
| RetentionScan.PickCandidates | src/github/tree-manifest-retention.ts:386-411 | the loop picks as specified and remembers the last row examined |
| RetentionScan.ScanIsRotation | src/github/tree-manifest-retention.ts:348-385 | the two pages are a cyclic run that starts after the cursor |
| RetentionScan.ScanIsDistinct | src/github/tree-manifest-retention.ts:348-385 | no row is scanned twice in a round |
| RetentionScan.RoundIsBounded | src/github/tree-manifest-retention.ts:386-411 | a round picks eligible rows, two of a project and the maximum in all, and examines at least the maximum |
| RetentionScan.SkippedForQuota | src/github/tree-manifest-retention.ts:386-411 | an eligible row is skipped only for its project's quota |
| RetentionScan.EveryRowIsExamined | src/github/tree-manifest-retention.ts:555-585 | every row is examined within ceil(n / maximum) rounds, whatever is eligible |
| SnapshotActivation.ProjectionDb.ActivateSnapshot | src/projection/cloudflare.ts:343-435 | the four statements come to one switch of the active snapshot, reported exactly when it happened |
| SnapshotActivation.ActivePointerIsExact | src/projection/cloudflare.ts:141-239 | at most one active snapshot, the project points to it, and all objects its manifest lists are stored with the checksums it gives, whatever plan each publisher built |
| SnapshotActivation.CompletePlansAgree | src/projection/cloudflare.ts:198-215 | of publishers with different plans for one version at most one gets all its objects stored |
| SnapshotActivation.ActivatesIff | src/projection/cloudflare.ts:343-435 | a publisher switches to its snapshot if and only if all it planned is stored and no newer version exists; what was active is superseded and nothing else changes |
| SnapshotActivation.PutsOnce | src/projection/cloudflare.ts:196-213 | an object is stored if and only if none is in its place, and a publisher goes on if and only if its own is there |
| SnapshotActivation.RunsOnlyAdvance | src/projection/cloudflare.ts:141-239 | the active version never decreases, superseded stays superseded, objects never change |
| ProjectionPaths.SegmentInjective | src/projection/markdown.ts:93-96 | an encoded path segment tells its identifier |
| ProjectionPaths.KeysDiffer | src/projection/markdown.ts:66-91 | different objects of a snapshot have different keys |
| ProjectionPaths.KeyIncludes | src/projection/validation.ts:234-237 | a key includes an object directory exactly for an object of that kind or when an identifier is that word |
| ProjectionEnvelope.NormalizeEvidenceIds | src/projection/markdown.ts:98-105 | fails exactly for an invalid identifier, otherwise sorts the distinct ones |
| ProjectionEnvelope.EnvelopeReadsBack | src/projection/validation.ts:238-246 | an envelope gives front matter and content back even if the content contains the end mark |
| ProjectionEnvelope.ObjectReadsBack | src/projection/markdown.ts:140-184 | every object gives its content back, and its checksum is accepted if and only if its identifiers are honest |
| SnapshotInput.ValidateSnapshotInput | src/projection/snapshot.ts:145-192 | the loops accept exactly one current revision for each head with the same metadata |
| SnapshotBuilder.BuildSnapshotPlan | src/projection/snapshot.ts:68-143 | the builder fails exactly for inputs that cannot be built, never for a key used twice; it returns the specified plan, whose indexes sort exactly the memories of its manifest |
| SnapshotResults.PlanKeysAreInOrder | src/projection/snapshot.ts:110-131 | the keys of a plan ascend strictly and are unique |
| SnapshotResults.PlanLength | src/projection/rebuild.ts:325-358 | a plan has as many writes as heads, revisions and distinct scopes, and 29 more |
| SnapshotIndexes.IndexesSortMemories | src/projection/snapshot.ts:208-340 | the manifest is read back, and every index of a plan lists, in order, exactly the manifest's memories of its kind, class, status or scope; everything that should have an index has one |
| SnapshotIndexes.EachIsListedOnce | src/projection/snapshot.ts:208-296 | an entry is in the manifest if and only if an index of the dimension lists it, and then exactly one does |
| SnapshotTables.TablesShowMemories | src/projection/snapshot.ts:298-366 | read line by line, a Markdown index ends in a table in which exactly the memories of its word have a row |
| SnapshotEntries.ManifestTellsMemories | src/projection/snapshot.ts:404-453 | one entry for each head and each revision, ordered by identifier and true in every field; the files it names exist with the checksums it gives and hold that memory |
| SnapshotCheck.ValidatePlan | src/projection/validation.ts:27-250 | the validator complains exactly about plans that are not valid |
| SnapshotResults.BuiltPlanIsValidIff | src/projection/validation.ts:27-250 | a built plan is valid if and only if no project, snapshot or scope is called like an object directory and no identifier holds a line that passes for another checksum |
| SnapshotHazards.PlainPlanIsValid | src/projection/snapshot.ts:68-143 | without such names and without U+2028 and U+2029 in identifiers every built plan is valid |
| SnapshotHazards.ReservedProjectFails | src/projection/validation.ts:234-237 | the empty snapshot of a project called objects is built and refused |
| SnapshotHazards.ForgedChecksumFails | src/projection/validation.ts:243-246 | a start of validity with any wrong checksum between two U+2028 makes a built plan invalid |
| JsonText.QuotedIsReadable | src/security/canonical-json.ts:19-20 | a quoted string ends where it says and gives its string back, whatever follows |
| JsonStrings.QuotedReadsBack | src/security/canonical-json.ts:19-20 | reading a string by the JSON grammar undoes writing it, lone surrogates included |
| JsonStrings.QuotedIsPaired | src/security/canonical-json.ts:19-20 | whatever string is written, its text has no lone surrogate |
| JsonText.NumberTextInjective | src/security/canonical-json.ts:14-18 | finite numbers have one text exactly if equal, both zeros taken as one |
| JsonNumbers.NumberTextDenotes | src/security/canonical-json.ts:14-18 | a finite number's text is a number of the JSON grammar and denotes that number |
| CanonicalJson.Readable | src/security/canonical-json.ts:7-50 | a value's text is uniquely decodable inside any delimited text |
| CanonicalJson.CanonicalIffSame | src/security/canonical-json.ts:52-54 | two values have one canonical text if and only if they are the same JSON value up to key order and the sign of zero |
| CanonicalKeys.KeysAreInOrder | src/security/canonical-json.ts:42-46 | an object is written with one field for each entry, its keys in code unit order |
| VectorFilters.BatchStringValues | src/search/vector-filtering.ts:126-152 | fails exactly when one value alone is too long |
| VectorFilters.BatchesWork | src/search/vector-filtering.ts:126-152 | batching loses nothing, keeps the order and stays within the budget |
| VectorTexts.ContributionIsArray | src/search/vector-filtering.ts:154-156 | what a batch is counted for is the size of its JSON array without the brackets |
| VectorPlans.PlanProduct | src/search/vector-filtering.ts:85-124 | the loops plan the product of all batches, and their final size check never fails |
| VectorPlans.PlanSemanticVectorFilters | src/search/vector-filtering.ts:16-70 | fails exactly when a list is empty or a value does not fit into its share; otherwise every filter fits and they mean the hard filter |
| VectorPlans.FiltersMeanHardFilter | src/search/planning.ts:74-110 | an encoded candidate matches some planned filter if and only if it passes and its partition is authorized, missing validity bounds included |
| VectorPlans.FiltersFit | src/search/vector-filtering.ts:165-172 | every planned filter is under 2,048 bytes |
| VectorTexts.FilterBytesAreUtf8 | src/search/vector-filtering.ts:72-74 | the size counted for a filter is the number of bytes its JSON text has in UTF-8, for every content |
| VectorTexts.TextsFit | src/search/vector-filtering.ts:165-172 | no JSON text sent as a filter reaches 2,048 bytes |
| LinkHeader.ParseLinkHeader | src/github/link-pagination.ts:59-134 | the offset loop computes the grammar's reading and always ends |
| LinkHeader.ReadQuotedString | src/github/link-pagination.ts:136-164 | the quoted-string loop, with escapes and its errors |
| LinkHeader.LinksReadBack | src/github/link-pagination.ts:59-134 | the parser undoes every way of printing every list of legal links, whatever absolute addresses the platform accepts |
| LinkForms.ReadIffPrinted | src/github/link-pagination.ts:59-134 | the parser accepts exactly the texts that lists of legal links are printed as, and reads what was printed |
| LinkHeader.RelationsReadBack | src/github/link-pagination.ts:185-229 | distinct relation types joined by spaces are read back as their set |
| LinkForms.RelationsIffSpaced | src/github/link-pagination.ts:185-206 | a value is read as relation types if and only if it is a list of distinct ones with one or more spaces between them |
| LinkHeader.NextPage | src/github/link-pagination.ts:8-49 | no next link, exactly one that resolves to the following page, or an error |
| LinkHeader.PositiveSafeIntegersReadBack | src/github/link-pagination.ts:51-57 | accepts exactly the decimal numerals of positive safe integers, and reads them back |
| LinkHeader.VisitPages | src/github/client.ts:267-325 | whatever the server answers and however addresses resolve, the client asks for pages 1, 2, 3, ... and at most 100 |
| ContextPack.EstimateTokens | src/search/pipeline.ts:275-288 | the loop computes the estimate |
| ContextPack.TokensSubadditive | src/search/pipeline.ts:275-288 | the estimate of a concatenation is at most the sum |
| ContextPack.CostByRuns | src/search/pipeline.ts:275-304 | every four ASCII characters in a row, or what is left of them, cost one token, any other character one for each byte |
| ContextPack.TruncateToTokenBudget | src/search/pipeline.ts:256-273 | the binary search finds the specified prefix |
| ContextPack.TruncatedIsLongestPrefix | src/search/pipeline.ts:256-273 | that prefix is the longest within the budget |
| ContextPack.FinalCheckNeverRejects | src/search/pipeline.ts:232-254 | the final estimate check never rejects |
| ContextPack.PackContext | src/search/pipeline.ts:161-190 | the packing loop packs as specified |
| ContextPack.PackFits | src/search/pipeline.ts:161-190 | the pack stays within token budget and result limit |
| ContextPack.ExcerptsAreLongest | src/search/pipeline.ts:232-254 | each excerpt is the longest prefix for the budget left to it |
| ContextPack.PackIsGreedy | src/search/pipeline.ts:161-190 | candidates are shown in order with the longest excerpt that fits; one is passed over only at the result limit or if not one code point of it fits beside its citation |
| ExactRecall.FiltersAlwaysFit | src/search/cloudflare.ts:342-356 | compact lists always fit, so only an empty list makes the filters fail |
| ExactRecall.BatchExactReferences | src/search/cloudflare.ts:392-416 | fails only for a reference over the budget |
| ExactRecall.StatementsFit | src/search/cloudflare.ts:114-150 | every statement has at most a hundred bindings |
| ExactRecall.SplitIsUnsplit | src/search/cloudflare.ts:114-161 | split, limited, deduplicated, sorted and cut equals one unsplit query |
| ExactRecall.Recall | src/search/cloudflare.ts:114-161 | recall finds what one query without a binding limit would find; its overflow error cannot happen |
| KeysetPaging.SplitUndoesJoin | src/gateway/service.ts:382-391 | the cursor splits back even when the identifier contains the separator |
| KeysetPaging.PagesShowEverything | src/gateway/service.ts:361-436 | following the tokens shows every memory once, in order, in floor(n / limit) + 1 pages |

## Left out

- SearchResults.CleanupNeverDeletesPublishedRow: needs the trust that SearchHazards.SafeIffCareful proves necessary; the index itself is only a set of identifiers.
- SearchResults.ReturnedPublicationStaysIndexed: assumes that an acknowledged upsert is in the index; embeddings and metadata checks of vectors are not modelled.
- SearchProtocol.RunsKeepInv: one owner (generation, project and memory) is fixed; the janitor's cursor, backoff and owner list only choose which page to clean and are not modelled.
- TreeStore.TreeDb.ActivateBatch: evidence, observation and review rows derived from deltas, affected memory lists and candidate statements are not part of this model; one repository ref is fixed.
- TreeStore.TreeDb.PurgeChunkBatch: a purger's loop is modelled as separate chunk steps that others may interleave with; clock skew tolerances of five minutes are not modelled.
- TreeProtocol.RunsKeepInv: collection, claims of runs and retention claims are specification functions without a class method; the size-bounded payload splitting of entries is not modelled.
- CommitPromotion.PromotionIsAllOrNothing: evidence provenance and sensitivity triggers and the access checks before a commit are not modelled; the maintainer grant required by the audit trigger is.
- CommitPlans.MutationIsAllOrNothing: validity intervals of a mutation and the statements that link new evidence to it are not modelled.
- ConsolidationStore.ConsolidationDb.PersistBatch: evidence links and review requests written beside each output are not modelled; rejections of candidates and other observations are.
- LaneProtocol.OverlapGrantsTwiceIff: speaks of two reservations and their remaining steps; more than two at once, or other steps in between, are covered only by LaneProtocol.CountStaysInBudget.
- CredentialLane.LaneDb.Reserve: dispatch admission and materialization receipts are not part of this model.
- CanonicalJson.CanonicalIffSame: numbers are their shortest decimal digits, so the conversion from binary floating point is not modelled; sparse arrays, prototypes and cycles are not values of this model.
- VectorPlans.FiltersMeanHardFilter: project namespaces are compared as equal beforehand; validation of scope identifiers and timestamps is not modelled.
- LinkHeader.RelationsReadBack: which absolute addresses the URL constructor accepts is a parameter.
- LinkHeader.VisitPages: resolving an address and reading its page parameter are parameters; the items of a page are not modelled, a page that cannot be used is an error.
- LinkHeader.ParseLinkHeader: the length limit on the whole header and the empty header are handled by its caller and not modelled.
- ContextPack.PackFits: relevance ordering before packing is not modelled; candidates come in order.
- SnapshotResults.BuiltPlanIsValidIff: the digest is any function to 64 hexadecimal digits, and JSON texts of documents are the platform's, assumed to start with a brace and to be read back; both are the `Platform` parameter with `IsLawful`. The key order of memory records is not modelled.
- SnapshotCheck.ValidatePlan: which complaints are made for an invalid plan is not specified; a manifest whose members have the wrong types counts as one that cannot be read.
- SnapshotResults.PlanLength: the estimate of subrequests and the content limit of the capacity check are not modelled.
- KeysetPaging.PagesShowEverything: the token's signature, expiry and query digest are not modelled, and the snapshot is fixed as the source requires.
- Dispatch materialization, ranking, authorization, sensitive-content scanning, model prompts and all network calls.
- Safe-integer limits on versions, epochs and cursors.
