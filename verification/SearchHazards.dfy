/** Exactly what a returned publication depends on, with a run for each way to lose one of its vectors. */
module SearchHazards {
  import opened Common
  import opened Unicode
  import opened SearchProjection
  import opened SearchProtocol
  import opened SearchResults
  import Chunking

  /** No run loses a row of a returned publication. */
  ghost predicate IsSafe(tr: Trust) {
    forall c: Contents, events: seq<Event>, id: nat ::
      IsCurrentPublication(Run(tr, c, events), id) ==> PublicationIsWhole(Run(tr, c, events))
  }

  ghost predicate Reached(tr: Trust, c: Contents, s: State) {
    exists events :: Run(tr, c, events) == s
  }

  lemma {:induction false} ReachedInit(tr: Trust, c: Contents)
    ensures Reached(tr, c, Init())
  {
    assert Run(tr, c, []) == Init();
  }

  lemma {:induction false} Next(tr: Trust, c: Contents, s: State, e: Event) returns (n: State)
    requires Reached(tr, c, s)
    ensures n == Step(tr, c, s, e) && Reached(tr, c, n)
  {
    var events :| Run(tr, c, events) == s;
    assert (events + [e])[..|events|] == events;
    n := Step(tr, c, s, e);
    assert Run(tr, c, events + [e]) == n;
  }

  function AllIds(c: Contents, r: RevisionId): set<VectorId> {
    Ids(r, |ChunksOf(c, r)|)
  }

  lemma {:induction false} FirstChunk(c: Contents, r: RevisionId)
    requires r in c
    ensures VectorId(r, 0) in AllIds(c, r)
  {
    Chunking.ChunksAreGreedy(c[r]);
  }

  function Empty(receipts: map<VectorId, Claim>): Tables {
    Tables(None, {}, map[], receipts, None, None)
  }

  function Receipts(ids: set<VectorId>, claim: Claim): map<VectorId, Claim> {
    map v | v in ids :: claim
  }

  function Deletes(ids: set<VectorId>, token: nat, expiresAt: nat): set<Delete> {
    set v | v in ids :: CleanupDelete(v, token, expiresAt)
  }

  ghost predicate IsFree(t: Tables, now: nat) {
    t == Empty(t.receipts) && forall v :: v in t.receipts ==> Claimable(t, v, now)
  }

  lemma {:induction false} LookedAll(tr: Trust, c: Contents, s: State, id: nat) returns (n: State)
    requires Reached(tr, c, s) && id !in s.workers && s.tables == Empty(s.tables.receipts)
    ensures Reached(tr, c, n)
    ensures n == s.(workers := s.workers[id := Looked(s.tables.receipts.Keys, {}, s.clock)])
  {
    var ids := s.tables.receipts.Keys;
    n := Next(tr, c, s, ReadPage(id, ids));
    assert n == s.(workers := s.workers[id := Page(ids, s.clock)]);
    assert ids * {} == {};
    n := Next(tr, c, n, Look(id));
  }

  lemma {:induction false} AllClaimed(t: Tables, token: nat, now: nat)
    requires IsFree(t, now)
    ensures (set v | v in t.receipts.Keys - {} && Claimable(t, v, now)) == t.receipts.Keys
    ensures ClaimReceipts(t, t.receipts.Keys - {}, token, now)
      == Empty(Receipts(t.receipts.Keys, Claimed(token, now + CLEANUP_CLAIM_TTL_MS)))
  {
    var n := ClaimReceipts(t, t.receipts.Keys - {}, token, now);
    assert n.receipts == Receipts(t.receipts.Keys, Claimed(token, now + CLEANUP_CLAIM_TTL_MS));
  }

  lemma {:induction false} TookAll(tr: Trust, c: Contents, s: State, id: nat) returns (n: State)
    requires Reached(tr, c, s) && id !in s.workers && IsFree(s.tables, s.clock)
    ensures Reached(tr, c, n)
    ensures var ids := s.tables.receipts.Keys;
      n == s.(
        tables := Empty(Receipts(ids, Claimed(s.nextToken, s.clock + CLEANUP_CLAIM_TTL_MS))),
        workers := s.workers[id := Cleaner({}, ids, s.nextToken, s.clock, Claiming, s.clock)],
        nextToken := s.nextToken + 1)
  {
    n := LookedAll(tr, c, s, id);
    AllClaimed(s.tables, s.nextToken, s.clock);
    n := Next(tr, c, n, ClaimRows(id, false));
  }

  /** A cleaner has claimed all receipts and checked its claims. */
  lemma {:induction false} ClaimedAll(tr: Trust, c: Contents, s: State, id: nat) returns (n: State)
    requires Reached(tr, c, s) && id !in s.workers && IsFree(s.tables, s.clock)
    ensures Reached(tr, c, n)
    ensures var ids := s.tables.receipts.Keys;
      n == s.(
        tables := Empty(Receipts(ids, Claimed(s.nextToken, s.clock + CLEANUP_CLAIM_TTL_MS))),
        workers := s.workers[id := Cleaner({}, ids, s.nextToken, s.clock, Checked, s.clock)],
        nextToken := s.nextToken + 1)
  {
    n := TookAll(tr, c, s, id);
    n := Next(tr, c, n, Check(id));
  }

  /** A cleaner has issued its deletes at once. */
  lemma {:induction false} IssuedAll(tr: Trust, c: Contents, s: State, id: nat) returns (n: State)
    requires Reached(tr, c, s) && id !in s.workers && IsFree(s.tables, s.clock)
    ensures Reached(tr, c, n)
    ensures var ids := s.tables.receipts.Keys; var expiresAt := s.clock + CLEANUP_CLAIM_TTL_MS;
      n == s.(
        tables := Empty(Receipts(ids, Claimed(s.nextToken, expiresAt))),
        inflight := s.inflight + Deletes(ids, s.nextToken, expiresAt),
        workers := s.workers[id := Cleaner({}, ids, s.nextToken, s.clock, Issued, s.clock)],
        nextToken := s.nextToken + 1)
  {
    n := ClaimedAll(tr, c, s, id);
    var ids := s.tables.receipts.Keys;
    n := Next(tr, c, n, Issue(id));
    assert n.workers == s.workers[id := Cleaner({}, ids, s.nextToken, s.clock, Issued, s.clock)];
  }

  /** After an ambiguous failure of the delete, a cleaner releases its claims. */
  lemma {:induction false} Abandoned(tr: Trust, c: Contents, s: State, id: nat) returns (n: State)
    requires Reached(tr, c, s) && id !in s.workers && IsFree(s.tables, s.clock)
    ensures Reached(tr, c, n)
    ensures var ids := s.tables.receipts.Keys;
      n == s.(
        tables := Empty(Receipts(ids, Unclaimed)),
        inflight := s.inflight + Deletes(ids, s.nextToken, s.clock + CLEANUP_CLAIM_TTL_MS),
        workers := s.workers[id := Stopped],
        nextToken := s.nextToken + 1)
  {
    n := IssuedAll(tr, c, s, id);
    n := Next(tr, c, n, Release(id));
    assert n.workers == s.workers[id := Stopped];
    assert n.tables == Empty(Receipts(s.tables.receipts.Keys, Unclaimed));
  }

  /** All deletes are applied and the absence of the vectors is seen. */
  lemma {:induction false} SeenAbsent(
    tr: Trust, c: Contents, s: State, id: nat, w: Worker) returns (n: State)
    requires Reached(tr, c, s) && id in s.workers && s.workers[id] == w && w.Cleaner? && w.clean == Issued
    requires s.clock < ExpiresAt(w) && s.tables == Empty(Receipts(w.claimed, Claimed(w.token, ExpiresAt(w))))
    requires Deletes(w.claimed, w.token, ExpiresAt(w)) <= s.inflight
    ensures Reached(tr, c, n)
    ensures n == s.(
      vectors := s.vectors - w.claimed, workers := s.workers[id := w.(clean := Absent, checkedAt := s.clock)])
  {
    AllVectors(w.claimed, w.token, ExpiresAt(w));
    n := Next(tr, c, s, Apply(Deletes(w.claimed, w.token, ExpiresAt(w))));
    assert n == s.(vectors := s.vectors - w.claimed);
    n := Next(tr, c, n, Check(id));
    assert n.workers[id] == w.(clean := Rechecked, checkedAt := s.clock);
    n := Next(tr, c, n, ObserveAbsent(id));
  }

  lemma {:induction false} Finished(tr: Trust, c: Contents, s: State, id: nat, w: Worker) returns (n: State)
    requires Reached(tr, c, s) && id in s.workers && s.workers[id] == w && w.Cleaner? && w.clean == Absent
    requires w.published == {}
    requires s.clock < ExpiresAt(w) && s.tables == Empty(Receipts(w.claimed, Claimed(w.token, ExpiresAt(w))))
    ensures Reached(tr, c, n)
    ensures n == s.(tables := Empty(map[]), workers := s.workers[id := Stopped])
  {
    n := Next(tr, c, s, Check(id));
    assert n == s.(workers := s.workers[id := w.(clean := Confirmed, checkedAt := s.clock)]);
    AllFinalized(w.claimed, w.token, ExpiresAt(w), s.clock);
    n := Next(tr, c, n, Finalize(id));
  }

  /** A cleaner that meets no obstacle empties the receipts and the index. */
  lemma {:induction false} Cleaned(tr: Trust, c: Contents, s: State, id: nat) returns (n: State)
    requires Reached(tr, c, s) && id !in s.workers && IsFree(s.tables, s.clock)
    ensures Reached(tr, c, n)
    ensures var ids := s.tables.receipts.Keys;
      n == s.(
        tables := Empty(map[]),
        vectors := s.vectors - ids,
        inflight := s.inflight + Deletes(ids, s.nextToken, s.clock + CLEANUP_CLAIM_TTL_MS),
        workers := s.workers[id := Stopped],
        nextToken := s.nextToken + 1)
  {
    n := IssuedAll(tr, c, s, id);
    n := SeenAbsent(tr, c, n, id, n.workers[id]);
    n := Finished(tr, c, n, id, n.workers[id]);
  }

  lemma {:induction false} AllVectors(ids: set<VectorId>, token: nat, expiresAt: nat)
    ensures (set d | d in Deletes(ids, token, expiresAt) :: d.vector) == ids
  {
    forall v | v in ids ensures v in (set d | d in Deletes(ids, token, expiresAt) :: d.vector) {
      assert CleanupDelete(v, token, expiresAt) in Deletes(ids, token, expiresAt);
    }
  }

  lemma {:induction false} AllFinalized(ids: set<VectorId>, token: nat, expiresAt: nat, now: nat)
    requires now < expiresAt
    ensures FinalizeReceipts(Empty(Receipts(ids, Claimed(token, expiresAt))), {}, ids, token, now) == Empty(map[])
  {
    var t := Empty(Receipts(ids, Claimed(token, expiresAt)));
    assert Finalized(t, {}, ids, token, now) == ids;
  }

  lemma {:induction false} UpsertedOnce(tr: Trust, c: Contents, s: State, id: nat, r: RevisionId) returns (n: State)
    requires Reached(tr, c, s) && id !in s.workers && r in c
    ensures Reached(tr, c, n)
    ensures n == Acknowledged(tr, s, AllIds(c, r)).(
      workers := s.workers[id := Publisher(Head(1, r, "*", |ChunksOf(c, r)|), Upserted, 0)])
  {
    n := Next(tr, c, s, Start(id, 1, r, "*"));
    assert n == s.(workers := s.workers[id := Publisher(Head(1, r, "*", |ChunksOf(c, r)|), Read, 0)]);
    n := Next(tr, c, n, Upsert(id));
  }

  /** A publisher whose revision is superseded leaves receipts for its vectors. */
  lemma {:induction false} Queued(tr: Trust, c: Contents, r: RevisionId) returns (s: State)
    requires r in c
    ensures Reached(tr, c, s)
    ensures s == State(
      Empty(Receipts(AllIds(c, r), Unclaimed)), AllIds(c, r), {}, 0, map[0 := Stopped], 0, 0, false)
  {
    ReachedInit(tr, c);
    s := UpsertedOnce(tr, c, Init(), 0, r);
    var head := Head(1, r, "*", |ChunksOf(c, r)|);
    assert s == State(Empty(map[]), AllIds(c, r), {}, 0, map[0 := Publisher(head, Upserted, 0)], 0, 0, false);
    s := Discarded(tr, c, s, 0, head);
    assert s.workers == map[0 := Stopped];
  }

  lemma {:induction false} Discarded(tr: Trust, c: Contents, s: State, id: nat, head: Head) returns (n: State)
    requires Reached(tr, c, s) && id in s.workers && s.workers[id] == Publisher(head, Upserted, 0)
    requires s.tables == Empty(map[]) && head.chunkCount == |ChunksOf(c, head.revision)|
    ensures Reached(tr, c, n)
    ensures n == s.(
      tables := Empty(Receipts(AllIds(c, head.revision), Unclaimed)), workers := s.workers[id := Stopped])
  {
    var ids := AllIds(c, head.revision);
    n := Next(tr, c, s, Reject(id));
    assert n == s.(workers := s.workers[id := Publisher(head, Rejected, 0)]);
    assert WithReceipts(map[], ids - {}) == Receipts(ids, Unclaimed);
    n := Next(tr, c, n, Discard(id));
  }

  lemma {:induction false} FirstPublication(c: Contents, r: RevisionId)
    requires r in c
    ensures var head := Head(1, r, "*", |ChunksOf(c, r)|);
      && MayPublish(Empty(map[]), 1, r)
      && Publish(Empty(map[]), head, ChunksOf(c, r))
        == Tables(Some(head), AllIds(c, r), Rows(r, ChunksOf(c, r)), map[], None, None)
      && AllIds(c, r) != {}
  {
    FirstChunk(c, r);
    assert WithReceipts(map[], {}) == map[];
  }

  lemma {:induction false} CommittedFirst(tr: Trust, c: Contents, s: State, id: nat, r: RevisionId) returns (n: State)
    requires Reached(tr, c, s) && s.tables == Empty(map[]) && r in c && id in s.workers
    requires s.workers[id] == Publisher(Head(1, r, "*", |ChunksOf(c, r)|), Upserted, 0)
    ensures Reached(tr, c, n)
    ensures var head := Head(1, r, "*", |ChunksOf(c, r)|);
      n == s.(
        tables := Tables(Some(head), AllIds(c, r), Rows(r, ChunksOf(c, r)), map[], None, None),
        incarnation := s.incarnation + 1, confirmed := false,
        workers := s.workers[id := Publisher(head, Committed, s.incarnation + 1)])
  {
    FirstPublication(c, r);
    n := Next(tr, c, s, Commit(id, false));
  }

  /** A publisher that meets no obstacle. */
  lemma {:induction false} Published(tr: Trust, c: Contents, s: State, id: nat, r: RevisionId) returns (n: State)
    requires Reached(tr, c, s) && id !in s.workers && s.tables == Empty(map[]) && r in c
    ensures Reached(tr, c, n)
    ensures var head, ids := Head(1, r, "*", |ChunksOf(c, r)|), AllIds(c, r);
      && n.tables == Tables(Some(head), ids, Rows(r, ChunksOf(c, r)), map[], None, None)
      && n.vectors == s.vectors + ids && n.clock == s.clock && n.nextToken == s.nextToken
      && (!tr.ordered ==> n.inflight == s.inflight)
      && n.incarnation == s.incarnation + 1 && n.confirmed
      && n.workers == s.workers[id := Publisher(head, Returned, n.incarnation)]
  {
    n := UpsertedOnce(tr, c, s, id, r);
    n := CommittedFirst(tr, c, n, id, r);
    n := Next(tr, c, n, UpsertAgain(id));
  }

  /** A publication that has lost a row. */
  ghost predicate IsLoss(tr: Trust, c: Contents, s: State, id: nat) {
    Reached(tr, c, s) && IsCurrentPublication(s, id) && !PublicationIsWhole(s)
  }

  lemma {:induction false} Hit(tr: Trust, c: Contents, s: State, id: nat, d: Delete) returns (n: State)
    requires Reached(tr, c, s) && IsCurrentPublication(s, id) && d in s.inflight && d.vector in s.tables.ledger
    ensures IsLoss(tr, c, n, id) && n.inflight == s.inflight && n.clock == s.clock
  {
    n := Next(tr, c, s, Apply({d}));
    assert d in {d} && d.vector !in n.vectors;
  }

  /**
   An index that may apply a delete after a later upsert: the first cleaner's delete is answered with an error, it
   releases its claim, a second one finishes the row, the revision is published again, and then the first delete
   arrives, well within the lifetime of the claim it was issued under.
   */
  lemma {:induction false} LateDeleteLosesRow(tr: Trust, c: Contents, r: RevisionId) returns (s: State)
    requires !tr.ordered && r in c
    ensures IsLoss(tr, c, s, 3)
    ensures exists d :: d in s.inflight && d.CleanupDelete? && d.vector == VectorId(r, 0) && s.clock < d.expiresAt
  {
    var ids := AllIds(c, r);
    FirstChunk(c, r);
    s := Queued(tr, c, r);
    assert VectorId(r, 0) in s.tables.receipts;
    s := Abandoned(tr, c, s, 1);
    assert VectorId(r, 0) in s.tables.receipts;
    s := Cleaned(tr, c, s, 2);
    s := Published(tr, c, s, 3, r);
    var d := CleanupDelete(VectorId(r, 0), 0, CLEANUP_CLAIM_TTL_MS);
    assert d in Deletes(ids, 0, 0 + CLEANUP_CLAIM_TTL_MS);
    assert d in s.inflight;
    s := Hit(tr, c, s, 3, d);
  }

  /** A cleaner stalls after its check until its claims have expired. */
  lemma {:induction false} Stalled(tr: Trust, c: Contents, r: RevisionId) returns (s: State)
    requires r in c
    ensures Reached(tr, c, s) && IsFree(s.tables, s.clock) && s.tables.receipts.Keys == AllIds(c, r)
    ensures s.clock == CLEANUP_CLAIM_TTL_MS && s.workers.Keys == {0, 1}
    ensures s.workers[1] == Cleaner({}, AllIds(c, r), 0, 0, Checked, 0)
  {
    s := Queued(tr, c, r);
    s := ClaimedAll(tr, c, s, 1);
    s := Next(tr, c, s, Tick(CLEANUP_CLAIM_TTL_MS));
  }

  lemma {:induction false} IssuedLate(tr: Trust, c: Contents, s: State, id: nat, w: Worker) returns (n: State)
    requires Reached(tr, c, s) && id in s.workers && s.workers[id] == w && w.Cleaner? && w.clean == Checked
    requires InPace(tr, s, w)
    ensures Reached(tr, c, n)
    ensures n == s.(
      inflight := s.inflight + Deletes(w.claimed, w.token, ExpiresAt(w)),
      workers := s.workers[id := w.(clean := Issued)])
  {
    n := Next(tr, c, s, Issue(id));
  }

  /** A cleaner that may still issue its delete when its claim has expired. */
  lemma {:induction false} LateIssueLosesRow(tr: Trust, c: Contents, r: RevisionId) returns (s: State)
    requires tr.pace.Within? && tr.pace.window >= CLEANUP_CLAIM_TTL_MS && r in c
    ensures IsLoss(tr, c, s, 3)
  {
    FirstChunk(c, r);
    s := Stalled(tr, c, r);
    s := Cleaned(tr, c, s, 2);
    s := Published(tr, c, s, 3, r);
    s := IssuedLate(tr, c, s, 1, Cleaner({}, AllIds(c, r), 0, 0, Checked, 0));
    var d := CleanupDelete(VectorId(r, 0), 0, CLEANUP_CLAIM_TTL_MS);
    assert d in Deletes(AllIds(c, r), 0, 0 + CLEANUP_CLAIM_TTL_MS);
    s := Hit(tr, c, s, 3, d);
  }

  lemma {:induction false} Recorded(tr: Trust, c: Contents, r: RevisionId) returns (s: State)
    requires r in c
    ensures Reached(tr, c, s) && s.workers.Keys == {0}
    ensures var n := |ChunksOf(c, r)|;
      s.tables == Tables(
        Some(Head(1, r, "*", n)), AllIds(c, r), Rows(r, ChunksOf(c, r)), map[], None, Some(Deletion(r, 1, n)))
  {
    ReachedInit(tr, c);
    s := Published(tr, c, Init(), 0, r);
    s := Next(tr, c, s, RecordDeletion(r, 1, |ChunksOf(c, r)|));
  }

  lemma {:induction false} Adopted(tr: Trust, c: Contents, s: State, id: nat) returns (n: State)
    requires Reached(tr, c, s) && id !in s.workers && s.tables.deletion.Some?
    ensures Reached(tr, c, n) && n == s.(workers := s.workers[id := Remover(s.tables.deletion.value, false)])
  {
    n := Next(tr, c, s, AdoptDeletion(id));
  }

  /** Two removers adopt one deletion, and the second finishes it. */
  lemma {:induction false} DeletedByAnother(tr: Trust, c: Contents, r: RevisionId) returns (s: State)
    requires r in c
    ensures Reached(tr, c, s) && s.tables == Empty(map[]) && s.workers.Keys == {0, 1, 2}
    ensures s.workers[1] == Remover(Deletion(r, 1, |ChunksOf(c, r)|), false)
  {
    s := Recorded(tr, c, r);
    s := Adopted(tr, c, s, 1);
    s := Adopted(tr, c, s, 2);
    s := FinishedBy(tr, c, s, 2, Deletion(r, 1, |ChunksOf(c, r)|));
  }

  lemma {:induction false} FinishedBy(tr: Trust, c: Contents, s: State, id: nat, d: Deletion) returns (n: State)
    requires Reached(tr, c, s) && id in s.workers && s.workers[id] == Remover(d, false)
    requires s.tables.deletion == Some(d) && IsDeletionOf(d, s.tables.head)
    ensures Reached(tr, c, n) && n.workers == s.workers[id := Stopped]
    ensures n.tables == s.tables.(head := None, ledger := {}, fts := map[], deletion := None)
  {
    n := Next(tr, c, s, IssueRetire(id));
    assert n.workers == s.workers[id := Remover(d, true)];
    n := Next(tr, c, n, Finish(id));
  }

  lemma {:induction false} RetiredLate(tr: Trust, c: Contents, s: State, id: nat, d: Deletion) returns (n: State)
    requires Reached(tr, c, s) && id in s.workers && s.workers[id] == Remover(d, false) && !tr.removersInTime
    ensures Reached(tr, c, n)
    ensures n == s.(
      inflight := s.inflight + set v | v in Ids(d.revision, d.chunkCount) :: RetireDelete(v, d),
      workers := s.workers[id := Remover(d, true)])
  {
    n := Next(tr, c, s, IssueRetire(id));
  }

  /** A remover that may issue the delete of a deletion somebody else has finished. */
  lemma {:induction false} LateRemoverLosesRow(tr: Trust, c: Contents, r: RevisionId) returns (s: State)
    requires !tr.removersInTime && r in c
    ensures IsLoss(tr, c, s, 3)
  {
    var deletion := Deletion(r, 1, |ChunksOf(c, r)|);
    FirstChunk(c, r);
    s := DeletedByAnother(tr, c, r);
    s := Published(tr, c, s, 3, r);
    s := RetiredLate(tr, c, s, 1, deletion);
    var d := RetireDelete(VectorId(r, 0), deletion);
    assert d in s.inflight;
    s := Hit(tr, c, s, 3, d);
  }

  /**
   Main result: no run loses a row of a returned publication if and only if the index applies no delete after a later
   acknowledged upsert, cleaners issue their deletes at the moment of the check or within the lifetime of their claims,
   and removers issue theirs while the deletion is recorded.
   */
  lemma {:induction false} SafeIffCareful(tr: Trust)
    ensures IsSafe(tr) <==> IsCareful(tr)
  {
    if IsCareful(tr) {
      forall c: Contents, events: seq<Event>, id: nat | IsCurrentPublication(Run(tr, c, events), id)
        ensures PublicationIsWhole(Run(tr, c, events))
      {
        ReturnedPublicationStaysIndexed(tr, c, events, id);
      }
    } else {
      var c: Contents := map["r" := [0]];
      var s: State;
      if !tr.ordered {
        s := LateDeleteLosesRow(tr, c, "r");
      } else if !tr.removersInTime {
        s := LateRemoverLosesRow(tr, c, "r");
      } else {
        s := LateIssueLosesRow(tr, c, "r");
      }
      var events :| Run(tr, c, events) == s;
      assert IsCurrentPublication(Run(tr, c, events), 3) && !PublicationIsWhole(Run(tr, c, events));
    }
  }
}
