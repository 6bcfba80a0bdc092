/**
 Every interleaving of the workers on one memory's projection: publishers, cleaners (a publisher's own cleanup and
 the janitor's run the same page), deleters, the clock and the external vector index.

 The two stores are not updated together. An acknowledged upsert is in the index; a delete is issued and may be
 applied later, any number of times, whatever the tables say by then. A worker may stop anywhere, and any batch's
 response may be lost. What the index and the workers' pace are trusted with is a parameter.
 */
module SearchProtocol {
  import opened Common
  import opened Unicode
  import opened SearchProjection
  import Chunking

  datatype PublishPhase = Read | Upserted | Committed | Rejected | Returned

  datatype CleanPhase = Claiming | Checked | Issued | Rechecked | Absent | Confirmed

  datatype Worker =
    | Publisher(head: Head, phase: PublishPhase, incarnation: nat)
    | Page(rows: set<VectorId>, startedAt: nat)
    | Looked(rows: set<VectorId>, published: set<VectorId>, startedAt: nat)
    | Cleaner(
        published: set<VectorId>, claimed: set<VectorId>, token: nat, startedAt: nat,
        clean: CleanPhase, checkedAt: nat)
    | Remover(deletion: Deletion, issued: bool)
    | Stopped

  datatype Delete =
    | CleanupDelete(vector: VectorId, token: nat, expiresAt: nat)
    | RetireDelete(vector: VectorId, deletion: Deletion)

  /** How long a cleaner may take from its first check to the delete: no time, or a window from its start. */
  datatype Pace = SameInstant | Within(window: nat)

  /**
   `ordered`: once an upsert is acknowledged, no delete issued before it is applied to its vectors any more.
   `removersInTime`: the delete of a recorded deletion is issued while that record exists.
   */
  datatype Trust = Trust(ordered: bool, pace: Pace, removersInTime: bool)

  /**
   `incarnation` counts how often the projected revision was replaced or removed; `confirmed` says that a publisher
   finished its second upsert for the current incarnation. Both only record history.
   */
  datatype State = State(
    tables: Tables,
    vectors: set<VectorId>,
    inflight: set<Delete>,
    clock: nat,
    workers: map<nat, Worker>,
    nextToken: nat,
    incarnation: nat,
    confirmed: bool)

  /** Revisions never change their content. */
  type Contents = m: map<RevisionId, Text> | forall r :: r in m ==> m[r] != [] witness map[]

  function ChunksOf(c: Contents, r: RevisionId): seq<Text> {
    if r in c then Chunking.Chunks(c[r]) else []
  }

  datatype Event =
    | Tick(elapsed: nat)
    | Start(id: nat, version: nat, revision: RevisionId, partition: string)
    | Upsert(id: nat)
    | Commit(id: nat, responseLost: bool)
    | Reject(id: nat)
    | Discard(id: nat)
    | UpsertAgain(id: nat)
    | ReadPage(id: nat, rows: set<VectorId>)
    | Look(id: nat)
    | ClaimRows(id: nat, responseLost: bool)
    | Check(id: nat)
    | Issue(id: nat)
    | ObserveAbsent(id: nat)
    | Finalize(id: nat)
    | Release(id: nat)
    | RecordDeletion(revision: RevisionId, version: nat, chunkCount: nat)
    | AdoptDeletion(id: nat)
    | IssueRetire(id: nat)
    | Finish(id: nat)
    | Apply(deletes: set<Delete>)
    | Stop(id: nat)

  function Init(): State {
    State(Tables(None, {}, map[], map[], None, None), {}, {}, 0, map[], 0, 0, false)
  }

  predicate Running(s: State, id: nat, phase: PublishPhase) {
    id in s.workers && s.workers[id].Publisher? && s.workers[id].phase == phase
  }

  function SetWorker(s: State, id: nat, w: Worker): State {
    s.(workers := s.workers[id := w])
  }

  /** A changed set of ledger rows starts a new incarnation that nobody has confirmed yet. */
  ghost function WithTables(s: State, t: Tables): State {
    if t.ledger == s.tables.ledger then s.(tables := t)
    else s.(tables := t, incarnation := s.incarnation + 1, confirmed := false)
  }

  /** An acknowledged upsert. */
  function Acknowledged(tr: Trust, s: State, ids: set<VectorId>): State {
    s.(vectors := s.vectors + ids,
       inflight := if tr.ordered then set d | d in s.inflight && d.vector !in ids else s.inflight)
  }

  /** The second upsert counts as confirmation while the rows this publisher committed are still the current ones. */
  function AfterSecondUpsert(tr: Trust, s: State, id: nat, ids: set<VectorId>): State
    requires id in s.workers && s.workers[id].Publisher?
  {
    var w := s.workers[id];
    SetWorker(Acknowledged(tr, s, ids), id, w.(phase := Returned)).(
      confirmed := s.confirmed || w.incarnation == s.incarnation)
  }

  function ExpiresAt(w: Worker): nat
    requires w.Cleaner?
  {
    w.startedAt + CLEANUP_CLAIM_TTL_MS
  }

  predicate InPace(tr: Trust, s: State, w: Worker)
    requires w.Cleaner?
  {
    match tr.pace
    case SameInstant => s.clock == w.checkedAt
    case Within(window) => s.clock <= w.startedAt + window
  }

  ghost function PublisherStep(tr: Trust, c: Contents, s: State, e: Event): State
    requires e.Upsert? || e.Commit? || e.Reject? || e.Discard? || e.UpsertAgain?
  {
    if e.id !in s.workers || !s.workers[e.id].Publisher? then s
    else
      var w := s.workers[e.id];
      var chunks := ChunksOf(c, w.head.revision);
      var ids := Ids(w.head.revision, |chunks|);
      match e
      case Upsert(id) =>
        if w.phase == Read then SetWorker(Acknowledged(tr, s, ids), id, w.(phase := Upserted)) else s
      case Commit(id, responseLost) =>
        if w.phase != Upserted then s
        else
          var next := WithTables(s, Publish(s.tables, w.head, chunks));
          if MayPublish(s.tables, w.head.version, w.head.revision) && !responseLost
          then SetWorker(next, id, w.(phase := Committed, incarnation := next.incarnation))
          else SetWorker(next, id, w.(phase := Rejected))
      case Reject(id) =>
        if w.phase == Upserted then SetWorker(s, id, w.(phase := Rejected)) else s
      case Discard(id) =>
        if w.phase == Rejected
        then SetWorker(WithTables(s, QueueUnpublished(s.tables, ids)), id, Stopped) else s
      case UpsertAgain(id) =>
        if w.phase == Committed then AfterSecondUpsert(tr, s, id, ids) else s
  }

  ghost function CleanerStep(tr: Trust, s: State, e: Event): State
    requires e.Check? || e.Issue? || e.ObserveAbsent? || e.Finalize? || e.Release?
  {
    if e.id !in s.workers || !s.workers[e.id].Cleaner? then s
    else
      var w := s.workers[e.id];
      var current := forall v :: v in w.claimed ==> CurrentClaim(s.tables, v, w.token, s.clock);
      match e
      case Check(id) =>
        if w.clean !in {Claiming, Issued, Absent} || !current then s
        else SetWorker(s, id, w.(
          clean := if w.clean == Claiming then Checked else if w.clean == Issued then Rechecked else Confirmed,
          checkedAt := s.clock))
      case Issue(id) =>
        if w.clean == Checked && InPace(tr, s, w)
        then SetWorker(s, id, w.(clean := Issued)).(
               inflight := s.inflight + set v | v in w.claimed :: CleanupDelete(v, w.token, ExpiresAt(w)))
        else s
      case ObserveAbsent(id) =>
        if w.clean == Rechecked && w.claimed !! s.vectors then SetWorker(s, id, w.(clean := Absent)) else s
      case Finalize(id) =>
        if w.clean == Confirmed || (w.claimed == {} && w.clean == Claiming)
        then SetWorker(WithTables(s, FinalizeReceipts(s.tables, w.published, w.claimed, w.token, s.clock)), id, Stopped)
        else s
      case Release(id) => SetWorker(WithTables(s, ReleaseClaims(s.tables, w.token)), id, Stopped)
  }

  ghost function RemoverStep(tr: Trust, s: State, e: Event): State
    requires e.IssueRetire? || e.Finish?
  {
    if e.id !in s.workers || !s.workers[e.id].Remover? then s
    else
      var w := s.workers[e.id];
      match e
      case IssueRetire(id) =>
        if tr.removersInTime && s.tables.deletion != Some(w.deletion) then s
        else
          SetWorker(s, id, w.(issued := true)).(
            inflight := s.inflight
              + set v | v in Ids(w.deletion.revision, w.deletion.chunkCount) :: RetireDelete(v, w.deletion))
      case Finish(id) =>
        if w.issued then SetWorker(WithTables(s, FinishDeletion(s.tables, w.deletion)), id, Stopped) else s
  }

  /** One event. An event that is not enabled changes nothing. */
  ghost function Step(tr: Trust, c: Contents, s: State, e: Event): State {
    match e
    case Tick(elapsed) => s.(clock := s.clock + elapsed)
    case Start(id, version, revision, partition) =>
      if id in s.workers || revision !in c then s
      else SetWorker(s, id, Publisher(Head(version, revision, partition, |ChunksOf(c, revision)|), Read, 0))
    case ReadPage(id, rows) =>
      if id in s.workers || !(rows <= s.tables.receipts.Keys) then s else SetWorker(s, id, Page(rows, s.clock))
    case Look(id) =>
      if id !in s.workers || !s.workers[id].Page? then s
      else SetWorker(s, id, Looked(s.workers[id].rows, s.workers[id].rows * s.tables.ledger, s.workers[id].startedAt))
    case ClaimRows(id, responseLost) =>
      if id !in s.workers || !s.workers[id].Looked? then s
      else
        var w := s.workers[id];
        var rows := w.rows - w.published;
        var next := WithTables(s, ClaimReceipts(s.tables, rows, s.nextToken, w.startedAt))
                    .(nextToken := s.nextToken + 1);
        var claimed := set v | v in rows && Claimable(s.tables, v, w.startedAt);
        SetWorker(next, id, if responseLost then Stopped
          else Cleaner(w.published, claimed, s.nextToken, w.startedAt, Claiming, w.startedAt))
    case RecordDeletion(revision, version, chunkCount) =>
      WithTables(s, BeginDeletion(s.tables, revision, version, chunkCount))
    case AdoptDeletion(id) =>
      if id in s.workers || s.tables.deletion.None? then s
      else SetWorker(s, id, Remover(s.tables.deletion.value, false))
    case Apply(deletes) =>
      if deletes <= s.inflight then s.(vectors := s.vectors - set d | d in deletes :: d.vector) else s
    case Stop(id) => SetWorker(s, id, Stopped)
    case IssueRetire(_) => RemoverStep(tr, s, e)
    case Finish(_) => RemoverStep(tr, s, e)
    case Check(_) => CleanerStep(tr, s, e)
    case Issue(_) => CleanerStep(tr, s, e)
    case ObserveAbsent(_) => CleanerStep(tr, s, e)
    case Finalize(_) => CleanerStep(tr, s, e)
    case Release(_) => CleanerStep(tr, s, e)
    case _ => PublisherStep(tr, c, s, e)
  }

  ghost function Run(tr: Trust, c: Contents, events: seq<Event>): State {
    if events == [] then Init() else Step(tr, c, Run(tr, c, events[..|events| - 1]), events[|events| - 1])
  }

  // ----- The invariant

  ghost predicate HeadHoldsContent(c: Contents, t: Tables) {
    t.head.Some? ==>
      var h := t.head.value;
      h.revision in c && h.chunkCount == |ChunksOf(c, h.revision)| && t.fts == Rows(h.revision, ChunksOf(c, h.revision))
  }

  /** A claimed receipt is never for a published row. */
  ghost predicate ClaimsAreUnpublished(t: Tables) {
    forall v :: v in t.receipts && t.receipts[v].Claimed? ==> v !in t.ledger
  }

  /** While a revision is being deleted nothing publishes it again, so the receipt names the head exactly. */
  ghost predicate DeletionNamesHead(t: Tables) {
    Retiring(t) ==> IsDeletionOf(t.deletion.value, t.head)
  }

  ghost predicate Retiring(t: Tables) {
    t.head.Some? && t.deletion.Some? && t.deletion.value.revision == t.head.value.revision
  }

  /** What `publish returned true` buys. */
  ghost predicate ConfirmedRowsIndexed(tr: Trust, s: State) {
    IsCareful(tr) && s.confirmed && !Retiring(s.tables) ==> s.tables.ledger <= s.vectors
  }

  /** Trust that keeps returned publications whole. */
  predicate IsCareful(tr: Trust) {
    && tr.ordered
    && (tr.pace.SameInstant? || tr.pace.window < CLEANUP_CLAIM_TTL_MS)
    && tr.removersInTime
  }

  /** No delete is under way for a row of a returned publication. */
  ghost predicate NoDeletePending(tr: Trust, s: State) {
    IsCareful(tr) && s.confirmed && !Retiring(s.tables) ==> forall d :: d in s.inflight ==> d.vector !in s.tables.ledger
  }

  /** Receipts are for chunks of known revisions, and their tokens have been given out. */
  ghost predicate ReceiptsOk(c: Contents, s: State) {
    forall v :: v in s.tables.receipts ==>
      && v.revision in c && v.chunk < |ChunksOf(c, v.revision)|
      && (s.tables.receipts[v].Claimed? ==> s.tables.receipts[v].token < s.nextToken)
  }

  /** What a cleaner knows: its claims are its own until they expire, and it has checked what it says. */
  ghost predicate CleanerOk(s: State, w: Worker) {
    w.Cleaner? ==>
      && w.token < s.nextToken
      && w.startedAt <= s.clock
      && (forall v :: HoldsClaim(s.tables, v, w.token) ==> s.tables.receipts[v].expiresAt == ExpiresAt(w))
      && (forall v :: v in w.claimed && s.clock < ExpiresAt(w) ==> HoldsClaim(s.tables, v, w.token))
      && (w.clean == Checked ==> w.claimed == {} || w.checkedAt < ExpiresAt(w))
  }

  ghost predicate WorkerOk(c: Contents, s: State, w: Worker) {
    && (w.Publisher? ==>
      && w.head.revision in c
      && w.head.chunkCount == |ChunksOf(c, w.head.revision)|
      && (w.phase in {Committed, Returned} ==>
            && w.incarnation <= s.incarnation
            && (w.incarnation == s.incarnation ==> s.tables.ledger == Ids(w.head.revision, w.head.chunkCount)))
      && (w.phase == Returned && w.incarnation == s.incarnation ==> s.confirmed))
    && (w.Page? || w.Looked? ==> w.startedAt <= s.clock)
    && CleanerOk(s, w)
  }

  ghost predicate TokensDiffer(workers: map<nat, Worker>) {
    forall i, j :: i in workers && j in workers && i != j && workers[i].Cleaner? && workers[j].Cleaner? ==>
      workers[i].token != workers[j].token
  }

  ghost predicate Inv(tr: Trust, c: Contents, s: State) {
    && Consistent(s.tables)
    && HeadHoldsContent(c, s.tables)
    && ClaimsAreUnpublished(s.tables)
    && DeletionNamesHead(s.tables)
    && ReceiptsOk(c, s)
    && TokensDiffer(s.workers)
    && (forall id :: id in s.workers ==> WorkerOk(c, s, s.workers[id]))
    && ConfirmedRowsIndexed(tr, s)
    && NoDeletePending(tr, s)
  }


  // ----- Every step keeps it

  /** Nobody gains or loses a claim. */
  ghost predicate SameClaims(t: Tables, n: Tables) {
    forall v, token {:trigger HoldsClaim(n, v, token)} ::
      && (HoldsClaim(t, v, token) <==> HoldsClaim(n, v, token))
      && (HoldsClaim(t, v, token) ==> t.receipts[v] == n.receipts[v])
  }

  lemma {:induction false} CleanersKeepClaims(s: State, next: State)
    requires SameClaims(s.tables, next.tables) && next.clock == s.clock && next.nextToken == s.nextToken
    requires next.workers == s.workers
    requires forall id :: id in s.workers ==> CleanerOk(s, s.workers[id])
    ensures forall id :: id in s.workers ==> CleanerOk(next, s.workers[id])
  {
    forall id | id in s.workers ensures CleanerOk(next, s.workers[id]) {
      assert CleanerOk(s, s.workers[id]);
    }
  }

  lemma {:induction false} PublishKeepsTables(c: Contents, t: Tables, head: Head, chunks: seq<Text>)
    requires Consistent(t) && HeadHoldsContent(c, t) && ClaimsAreUnpublished(t) && DeletionNamesHead(t)
    requires head.revision in c && chunks == ChunksOf(c, head.revision) && head.chunkCount == |chunks|
    ensures var n := Publish(t, head, chunks);
      Consistent(n) && HeadHoldsContent(c, n) && ClaimsAreUnpublished(n) && DeletionNamesHead(n) && SameClaims(t, n)
    ensures MayPublish(t, head.version, head.revision) ==>
      var n := Publish(t, head, chunks);
      !Retiring(n) && n.ledger == Ids(head.revision, head.chunkCount) && (n.ledger == t.ledger ==> !Retiring(t))
  {
    if MayPublish(t, head.version, head.revision) {
      var n := Publish(t, head, chunks);
      forall v | v in n.receipts && n.receipts[v].Claimed? ensures v !in n.ledger {
        assert v in t.receipts;
      }
      Chunking.ChunksAreGreedy(c[head.revision]);
      assert VectorId(head.revision, 0) in n.ledger;
    }
  }

  lemma {:induction false} PublishKeepsReceipts(c: Contents, s: State, next: State, head: Head, chunks: seq<Text>)
    requires Consistent(s.tables) && HeadHoldsContent(c, s.tables) && ReceiptsOk(c, s)
    requires next.tables == Publish(s.tables, head, chunks) && next.nextToken == s.nextToken
    ensures ReceiptsOk(c, next)
  {
  }

  lemma {:induction false} CommitKeepsInv(tr: Trust, c: Contents, s: State, id: nat, responseLost: bool)
    requires Inv(tr, c, s) && Running(s, id, Upserted)
    ensures Inv(tr, c, PublisherStep(tr, c, s, Commit(id, responseLost)))
  {
    var w := s.workers[id];
    assert WorkerOk(c, s, w);
    var chunks := ChunksOf(c, w.head.revision);
    PublishKeepsTables(c, s.tables, w.head, chunks);
    var next := WithTables(s, Publish(s.tables, w.head, chunks));
    PublishKeepsReceipts(c, s, next, w.head, chunks);
    CleanersKeepClaims(s, next);
    forall other | other in s.workers ensures WorkerOk(c, next, s.workers[other]) {
      assert WorkerOk(c, s, s.workers[other]);
    }
    var last := PublisherStep(tr, c, s, Commit(id, responseLost));
    forall other | other in last.workers ensures WorkerOk(c, last, last.workers[other]) {
      if other != id {
        assert WorkerOk(c, next, s.workers[other]);
      }
    }
  }

  lemma {:induction false} DiscardKeepsInv(tr: Trust, c: Contents, s: State, id: nat)
    requires Inv(tr, c, s) && Running(s, id, Rejected)
    ensures Inv(tr, c, PublisherStep(tr, c, s, Discard(id)))
  {
    assert WorkerOk(c, s, s.workers[id]);
    var ids := Ids(s.workers[id].head.revision, |ChunksOf(c, s.workers[id].head.revision)|);
    var t, n := s.tables, QueueUnpublished(s.tables, ids);
    assert SameClaims(t, n);
    var next := WithTables(s, n);
    CleanersKeepClaims(s, next);
    var last := PublisherStep(tr, c, s, Discard(id));
    forall other | other in last.workers ensures WorkerOk(c, last, last.workers[other]) {
      if other != id {
        assert WorkerOk(c, s, s.workers[other]) && CleanerOk(next, s.workers[other]);
      }
    }
  }

  lemma {:induction false} UpsertKeepsInv(tr: Trust, c: Contents, s: State, id: nat)
    requires Inv(tr, c, s) && Running(s, id, Read)
    ensures Inv(tr, c, PublisherStep(tr, c, s, Upsert(id)))
  {
    var next := PublisherStep(tr, c, s, Upsert(id));
    forall other | other in next.workers ensures WorkerOk(c, next, next.workers[other]) {
      assert WorkerOk(c, s, s.workers[other]);
    }
  }

  lemma {:induction false} SecondUpsertKeepsInv(tr: Trust, c: Contents, s: State, id: nat)
    requires Inv(tr, c, s) && Running(s, id, Committed)
    ensures Inv(tr, c, PublisherStep(tr, c, s, UpsertAgain(id)))
  {
    var next := PublisherStep(tr, c, s, UpsertAgain(id));
    forall other | other in next.workers ensures WorkerOk(c, next, next.workers[other]) {
      assert WorkerOk(c, s, s.workers[other]);
    }
    assert WorkerOk(c, s, s.workers[id]);
  }

  lemma {:induction false} PublisherKeepsInv(tr: Trust, c: Contents, s: State, e: Event)
    requires Inv(tr, c, s)
    requires e.Upsert? || e.Commit? || e.Reject? || e.Discard? || e.UpsertAgain?
    ensures Inv(tr, c, PublisherStep(tr, c, s, e))
  {
    if e.Upsert? && Running(s, e.id, Read) {
      UpsertKeepsInv(tr, c, s, e.id);
    } else if e.Commit? && Running(s, e.id, Upserted) {
      CommitKeepsInv(tr, c, s, e.id, e.responseLost);
    } else if e.Discard? && Running(s, e.id, Rejected) {
      DiscardKeepsInv(tr, c, s, e.id);
    } else if e.UpsertAgain? && Running(s, e.id, Committed) {
      SecondUpsertKeepsInv(tr, c, s, e.id);
    } else if e.Reject? && Running(s, e.id, Upserted) {
      var next := PublisherStep(tr, c, s, e);
      forall other | other in next.workers ensures WorkerOk(c, next, next.workers[other]) {
        assert WorkerOk(c, s, s.workers[other]);
      }
    }
  }

  /** Only claims of the token are given up. */
  ghost predicate OthersKeepClaims(t: Tables, n: Tables, token: nat) {
    && (forall v, other {:trigger HoldsClaim(n, v, other)} :: HoldsClaim(n, v, other) ==>
         HoldsClaim(t, v, other) && n.receipts[v] == t.receipts[v])
    && (forall v, other {:trigger HoldsClaim(t, v, other)} :: other != token && HoldsClaim(t, v, other) ==>
         HoldsClaim(n, v, other))
  }

  lemma {:induction false} ReleaseKeepsClaims(t: Tables, token: nat)
    ensures OthersKeepClaims(t, ReleaseClaims(t, token), token)
  {
  }

  lemma {:induction false} FinalizeKeepsClaims(
    t: Tables, published: set<VectorId>, claimed: set<VectorId>, token: nat, now: nat)
    ensures OthersKeepClaims(t, FinalizeReceipts(t, published, claimed, token, now), token)
  {
    var m := t.(receipts := t.receipts - Finalized(t, published, claimed, token, now));
    assert OthersKeepClaims(t, m, token);
    ReleaseKeepsClaims(m, token);
  }

  /** A cleaner gives up its claims and stops. */
  lemma {:induction false} LeavingKeepsInv(tr: Trust, c: Contents, s: State, id: nat, n: Tables)
    requires Inv(tr, c, s) && id in s.workers && s.workers[id].Cleaner?
    requires OthersKeepClaims(s.tables, n, s.workers[id].token)
    requires n.receipts.Keys <= s.tables.receipts.Keys
    requires n == s.tables.(receipts := n.receipts)
    ensures Inv(tr, c, SetWorker(WithTables(s, n), id, Stopped))
  {
    var next := SetWorker(WithTables(s, n), id, Stopped);
    var token := s.workers[id].token;
    forall v | v in n.receipts && n.receipts[v].Claimed?
      ensures v !in n.ledger && n.receipts[v].token < s.nextToken
    {
      assert HoldsClaim(n, v, n.receipts[v].token);
      assert HoldsClaim(s.tables, v, n.receipts[v].token);
    }
    forall other | other in next.workers ensures WorkerOk(c, next, next.workers[other]) {
      if other != id {
        assert WorkerOk(c, s, s.workers[other]);
        assert s.workers[other].Cleaner? ==> s.workers[other].token != token;
      }
    }
  }

  lemma {:induction false} CheckKeepsInv(tr: Trust, c: Contents, s: State, id: nat)
    requires Inv(tr, c, s) && id in s.workers && s.workers[id].Cleaner?
    ensures Inv(tr, c, CleanerStep(tr, s, Check(id)))
  {
    var next := CleanerStep(tr, s, Check(id));
    assert WorkerOk(c, s, s.workers[id]);
    forall other | other in next.workers ensures WorkerOk(c, next, next.workers[other]) {
      assert WorkerOk(c, s, s.workers[other]);
    }
    var w := next.workers[id];
    if w.clean == Checked && next != s && w.claimed != {} {
      var v :| v in w.claimed;
      assert CurrentClaim(s.tables, v, w.token, s.clock);
    }
  }

  /** A careful cleaner issues deletes only for rows it still claims. */
  lemma {:induction false} IssueIsClaimed(tr: Trust, c: Contents, s: State, id: nat, v: VectorId)
    requires Inv(tr, c, s) && IsCareful(tr) && id in s.workers && s.workers[id].Cleaner?
    requires s.workers[id].clean == Checked && InPace(tr, s, s.workers[id]) && v in s.workers[id].claimed
    ensures HoldsClaim(s.tables, v, s.workers[id].token) && v !in s.tables.ledger
  {
    assert WorkerOk(c, s, s.workers[id]);
  }

  lemma {:induction false} IssueKeepsInv(tr: Trust, c: Contents, s: State, id: nat)
    requires Inv(tr, c, s) && id in s.workers && s.workers[id].Cleaner?
    ensures Inv(tr, c, CleanerStep(tr, s, Issue(id)))
  {
    var w := s.workers[id];
    var next := CleanerStep(tr, s, Issue(id));
    if IsCareful(tr) && w.clean == Checked && InPace(tr, s, w) {
      forall v | v in w.claimed ensures v !in s.tables.ledger {
        IssueIsClaimed(tr, c, s, id, v);
      }
    }
    forall other | other in next.workers ensures WorkerOk(c, next, next.workers[other]) {
      assert WorkerOk(c, s, s.workers[other]);
    }
  }

  lemma {:induction false} CleanerKeepsInv(tr: Trust, c: Contents, s: State, e: Event)
    requires Inv(tr, c, s)
    requires e.Check? || e.Issue? || e.ObserveAbsent? || e.Finalize? || e.Release?
    ensures Inv(tr, c, CleanerStep(tr, s, e))
  {
    if e.id in s.workers && s.workers[e.id].Cleaner? {
      var w := s.workers[e.id];
      match e
      case Check(id) => CheckKeepsInv(tr, c, s, id);
      case Issue(id) => IssueKeepsInv(tr, c, s, id);
      case ObserveAbsent(id) =>
        var next := CleanerStep(tr, s, e);
        forall other | other in next.workers ensures WorkerOk(c, next, next.workers[other]) {
          assert WorkerOk(c, s, s.workers[other]);
        }
      case Finalize(id) =>
        FinalizeKeepsClaims(s.tables, w.published, w.claimed, w.token, s.clock);
        LeavingKeepsInv(tr, c, s, id, FinalizeReceipts(s.tables, w.published, w.claimed, w.token, s.clock));
      case Release(id) =>
        ReleaseKeepsClaims(s.tables, w.token);
        LeavingKeepsInv(tr, c, s, id, ReleaseClaims(s.tables, w.token));
    }
  }

  /** A claim is only taken where none is current, so no cleaner loses one that has not expired. */
  lemma {:induction false} ClaimKeepsCleaners(c: Contents, s: State, rows: set<VectorId>, startedAt: nat, w: Worker)
    requires ReceiptsOk(c, s) && CleanerOk(s, w) && startedAt <= s.clock
    ensures CleanerOk(
      s.(tables := ClaimReceipts(s.tables, rows, s.nextToken, startedAt), nextToken := s.nextToken + 1), w)
  {
    var n := ClaimReceipts(s.tables, rows, s.nextToken, startedAt);
    if w.Cleaner? {
      forall v | HoldsClaim(n, v, w.token) ensures n.receipts[v].expiresAt == ExpiresAt(w) {
        assert HoldsClaim(s.tables, v, w.token);
      }
      forall v | v in w.claimed && s.clock < ExpiresAt(w) ensures HoldsClaim(n, v, w.token) {
        assert HoldsClaim(s.tables, v, w.token);
      }
    }
  }

  lemma {:induction false} NewCleanerOk(
    c: Contents, s: State, w: Worker, rows: set<VectorId>, claimed: set<VectorId>, clean: Worker)
    requires ReceiptsOk(c, s) && w.Looked? && w.startedAt <= s.clock && rows == w.rows - w.published
    requires claimed == set v | v in rows && Claimable(s.tables, v, w.startedAt)
    requires clean == Cleaner(w.published, claimed, s.nextToken, w.startedAt, Claiming, w.startedAt)
    ensures CleanerOk(
      s.(tables := ClaimReceipts(s.tables, rows, s.nextToken, w.startedAt), nextToken := s.nextToken + 1), clean)
  {
    var n := ClaimReceipts(s.tables, rows, s.nextToken, w.startedAt);
    forall v | v in claimed ensures HoldsClaim(n, v, s.nextToken) {
      assert Claimable(s.tables, v, w.startedAt);
    }
  }

  lemma {:induction false} ClaimKeepsInv(tr: Trust, c: Contents, s: State, id: nat, responseLost: bool)
    requires Inv(tr, c, s) && id in s.workers && s.workers[id].Looked?
    ensures Inv(tr, c, Step(tr, c, s, ClaimRows(id, responseLost)))
  {
    var w := s.workers[id];
    assert WorkerOk(c, s, w);
    var rows := w.rows - w.published;
    var n := ClaimReceipts(s.tables, rows, s.nextToken, w.startedAt);
    var next := Step(tr, c, s, ClaimRows(id, responseLost));
    var claimed := set v | v in rows && Claimable(s.tables, v, w.startedAt);
    NewCleanerOk(c, s, w, rows, claimed,
      Cleaner(w.published, claimed, s.nextToken, w.startedAt, Claiming, w.startedAt));
    forall other | other in next.workers ensures WorkerOk(c, next, next.workers[other]) {
      if other != id {
        assert WorkerOk(c, s, s.workers[other]);
        ClaimKeepsCleaners(c, s, rows, w.startedAt, s.workers[other]);
      }
    }
    forall other | other in s.workers && s.workers[other].Cleaner? ensures s.workers[other].token < s.nextToken {
      assert WorkerOk(c, s, s.workers[other]);
    }
    forall v | v in n.receipts && n.receipts[v].Claimed? ensures v !in n.ledger && n.receipts[v].token <= s.nextToken {
      assert v in s.tables.receipts;
    }
  }

  /** Batches of a deletion leave receipts and claims alone. */
  lemma {:induction false} DeletionKeepsWorkers(c: Contents, s: State, next: State)
    requires forall id :: id in s.workers ==> WorkerOk(c, s, s.workers[id])
    requires next.tables.receipts == s.tables.receipts && next == WithTables(s, next.tables)
    ensures forall id :: id in s.workers ==> WorkerOk(c, next, s.workers[id])
  {
    forall id | id in s.workers ensures WorkerOk(c, next, s.workers[id]) {
      assert WorkerOk(c, s, s.workers[id]);
    }
  }

  lemma {:induction false} BeginKeepsInv(tr: Trust, c: Contents, s: State, e: Event)
    requires Inv(tr, c, s) && e.RecordDeletion?
    ensures Inv(tr, c, Step(tr, c, s, e))
  {
    DeletionKeepsWorkers(c, s, Step(tr, c, s, e));
  }

  lemma {:induction false} FinishKeepsInv(tr: Trust, c: Contents, s: State, id: nat)
    requires Inv(tr, c, s) && id in s.workers && s.workers[id].Remover?
    ensures Inv(tr, c, RemoverStep(tr, s, Finish(id)))
  {
    var d := s.workers[id].deletion;
    var next := WithTables(s, FinishDeletion(s.tables, d));
    DeletionKeepsWorkers(c, s, next);
    var last := RemoverStep(tr, s, Finish(id));
    forall other | other in last.workers ensures WorkerOk(c, last, last.workers[other]) {
      if other != id {
        assert WorkerOk(c, next, s.workers[other]) && WorkerOk(c, s, s.workers[other]);
      }
    }
  }

  lemma {:induction false} RetireKeepsInv(tr: Trust, c: Contents, s: State, id: nat)
    requires Inv(tr, c, s) && id in s.workers && s.workers[id].Remover?
    ensures Inv(tr, c, RemoverStep(tr, s, IssueRetire(id)))
  {
    var next := RemoverStep(tr, s, IssueRetire(id));
    forall other | other in next.workers ensures WorkerOk(c, next, next.workers[other]) {
      assert WorkerOk(c, s, s.workers[other]);
    }
    var d := s.workers[id].deletion;
    if IsCareful(tr) && s.confirmed && !Retiring(s.tables) && s.tables.deletion == Some(d) {
      forall v | v in Ids(d.revision, d.chunkCount) ensures v !in s.tables.ledger {
      }
    }
  }

  /** Events that change neither tables nor index. */
  lemma {:induction false} QuietKeepsInv(tr: Trust, c: Contents, s: State, e: Event)
    requires Inv(tr, c, s)
    requires e.Tick? || e.Start? || e.ReadPage? || e.Look? || e.AdoptDeletion? || e.Stop?
    ensures Inv(tr, c, Step(tr, c, s, e))
  {
    var next := Step(tr, c, s, e);
    forall other | other in next.workers ensures WorkerOk(c, next, next.workers[other]) {
      if other in s.workers {
        assert WorkerOk(c, s, s.workers[other]);
      }
    }
  }

  lemma {:induction false} ApplyKeepsInv(tr: Trust, c: Contents, s: State, deletes: set<Delete>)
    requires Inv(tr, c, s)
    ensures Inv(tr, c, Step(tr, c, s, Apply(deletes)))
  {
    var next := Step(tr, c, s, Apply(deletes));
    forall other | other in next.workers ensures WorkerOk(c, next, next.workers[other]) {
      assert WorkerOk(c, s, s.workers[other]);
    }
  }

  lemma {:induction false} StepKeepsInv(tr: Trust, c: Contents, s: State, e: Event)
    requires Inv(tr, c, s)
    ensures Inv(tr, c, Step(tr, c, s, e))
  {
    match e
    case Upsert(_) => PublisherKeepsInv(tr, c, s, e);
    case Commit(_, _) => PublisherKeepsInv(tr, c, s, e);
    case Reject(_) => PublisherKeepsInv(tr, c, s, e);
    case Discard(_) => PublisherKeepsInv(tr, c, s, e);
    case UpsertAgain(_) => PublisherKeepsInv(tr, c, s, e);
    case Check(_) => CleanerKeepsInv(tr, c, s, e);
    case Issue(_) => CleanerKeepsInv(tr, c, s, e);
    case ObserveAbsent(_) => CleanerKeepsInv(tr, c, s, e);
    case Finalize(_) => CleanerKeepsInv(tr, c, s, e);
    case Release(_) => CleanerKeepsInv(tr, c, s, e);
    case ClaimRows(id, responseLost) =>
      if id in s.workers && s.workers[id].Looked? {
        ClaimKeepsInv(tr, c, s, id, responseLost);
      }
    case RecordDeletion(_, _, _) => BeginKeepsInv(tr, c, s, e);
    case IssueRetire(id) =>
      if id in s.workers && s.workers[id].Remover? {
        RetireKeepsInv(tr, c, s, id);
      }
    case Finish(id) =>
      if id in s.workers && s.workers[id].Remover? {
        FinishKeepsInv(tr, c, s, id);
      }
    case Apply(deletes) => ApplyKeepsInv(tr, c, s, deletes);
    case _ => QuietKeepsInv(tr, c, s, e);
  }

  /** Every interleaving keeps the invariant, whatever the index and the pace are trusted with. */
  lemma {:induction false} RunsKeepInv(tr: Trust, c: Contents, events: seq<Event>)
    ensures Inv(tr, c, Run(tr, c, events))
  {
    if events != [] {
      RunsKeepInv(tr, c, events[..|events| - 1]);
      StepKeepsInv(tr, c, Run(tr, c, events[..|events| - 1]), events[|events| - 1]);
    }
  }
}
