/** The three commit plans, and what executing each as one batch comes to. */
module CommitPlans {
  import opened Common
  import opened CommitStore

  // ----- The last three statements of every plan

  function Ending(f: Fence, key: IdempotencyKey, record: Record, event: OutboxEvent, hash: Hash): seq<Statement> {
    [InsertRecord(f, key, record), InsertOutbox(f, f.version + 1, event), UpdateProject(f, hash)]
  }

  function Finished(d: Db, key: IdempotencyKey, record: Record, event: OutboxEvent, hash: Hash): Db {
    d.(version := d.version + 1, head := Some(hash),
       log := Log(d.log.audits, d.log.records[key := record], d.log.outbox[d.version + 1 := event]))
  }

  predicate MayFinish(d: Db, key: IdempotencyKey, record: Record) {
    key !in d.log.records && record.audit in d.log.audits && d.version + 1 !in d.log.outbox
  }

  lemma {:induction false} PlanFinishes(d: Db, f: Fence, key: IdempotencyKey, record: Record, event: OutboxEvent,
    hash: Hash)
    ensures ExecAll(d, Ending(f, key, record, event, hash)) ==
      if !Holds(d, f) then Some(d)
      else if MayFinish(d, key, record) then Some(Finished(d, key, record, event, hash))
      else None
  {
    ExecThree(d, Ending(f, key, record, event, hash));
  }

  lemma {:induction false} PlanRuns(db: Db, start: seq<Statement>, f: Fence, key: IdempotencyKey, record: Record,
    event: OutboxEvent,
                 hash: Hash, d: Option<Db>)
    requires ExecAll(db, start) == d
    ensures Batch(db, start + Ending(f, key, record, event, hash)) ==
      if d == None then db
      else if !Holds(d.value, f) then d.value
      else if MayFinish(d.value, key, record) then Finished(d.value, key, record, event, hash)
      else db
  {
    ExecConcat(db, start, Ending(f, key, record, event, hash));
    if d.Some? {
      PlanFinishes(d.value, f, key, record, event, hash);
    }
  }

  // ----- Changing a memory

  datatype Mutation = Mutation(
    operation: Operation, expectedVersion: nat, memory: MemoryId, expectedMemoryVersion: nat, revision: RevisionId,
    actor: PrincipalId, request: Digest, content: Digest, key: nat, status: MemoryStatus,
    previous: Option<Hash>, hash: Hash)

  function MutationRow(i: Mutation): Revision {
    Revision(i.memory, i.expectedMemoryVersion + 1, i.content, i.expectedVersion + 1, None)
  }

  function MutationKey(i: Mutation): IdempotencyKey {
    IdempotencyKey(i.actor, i.operation, i.key)
  }

  function MutationRecord(i: Mutation): Record {
    Record(i.request, MemoryResponse(i.memory, i.expectedMemoryVersion + 1, i.revision, i.expectedVersion + 1),
           i.expectedVersion + 1)
  }

  function MutationStart(i: Mutation): seq<Statement> {
    var f := Fence(i.expectedVersion, NoFence);
    [InsertAudit(f, i.expectedVersion + 1, MutationAudit(i)),
     InsertRevision(f, i.revision, MutationRow(i)),
     UpdateMemory(f, i.memory, i.expectedMemoryVersion, i.revision, Some(i.status))]
  }

  /** `buildMemoryMutationPlan` */
  function MutationPlan(i: Mutation): seq<Statement> {
    MutationStart(i)
    + Ending(Fence(i.expectedVersion, NoFence), MutationKey(i), MutationRecord(i), MemoryChanged(i.memory), i.hash)
  }

  ghost predicate MayChangeMemory(db: Db, i: Mutation) {
    && AuditFits(db, i.expectedVersion + 1, MutationAudit(i))
    && i.memory in db.formal.memories && db.formal.memories[i.memory].version == i.expectedMemoryVersion
    && i.revision !in db.formal.revisions
    && (forall o :: o in db.formal.revisions ==>
          !(db.formal.revisions[o].memory == i.memory && db.formal.revisions[o].version == i.expectedMemoryVersion + 1))
    && CurrentFits(db, i.memory, i.revision)
  }

  /** The versions and hash the caller read still hold, and none of its unique keys is taken. */
  ghost predicate MayMutate(db: Db, i: Mutation) {
    && db.version == i.expectedVersion
    && MayChangeMemory(db, i)
    && MutationKey(i) !in db.log.records && i.expectedVersion + 1 !in db.log.outbox
  }

  function Audited(db: Db, a: Audit): Db {
    db.(log := db.log.(audits := db.log.audits[db.version + 1 := a]))
  }

  function MutationAudit(i: Mutation): Audit {
    Audit(i.actor, i.request, i.previous, i.hash)
  }

  function MutatedFormals(f: Formals, i: Mutation): Formals
    requires i.memory in f.memories
  {
    f.(revisions := f.revisions[i.revision := MutationRow(i)],
       memories := f.memories[i.memory :=
         Memory(Some(i.revision), i.expectedMemoryVersion + 1, i.status, f.memories[i.memory].scope)])
  }

  /** Everything a mutation changes besides the record, the outbox and the project row. */
  function MutatedMemory(db: Db, i: Mutation): Db
    requires i.memory in db.formal.memories
  {
    Audited(db, MutationAudit(i)).(formal := MutatedFormals(db.formal, i))
  }

  function Mutated(db: Db, i: Mutation): Db
    requires i.memory in db.formal.memories
  {
    Finished(MutatedMemory(db, i), MutationKey(i), MutationRecord(i), MemoryChanged(i.memory), i.hash)
  }

  lemma {:induction false} MutationStarts(db: Db, i: Mutation)
    requires db.version == i.expectedVersion
    ensures ExecAll(db, MutationStart(i)) == if MayChangeMemory(db, i) then Some(MutatedMemory(db, i)) else None
  {
    var d := Audited(db, MutationAudit(i));
    ExecThree(db, MutationStart(i));
    assert Exec(db, MutationStart(i)[0]) ==
      if AuditFits(db, i.expectedVersion + 1, MutationAudit(i)) then Some(d) else None;
    assert Exec(d, MutationStart(i)[1]) ==
      if RevisionFits(d, i.revision, MutationRow(i))
      then Some(d.(formal := d.formal.(revisions := d.formal.revisions[i.revision := MutationRow(i)]))) else None;
  }

  /** Whatever the store holds, a mutation batch applies all its statements or none. */
  lemma {:induction false} MutationIsAllOrNothing(db: Db, i: Mutation)
    ensures Batch(db, MutationPlan(i)) == if MayMutate(db, i) then Mutated(db, i) else db
  {
    if db.version == i.expectedVersion {
      MutationStarts(db, i);
    } else {
      FencedPlanWritesNothing(db, MutationStart(i));
    }
    PlanRuns(db, MutationStart(i), Fence(i.expectedVersion, NoFence), MutationKey(i), MutationRecord(i),
             MemoryChanged(i.memory), i.hash, ExecAll(db, MutationStart(i)));
  }

  // ----- Deciding a candidate: the three statements reviews and promotions share

  datatype Outcome = Outcome(
    expectedVersion: nat, candidate: CandidateId, expectedCandidateVersion: nat, request: RequestId,
    decision: DecisionId, verdict: Verdict, formal: Option<Formal>)

  function OutcomeStatus(v: Verdict): CandidateStatus {
    match v case Approve => Promoted case Reject => Rejected case AskChanges => RequestChanges
  }

  function RequestOutcome(v: Verdict): RequestStatus {
    match v case Approve => Approved case Reject => Refused case AskChanges => ChangesRequested
  }

  function ReviewFence(o: Outcome): Fence {
    Fence(o.expectedVersion, ReviewableAt(o.candidate, o.expectedCandidateVersion))
  }

  function DecisionRow(o: Outcome): Decision {
    Decision(o.request, o.candidate, o.expectedCandidateVersion + 1, o.verdict, o.expectedVersion + 1)
  }

  function Deciding(o: Outcome): seq<Statement> {
    [InsertDecision(ReviewFence(o), o.decision, DecisionRow(o)),
     UpdateRequest(ReviewFence(o), o.request, o.candidate, RequestOutcome(o.verdict), o.expectedVersion + 1),
     UpdateCandidate(Fence(o.expectedVersion, NoFence), o.candidate, o.expectedCandidateVersion,
       OutcomeStatus(o.verdict),
                     o.formal)]
  }

  function DecidedRow(c: Candidate, o: Outcome): Candidate {
    Candidate(o.expectedCandidateVersion + 1, OutcomeStatus(o.verdict), if o.formal.Some? then o.formal
      else c.promotedTo)
  }

  /** The candidate row after the decision. */
  function DecidedCandidate(r: Reviews, o: Outcome): Reviews
    requires o.candidate in r.candidates
  {
    r.(candidates := r.candidates[o.candidate := DecidedRow(r.candidates[o.candidate], o)])
  }

  function Decided(r: Reviews, o: Outcome): Reviews
    requires o.candidate in r.candidates
  {
    Reviews(r.candidates[o.candidate := DecidedRow(r.candidates[o.candidate], o)],
            r.requests[o.request := ReviewRequest(o.candidate, RequestOutcome(o.verdict), Some(o.expectedVersion + 1))],
            r.decisions[o.decision := DecisionRow(o)])
  }

  lemma {:induction false} DecidingRuns(db: Db, o: Outcome)
    ensures ExecAll(db, Deciding(o)) ==
      if !Holds(db, ReviewFence(o)) then Some(db)
      else if !RequestOpen(db, o.request, o.candidate) then Some(db.(reviews := DecidedCandidate(db.reviews, o)))
      else if DecisionFits(db, o.decision, DecisionRow(o)) then Some(db.(reviews := Decided(db.reviews, o)))
      else None
  {
    ExecThree(db, Deciding(o));
  }

  // ----- Rejecting a candidate or asking for changes

  datatype Review = Review(
    outcome: Outcome, actor: PrincipalId, digest: Digest, key: nat, previous: Option<Hash>, hash: Hash)

  function ReviewKey(actor: PrincipalId, key: nat): IdempotencyKey {
    IdempotencyKey(actor, CandidateReview, key)
  }

  function ReviewRecord(i: Review): Record {
    var o := i.outcome;
    Record(i.digest,
           ReviewResponse(o.candidate, o.expectedCandidateVersion + 1, OutcomeStatus(o.verdict), o.expectedVersion + 1),
           o.expectedVersion + 1)
  }

  function ReviewAudit(i: Review): Audit {
    Audit(i.actor, i.digest, i.previous, i.hash)
  }

  function ReviewedFence(o: Outcome): Fence {
    Fence(o.expectedVersion, ReviewedAs(o.candidate, o.expectedCandidateVersion + 1, OutcomeStatus(o.verdict)))
  }

  function ReviewStart(i: Review): seq<Statement> {
    [InsertAudit(ReviewFence(i.outcome), i.outcome.expectedVersion + 1, ReviewAudit(i))] + Deciding(i.outcome)
  }

  /** `buildCandidateReviewPlan` */
  function ReviewPlan(i: Review): seq<Statement> {
    ReviewStart(i)
    + Ending(ReviewedFence(i.outcome), ReviewKey(i.actor, i.key), ReviewRecord(i),
      CandidateReviewed(i.outcome.candidate),
             i.hash)
  }

  function FinishReview(db: Db, i: Review): Db {
    Finished(db, ReviewKey(i.actor, i.key), ReviewRecord(i), CandidateReviewed(i.outcome.candidate), i.hash)
  }

  /** All of a review's changes. */
  function Reviewed(db: Db, i: Review): Db
    requires i.outcome.candidate in db.reviews.candidates
  {
    FinishReview(Audited(db, ReviewAudit(i)).(reviews := Decided(db.reviews, i.outcome)), i)
  }

  ghost predicate MayReview(db: Db, i: Review) {
    var o := i.outcome;
    && Holds(db, ReviewFence(o))
    && AuditFits(db, o.expectedVersion + 1, ReviewAudit(i))
    && (RequestOpen(db, o.request, o.candidate) ==>
          DecisionFits(Audited(db, ReviewAudit(i)), o.decision, DecisionRow(o)))
    && ReviewKey(i.actor, i.key) !in db.log.records && o.expectedVersion + 1 !in db.log.outbox
  }

  ghost predicate ReviewCommits(db: Db, i: Review) {
    MayReview(db, i) && RequestOpen(db, i.outcome.request, i.outcome.candidate)
  }

  lemma {:induction false} ReviewStarts(db: Db, i: Review)
    ensures ExecAll(db, ReviewStart(i)) ==
      if !Holds(db, ReviewFence(i.outcome)) then Some(db)
      else if !AuditFits(db, i.outcome.expectedVersion + 1, ReviewAudit(i)) then None
      else ExecAll(Audited(db, ReviewAudit(i)), Deciding(i.outcome))
  {
    var first := [InsertAudit(ReviewFence(i.outcome), i.outcome.expectedVersion + 1, ReviewAudit(i))];
    ExecNext(db, [], first[0]);
    assert [] + first == first;
    ExecConcat(db, first, Deciding(i.outcome));
    if !Holds(db, ReviewFence(i.outcome)) {
      DecidingRuns(db, i.outcome);
    }
  }

  lemma {:induction false} StaleReviewRuns(db: Db, i: Review)
    requires !Holds(db, ReviewFence(i.outcome))
    ensures Batch(db, ReviewPlan(i)) ==
      if Holds(db, ReviewedFence(i.outcome)) && MayFinish(db, ReviewKey(i.actor, i.key), ReviewRecord(i))
      then FinishReview(db, i) else db
  {
    ReviewStarts(db, i);
    PlanRuns(db, ReviewStart(i), ReviewedFence(i.outcome), ReviewKey(i.actor, i.key), ReviewRecord(i),
             CandidateReviewed(i.outcome.candidate), i.hash, Some(db));
  }

  /** With an open request all of the decision is written, without one only the candidate moves. */
  function DecidedAsFar(db: Db, o: Outcome): Db
    requires o.candidate in db.reviews.candidates
  {
    db.(reviews := if RequestOpen(db, o.request, o.candidate) then Decided(db.reviews, o)
      else DecidedCandidate(db.reviews, o))
  }

  lemma {:induction false} CurrentReviewStarts(db: Db, i: Review, d: Db)
    requires Holds(db, ReviewFence(i.outcome)) && d == Audited(db, ReviewAudit(i))
    ensures ExecAll(db, ReviewStart(i)) ==
      if !AuditFits(db, i.outcome.expectedVersion + 1, ReviewAudit(i)) then None
      else if RequestOpen(d, i.outcome.request, i.outcome.candidate)
        && !DecisionFits(d, i.outcome.decision, DecisionRow(i.outcome))
      then None
      else Some(DecidedAsFar(d, i.outcome))
  {
    ReviewStarts(db, i);
    DecidingRuns(d, i.outcome);
  }

  lemma {:induction false} CurrentReviewRuns(db: Db, i: Review, d: Db)
    requires Holds(db, ReviewFence(i.outcome)) && d == Audited(db, ReviewAudit(i))
    ensures Batch(db, ReviewPlan(i)) ==
      if MayReview(db, i) then FinishReview(DecidedAsFar(d, i.outcome), i) else db
  {
    CurrentReviewStarts(db, i, d);
    PlanRuns(db, ReviewStart(i), ReviewedFence(i.outcome), ReviewKey(i.actor, i.key), ReviewRecord(i),
             CandidateReviewed(i.outcome.candidate), i.hash, ExecAll(db, ReviewStart(i)));
  }

  /**
   The two ways a review batch could be torn: no open request, or a candidate already decided without an audit gap.
   */
  ghost predicate ReviewTears(db: Db, i: Review) {
    if Holds(db, ReviewFence(i.outcome))
    then MayReview(db, i) && !RequestOpen(db, i.outcome.request, i.outcome.candidate)
    else Holds(db, ReviewedFence(i.outcome)) && MayFinish(db, ReviewKey(i.actor, i.key), ReviewRecord(i))
  }

  /** A review batch applies all its statements or none, exactly where it is not torn. */
  lemma {:induction false} ReviewIsAllOrNothing(db: Db, i: Review)
    ensures Batch(db, ReviewPlan(i)) == (if ReviewCommits(db, i) then Reviewed(db, i) else db) <==> !ReviewTears(db, i)
  {
    if Holds(db, ReviewFence(i.outcome)) {
      var d := Audited(db, ReviewAudit(i));
      CurrentReviewRuns(db, i, d);
      assert FinishReview(DecidedAsFar(d, i.outcome), i).version != db.version;
    } else {
      StaleReviewRuns(db, i);
    }
  }
}
