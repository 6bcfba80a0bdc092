/**
 The formal memory tables of one project and the guarded statements of the commit plans
 (src/storage/mutation-plan.ts, src/storage/review-plan.ts, src/storage/promotion-plan.ts, migrations/0001_initial.sql).
 */
module CommitStore {
  import opened Common

  type PrincipalId = nat
  type MemoryId = nat
  type RevisionId = nat
  type CandidateId = nat
  type DecisionId = nat
  type EvidenceId = nat
  type Digest = nat

  /** sha256 over the previous hash, the request digest and the version. */
  datatype Hash = Hash(previous: Option<Hash>, request: Digest, version: nat)

  /** The audit identifier is the project's identifier and the sequence. */
  datatype Audit = Audit(actor: PrincipalId, request: Digest, previous: Option<Hash>, hash: Hash)

  datatype MemoryStatus = Active | Invalidated

  datatype Memory = Memory(current: Option<RevisionId>, version: nat, status: MemoryStatus, scope: nat)

  datatype Revision = Revision(memory: MemoryId, version: nat, content: Digest, audit: nat, source: Option<CandidateId>)

  datatype CandidateStatus = Queued | PendingReview | RequestChanges | Rejected | Promoted | Noop

  datatype Formal = Formal(memory: MemoryId, revision: RevisionId)

  datatype Candidate = Candidate(version: nat, status: CandidateStatus, promotedTo: Option<Formal>)

  datatype RequestId = ForCandidate(candidate: CandidateId) | ForDelta(delta: nat)

  datatype RequestStatus = Pending | ChangesRequested | Approved | Refused

  datatype ReviewRequest = ReviewRequest(candidate: CandidateId, status: RequestStatus, audit: Option<nat>)

  datatype Verdict = Approve | Reject | AskChanges

  datatype Decision = Decision(request: RequestId, candidate: CandidateId, version: nat, verdict: Verdict, audit: nat)

  datatype Operation = Correct | Invalidate | Rollback | CandidateReview

  datatype IdempotencyKey = IdempotencyKey(principal: PrincipalId, operation: Operation, key: nat)

  datatype Response =
    | MemoryResponse(memory: MemoryId, memoryVersion: nat, revision: RevisionId, projectVersion: nat)
    | ReviewResponse(candidate: CandidateId, candidateVersion: nat, status: CandidateStatus, projectVersion: nat)
    | PromotionResponse(candidate: CandidateId, candidateVersion: nat, memory: MemoryId, revision: RevisionId,
                        projectVersion: nat)

  datatype Record = Record(request: Digest, response: Response, audit: nat)

  datatype OutboxEvent = MemoryChanged(memory: MemoryId) | CandidateReviewed(candidate: CandidateId)

  /** `key` is the tuple of source type, locator and excerpt hash. */
  datatype Evidence = Evidence(key: nat, id: EvidenceId)

  datatype Link = Link(revision: RevisionId, evidence: EvidenceId)

  datatype Formals = Formals(
    memories: map<MemoryId, Memory>, contexts: map<MemoryId, nat>, revisions: map<RevisionId, Revision>,
    evidence: map<nat, EvidenceId>, links: set<Link>)

  datatype Reviews = Reviews(
    candidates: map<CandidateId, Candidate>, requests: map<RequestId, ReviewRequest>, decisions: map<DecisionId,
      Decision>)

  datatype Log = Log(audits: map<nat, Audit>, records: map<IdempotencyKey, Record>, outbox: map<nat, OutboxEvent>)

  /** `version` and `head` are the project row. */
  datatype Db = Db(
    version: nat, head: Option<Hash>, maintainers: set<PrincipalId>, formal: Formals, reviews: Reviews, log: Log)

  datatype CandidateFence =
    | NoFence
    | ReviewableAt(candidate: CandidateId, version: nat)
    | ReviewedAs(candidate: CandidateId, version: nat, status: CandidateStatus)
    | PromotedAs(candidate: CandidateId, version: nat, memory: MemoryId)

  /** Every statement repeats the project version, most of them a candidate state too. */
  datatype Fence = Fence(version: nat, candidate: CandidateFence)

  datatype Statement =
    | InsertAudit(fence: Fence, sequence: nat, event: Audit)
    | InsertMemory(fence: Fence, memory: MemoryId, scope: nat)
    | InsertContext(fence: Fence, memory: MemoryId, repository: nat)
    | InsertRevision(fence: Fence, revision: RevisionId, row: Revision)
    | UpdateMemory(fence: Fence, memory: MemoryId, expected: nat, revision: RevisionId, becomes: Option<MemoryStatus>)
    | InsertEvidence(fence: Fence, evidence: Evidence)
    | LinkEvidence(fence: Fence, revision: RevisionId, key: nat)
    | InsertDecision(fence: Fence, decisionId: DecisionId, decision: Decision)
    | UpdateRequest(fence: Fence, request: RequestId, candidate: CandidateId, status: RequestStatus, audit: nat)
    | UpdateCandidate(fence: Fence, candidate: CandidateId, expected: nat, outcome: CandidateStatus,
      formal: Option<Formal>)
    | InsertRecord(fence: Fence, id: IdempotencyKey, record: Record)
    | InsertOutbox(fence: Fence, sequence: nat, message: OutboxEvent)
    | UpdateProject(fence: Fence, hash: Hash)

  predicate Reviewable(s: CandidateStatus) {
    s == PendingReview || s == RequestChanges
  }

  predicate Open(s: RequestStatus) {
    s == Pending || s == ChangesRequested
  }

  predicate CandidateHolds(db: Db, f: CandidateFence) {
    match f
    case NoFence => true
    case ReviewableAt(c, v) => c in db.reviews.candidates && db.reviews.candidates[c].version == v
      && Reviewable(db.reviews.candidates[c].status)
    case ReviewedAs(c, v, s) => c in db.reviews.candidates && db.reviews.candidates[c].version == v
      && db.reviews.candidates[c].status == s
    case PromotedAs(c, v, m) =>
      && c in db.reviews.candidates && db.reviews.candidates[c].version == v
        && db.reviews.candidates[c].status == Promoted
      && db.reviews.candidates[c].promotedTo.Some? && db.reviews.candidates[c].promotedTo.value.memory == m
  }

  predicate Holds(db: Db, f: Fence) {
    db.version == f.version && CandidateHolds(db, f.candidate)
  }

  predicate RequestOpen(db: Db, r: RequestId, c: CandidateId) {
    r in db.reviews.requests && db.reviews.requests[r].candidate == c && Open(db.reviews.requests[r].status)
  }

  // What each unique key, foreign key and trigger demands of an insert.

  ghost predicate AuditFits(db: Db, sequence: nat, a: Audit) {
    && a.actor in db.maintainers
    && sequence == db.version + 1 && db.head == a.previous
    && sequence !in db.log.audits && (forall s :: s in db.log.audits ==> db.log.audits[s].hash != a.hash)
  }

  ghost predicate RevisionFits(db: Db, id: RevisionId, r: Revision) {
    && r.memory in db.formal.memories && r.version >= 1 && db.formal.memories[r.memory].version == r.version - 1
    && id !in db.formal.revisions && r.audit in db.log.audits
    && (forall o :: o in db.formal.revisions ==>
      !(db.formal.revisions[o].memory == r.memory && db.formal.revisions[o].version == r.version))
  }

  ghost predicate DecisionFits(db: Db, id: DecisionId, d: Decision) {
    && id !in db.reviews.decisions && d.audit in db.log.audits
    && (forall o :: o in db.reviews.decisions ==>
          !(db.reviews.decisions[o].candidate == d.candidate && db.reviews.decisions[o].version == d.version))
  }

  /** A current revision belongs to one memory only. */
  ghost predicate CurrentFits(db: Db, m: MemoryId, r: RevisionId) {
    forall o :: o in db.formal.memories && o != m ==> db.formal.memories[o].current != Some(r)
  }

  ghost predicate EvidenceFits(evidence: map<nat, EvidenceId>, e: Evidence) {
    e.key in evidence || (forall k :: k in evidence ==> evidence[k] != e.id)
  }

  function WithEvidence(evidence: map<nat, EvidenceId>, e: Evidence): map<nat, EvidenceId> {
    if e.key in evidence then evidence else evidence[e.key := e.id]
  }

  /** One statement whose fence holds; `None` aborts the batch. */
  ghost function Apply(db: Db, s: Statement): Option<Db> {
    match s
    case InsertAudit(_, sequence, a) =>
      if AuditFits(db, sequence, a) then Some(db.(log := db.log.(audits := db.log.audits[sequence := a]))) else None
    case InsertMemory(_, m, scope) =>
      if m in db.formal.memories then None
        else Some(db.(formal := db.formal.(memories := db.formal.memories[m := Memory(None, 0, Active, scope)])))
    case InsertContext(_, m, repository) =>
      if m !in db.formal.memories || m in db.formal.contexts then None
        else Some(db.(formal := db.formal.(contexts := db.formal.contexts[m := repository])))
    case InsertRevision(_, id, r) =>
      if RevisionFits(db, id, r) then Some(db.(formal := db.formal.(revisions := db.formal.revisions[id := r])))
        else None
    case UpdateMemory(_, m, expected, r, status) =>
      if m !in db.formal.memories || db.formal.memories[m].version != expected then Some(db)
      else if !CurrentFits(db, m, r) then None
      else Some(db.(formal := db.formal.(memories := db.formal.memories[m := Memory(
             Some(r), expected + 1, if status.Some? then status.value
               else db.formal.memories[m].status, db.formal.memories[m].scope)])))
    case InsertEvidence(_, e) =>
      if EvidenceFits(db.formal.evidence, e) then
        Some(db.(formal := db.formal.(evidence := WithEvidence(db.formal.evidence, e)))) else None
    case LinkEvidence(_, r, key) =>
      if key !in db.formal.evidence then Some(db)
      else if r !in db.formal.revisions || Link(r, db.formal.evidence[key]) in db.formal.links then None
      else Some(db.(formal := db.formal.(links := db.formal.links + {Link(r, db.formal.evidence[key])})))
    case InsertDecision(_, id, d) =>
      if !RequestOpen(db, d.request, d.candidate) then Some(db)
      else if DecisionFits(db, id, d) then Some(db.(reviews := db.reviews.(decisions := db.reviews.decisions[id := d])))
        else None
    case UpdateRequest(_, r, c, status, audit) =>
      if !RequestOpen(db, r, c) then Some(db)
      else if audit !in db.log.audits then None
      else Some(db.(reviews := db.reviews.(requests :=
        db.reviews.requests[r := ReviewRequest(c, status, Some(audit))])))
    case UpdateCandidate(_, c, expected, status, formal) =>
      if !CandidateHolds(db, ReviewableAt(c, expected)) then Some(db)
      else if status !in {Promoted, Rejected, RequestChanges} then None
      else Some(db.(reviews := db.reviews.(candidates := db.reviews.candidates[c := Candidate(
             expected + 1, status, if formal.Some? then formal else db.reviews.candidates[c].promotedTo)])))
    case InsertRecord(_, key, record) =>
      if key in db.log.records || record.audit !in db.log.audits then None
        else Some(db.(log := db.log.(records := db.log.records[key := record])))
    case InsertOutbox(_, sequence, event) =>
      if sequence in db.log.outbox then None else Some(db.(log := db.log.(outbox := db.log.outbox[sequence := event])))
    case UpdateProject(_, hash) =>
      Some(db.(version := db.version + 1, head := Some(hash)))
  }

  ghost function Exec(db: Db, s: Statement): Option<Db> {
    if Holds(db, s.fence) then Apply(db, s) else Some(db)
  }

  ghost function Then(o: Option<Db>, s: Statement): Option<Db> {
    if o.Some? then Exec(o.value, s) else None
  }

  ghost function ExecAll(db: Db, statements: seq<Statement>): Option<Db> {
    if statements == [] then Some(db)
    else Then(ExecAll(db, statements[..|statements| - 1]), statements[|statements| - 1])
  }

  /** `database.batch(statements)`: one transaction. */
  ghost function Batch(db: Db, statements: seq<Statement>): Db {
    if ExecAll(db, statements).Some? then ExecAll(db, statements).value else db
  }

  lemma {:induction false} ExecNext(db: Db, statements: seq<Statement>, s: Statement)
    ensures ExecAll(db, statements + [s]) == Then(ExecAll(db, statements), s)
  {
    assert (statements + [s])[..|statements|] == statements;
  }

  lemma {:induction false} ExecConcat(db: Db, a: seq<Statement>, b: seq<Statement>)
    ensures ExecAll(db, a + b) == if ExecAll(db, a).Some? then ExecAll(ExecAll(db, a).value, b) else None
  {
    if b == [] {
      assert a + b == a;
    } else {
      assert a + b == (a + b[..|b| - 1]) + [b[|b| - 1]];
      ExecConcat(db, a, b[..|b| - 1]);
      ExecNext(db, a + b[..|b| - 1], b[|b| - 1]);
    }
  }

  lemma {:induction false} ExecThree(db: Db, q: seq<Statement>)
    requires |q| == 3
    ensures ExecAll(db, q) == Then(Then(Exec(db, q[0]), q[1]), q[2])
  {
    assert q == [q[0]] + [q[1]] + [q[2]];
    ExecNext(db, [q[0]] + [q[1]], q[2]);
    ExecNext(db, [q[0]], q[1]);
    ExecNext(db, [], q[0]);
    assert [] + [q[0]] == [q[0]];
  }

  /** Statements whose fences do not hold do nothing at all. */
  lemma {:induction false} FencedPlanWritesNothing(db: Db, statements: seq<Statement>)
    requires forall i :: 0 <= i < |statements| ==> !Holds(db, statements[i].fence)
    ensures ExecAll(db, statements) == Some(db)
  {
    if statements != [] {
      FencedPlanWritesNothing(db, statements[..|statements| - 1]);
    }
  }
}
