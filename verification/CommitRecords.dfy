/** What the tables say about the commits that made them, in every run. */
module CommitRecords {
  import opened Common
  import opened CommitStore
  import opened CommitPlans
  import opened CommitPromotion
  import opened CommitProtocol
  import opened CommitResults

  // ----- What one commit writes

  /** Rows of earlier commits are never changed. */
  ghost predicate RowsKept(db: Db, u: Db) {
    && (forall s :: s in db.log.audits ==> s in u.log.audits && u.log.audits[s] == db.log.audits[s])
    && (forall k :: k in db.log.records ==> k in u.log.records && u.log.records[k] == db.log.records[k])
    && (forall s :: s in db.log.outbox ==> s in u.log.outbox && u.log.outbox[s] == db.log.outbox[s])
    && (forall r :: r in db.formal.revisions ==>
      r in u.formal.revisions && u.formal.revisions[r] == db.formal.revisions[r])
    && (forall d :: d in db.reviews.decisions ==>
          d in u.reviews.decisions && u.reviews.decisions[d] == db.reviews.decisions[d])
    && (forall q :: q in db.reviews.requests ==>
          q in u.reviews.requests && u.reviews.requests[q].candidate == db.reviews.requests[q].candidate)
  }

  lemma {:induction false} CommitKeepsRows(db: Db, p: Plan)
    requires LogOk(db) && Commits(db, p)
    ensures RowsKept(db, Committed(db, p))
  {
    CommitAdvancesLog(db, p);
  }

  /** The new revision holds the content, memory and version asked for, and becomes the memory's current one. */
  lemma {:induction false} MutationWrites(db: Db, i: Mutation)
    requires LogOk(db) && Commits(db, ForMutation(i))
    ensures var u := Committed(db, ForMutation(i)); var s := db.version + 1;
      && i.revision !in db.formal.revisions && u.formal.revisions.Keys == db.formal.revisions.Keys + {i.revision}
      && var row := u.formal.revisions[i.revision];
      && row.content == i.content && row.memory == i.memory && row.audit == s && row.source == None
      && i.memory in db.formal.memories && row.version == db.formal.memories[i.memory].version + 1
      && u.formal.memories.Keys == db.formal.memories.Keys
      && u.formal.memories[i.memory].current == Some(i.revision) && u.formal.memories[i.memory].version == row.version
      && u.formal.memories[i.memory].status == i.status
      && u.formal.memories[i.memory].scope == db.formal.memories[i.memory].scope
      && (forall m :: m in db.formal.memories && m != i.memory ==> u.formal.memories[m] == db.formal.memories[m])
      && u.formal.contexts == db.formal.contexts && u.formal.links == db.formal.links && u.reviews == db.reviews
      && s in u.log.audits && u.log.audits[s].actor == i.actor && u.log.audits[s].request == i.request
  {
    CommitAdvancesLog(db, ForMutation(i));
  }

  /** A decision is recorded with its own verdict, and candidate and request move as the verdict says. */
  ghost predicate VerdictIsRecorded(
    db: Db, u: Db, c: CandidateId, q: RequestId, d: DecisionId, verdict: Verdict)
  {
    && c in db.reviews.candidates && c in u.reviews.candidates
    && (db.reviews.candidates[c].status == PendingReview || db.reviews.candidates[c].status == RequestChanges)
    && u.reviews.candidates[c].version == db.reviews.candidates[c].version + 1
    && (verdict == Approve <==> u.reviews.candidates[c].status == Promoted)
    && (verdict == Reject <==> u.reviews.candidates[c].status == Rejected)
    && (verdict == AskChanges <==> u.reviews.candidates[c].status == RequestChanges)
    && d !in db.reviews.decisions && u.reviews.decisions.Keys == db.reviews.decisions.Keys + {d}
    && u.reviews.decisions[d] == Decision(q, c, u.reviews.candidates[c].version, verdict, db.version + 1)
    && q in db.reviews.requests && db.reviews.requests[q].candidate == c && q in u.reviews.requests
    && u.reviews.requests[q].audit == Some(db.version + 1)
    && (verdict == Approve <==> u.reviews.requests[q].status == Approved)
    && (verdict == Reject <==> u.reviews.requests[q].status == Refused)
    && (verdict == AskChanges <==> u.reviews.requests[q].status == ChangesRequested)
    && (forall o :: o in db.reviews.candidates && o != c ==>
          o in u.reviews.candidates && u.reviews.candidates[o] == db.reviews.candidates[o])
    && (forall o :: o in db.reviews.requests && o != q ==>
          o in u.reviews.requests && u.reviews.requests[o] == db.reviews.requests[o])
    && u.reviews.candidates.Keys == db.reviews.candidates.Keys && u.reviews.requests.Keys == db.reviews.requests.Keys
  }

  lemma {:induction false} ReviewWrites(db: Db, i: Review)
    requires LogOk(db) && Commits(db, ForReview(i))
    ensures var o := i.outcome;
      VerdictIsRecorded(db, Committed(db, ForReview(i)), o.candidate, o.request, o.decision, o.verdict)
    ensures Committed(db, ForReview(i)).formal == db.formal
    ensures var u, s := Committed(db, ForReview(i)), db.version + 1;
      s in u.log.audits && u.log.audits[s].actor == i.actor && u.log.audits[s].request == i.digest
  {
    CommitAdvancesLog(db, ForReview(i));
  }

  lemma {:induction false} PromotionWrites(db: Db, i: Promotion)
    requires LogOk(db) && Commits(db, ForPromotion(i))
    ensures VerdictIsRecorded(db, Committed(db, ForPromotion(i)), i.candidate, i.request, i.decision, Approve)
    ensures var u, s := Committed(db, ForPromotion(i)), db.version + 1;
      && i.memory !in db.formal.memories && u.formal.memories.Keys == db.formal.memories.Keys + {i.memory}
      && u.formal.memories[i.memory] == Memory(Some(i.revision), 1, Active, i.scopeId)
      && i.revision !in db.formal.revisions && u.formal.revisions.Keys == db.formal.revisions.Keys + {i.revision}
      && u.formal.revisions[i.revision] == Revision(i.memory, 1, i.content, s, Some(i.candidate))
      && (i.memory in u.formal.contexts <==> i.repository.Some? || i.memory in db.formal.contexts)
      && (i.repository.Some? ==> u.formal.contexts[i.memory] == i.repository.value)
      && u.reviews.candidates[i.candidate].promotedTo == Some(Formal(i.memory, i.revision))
      && s in u.log.audits && u.log.audits[s].actor == i.actor && u.log.audits[s].request == i.digest
  {
    CommitAdvancesLog(db, ForPromotion(i));
  }

  // ----- Decisions

  /** The last decision of a candidate is what it became, earlier ones asked for changes; all are on its own request. */
  ghost predicate DecisionTells(r: Reviews, d: DecisionId)
    requires d in r.decisions
  {
    var row := r.decisions[d];
    && row.candidate in r.candidates && row.request in r.requests && r.requests[row.request].candidate == row.candidate
    && var c := r.candidates[row.candidate];
    && 2 <= row.version <= c.version
    && (row.version < c.version ==> row.verdict == AskChanges)
    && (row.version == c.version ==>
         && (row.verdict == Approve <==> c.status == Promoted)
         && (row.verdict == Reject <==> c.status == Rejected)
         && (row.verdict == AskChanges <==> c.status == RequestChanges))
  }

  ghost predicate DecisionsTell(r: Reviews) {
    forall d {:trigger DecisionTells(r, d)} :: d in r.decisions ==> DecisionTells(r, d)
  }

  lemma {:induction false} RecordedVerdictTells(
    db: Db, u: Db, c: CandidateId, q: RequestId, d: DecisionId, verdict: Verdict)
    requires VerdictIsRecorded(db, u, c, q, d, verdict) && RowsKept(db, u)
    requires ReviewsOk(db.reviews) && DecisionsOk(db.reviews) && DecisionsTell(db.reviews)
    ensures DecisionsTell(u.reviews)
  {
    assert CandidateOk(db.reviews, c);
    forall o {:trigger DecisionTells(u.reviews, o)} | o in u.reviews.decisions ensures DecisionTells(u.reviews, o) {
      if o != d {
        assert DecisionTells(db.reviews, o);
      }
    }
  }

  /** Candidates that have been decided, and all requests, are left as they are. */
  ghost predicate DecidedKept(r: Reviews, u: Reviews) {
    && u.decisions == r.decisions
    && (forall q :: q in r.requests ==> q in u.requests && u.requests[q].candidate == r.requests[q].candidate)
    && (forall c :: c in r.candidates && r.candidates[c].version >= 2 ==>
          c in u.candidates && u.candidates[c] == r.candidates[c])
  }

  lemma {:induction false} AnalyzedKeepsDecided(r: Reviews, c: CandidateId, persistent: bool)
    requires ReviewsOk(r)
    ensures DecidedKept(r, Analyzed(r, c, persistent))
  {
    assert c in r.candidates ==> CandidateOk(r, c);
  }

  lemma {:induction false} DecidedKeptTells(r: Reviews, u: Reviews)
    requires DecidedKept(r, u) && DecisionsTell(r)
    ensures DecisionsTell(u)
  {
    forall d {:trigger DecisionTells(u, d)} | d in u.decisions ensures DecisionTells(u, d) {
      assert DecisionTells(r, d);
    }
  }

  // ----- Responses

  predicate VerdictOf(verdict: Verdict, status: CandidateStatus) {
    || (verdict == Approve && status == Promoted) || (verdict == Reject && status == Rejected)
    || (verdict == AskChanges && status == RequestChanges)
  }

  ghost predicate HasDecision(r: Reviews, c: CandidateId, v: nat, status: CandidateStatus, audit: nat) {
    exists d :: d in r.decisions && r.decisions[d].candidate == c && r.decisions[d].version == v
      && r.decisions[d].audit == audit && VerdictOf(r.decisions[d].verdict, status)
  }

  predicate RevisionIs(f: Formals, r: RevisionId, m: MemoryId, v: nat, audit: nat) {
    r in f.revisions && f.revisions[r].memory == m && f.revisions[r].version == v && f.revisions[r].audit == audit
  }

  /** What a repeated request is answered is what its commit did, and the outbox event names the same thing. */
  ghost predicate ResponseIsTrue(db: Db, k: IdempotencyKey)
    requires k in db.log.records
  {
    var record := db.log.records[k]; var s := record.audit;
    && s in db.log.audits && db.log.audits[s].request == record.request && db.log.audits[s].actor == k.principal
    && s in db.log.outbox
    && match record.response
       case MemoryResponse(m, v, r, version) =>
         && version == s && k.operation != CandidateReview && RevisionIs(db.formal, r, m, v, s)
         && db.log.outbox[s] == MemoryChanged(m)
       case ReviewResponse(c, v, status, version) =>
         && version == s && k.operation == CandidateReview && HasDecision(db.reviews, c, v, status, s)
         && db.log.outbox[s] == CandidateReviewed(c)
       case PromotionResponse(c, v, m, r, version) =>
         && version == s && k.operation == CandidateReview && HasDecision(db.reviews, c, v, Promoted, s)
         && RevisionIs(db.formal, r, m, 1, s) && db.formal.revisions[r].source == Some(c)
         && db.log.outbox[s] == MemoryChanged(m)
  }

  ghost predicate ResponsesAreTrue(db: Db) {
    forall k {:trigger ResponseIsTrue(db, k)} :: k in db.log.records ==> ResponseIsTrue(db, k)
  }

  lemma {:induction false} DecisionStays(r: Reviews, u: Reviews, c: CandidateId, v: nat, status: CandidateStatus,
    audit: nat)
    requires HasDecision(r, c, v, status, audit)
    requires forall d :: d in r.decisions ==> d in u.decisions && u.decisions[d] == r.decisions[d]
    ensures HasDecision(u, c, v, status, audit)
  {
    var d :| d in r.decisions && r.decisions[d].candidate == c && r.decisions[d].version == v
      && r.decisions[d].audit == audit && VerdictOf(r.decisions[d].verdict, status);
    assert u.decisions[d] == r.decisions[d];
  }

  lemma {:induction false} ResponseStaysTrue(db: Db, u: Db, k: IdempotencyKey)
    requires RowsKept(db, u) && k in db.log.records && ResponseIsTrue(db, k)
    ensures ResponseIsTrue(u, k)
  {
    var record := db.log.records[k];
    match record.response
    case MemoryResponse(_, _, _, _) =>
    case ReviewResponse(c, v, status, _) => DecisionStays(db.reviews, u.reviews, c, v, status, record.audit);
    case PromotionResponse(c, v, _, _, _) => DecisionStays(db.reviews, u.reviews, c, v, Promoted, record.audit);
  }

  lemma {:induction false} DecisionIsThere(
    db: Db, u: Db, c: CandidateId, q: RequestId, d: DecisionId, verdict: Verdict)
    requires VerdictIsRecorded(db, u, c, q, d, verdict)
    ensures HasDecision(u.reviews, c, u.reviews.candidates[c].version, u.reviews.candidates[c].status, db.version + 1)
  {
    assert u.reviews.decisions[d].candidate == c;
  }

  lemma {:induction false} NewResponseIsTrue(db: Db, p: Plan)
    requires LogOk(db) && Commits(db, p) && WellBuilt(p)
    ensures KeyOf(p) in Committed(db, p).log.records && ResponseIsTrue(Committed(db, p), KeyOf(p))
  {
    CommitAdvancesLog(db, p);
    match p
    case ForMutation(i) => MutationWrites(db, i);
    case ForReview(i) =>
      var o := i.outcome;
      ReviewWrites(db, i);
      DecisionIsThere(db, Committed(db, p), o.candidate, o.request, o.decision, o.verdict);
    case ForPromotion(i) =>
      PromotionWrites(db, i);
      DecisionIsThere(db, Committed(db, p), i.candidate, i.request, i.decision, Approve);
  }

  lemma {:induction false} CommitKeepsResponses(db: Db, p: Plan)
    requires LogOk(db) && Commits(db, p) && WellBuilt(p) && ResponsesAreTrue(db)
    ensures ResponsesAreTrue(Committed(db, p))
  {
    var u := Committed(db, p);
    CommitAdvancesLog(db, p);
    CommitKeepsRows(db, p);
    forall k {:trigger ResponseIsTrue(u, k)} | k in u.log.records ensures ResponseIsTrue(u, k) {
      if k == KeyOf(p) {
        NewResponseIsTrue(db, p);
      } else {
        assert ResponseIsTrue(db, k);
        ResponseStaysTrue(db, u, k);
      }
    }
  }

  // ----- Over runs

  ghost predicate TablesTell(db: Db) {
    DecisionsTell(db.reviews) && ResponsesAreTrue(db)
  }

  lemma {:induction false} CommitKeepsTelling(db: Db, p: Plan)
    requires DbOk(db) && Commits(db, p) && WellBuilt(p) && TablesTell(db)
    ensures TablesTell(Committed(db, p))
  {
    var u := Committed(db, p);
    CommitKeepsResponses(db, p);
    CommitKeepsRows(db, p);
    match p
    case ForMutation(i) => MutationWrites(db, i);
    case ForReview(i) =>
      var o := i.outcome;
      ReviewWrites(db, i);
      RecordedVerdictTells(db, u, o.candidate, o.request, o.decision, o.verdict);
    case ForPromotion(i) =>
      PromotionWrites(db, i);
      RecordedVerdictTells(db, u, i.candidate, i.request, i.decision, Approve);
  }

  lemma {:induction false} ReviewEventKeepsRows(s: State, e: Event)
    requires ReviewsOk(s.db.reviews) && !e.Execute?
    ensures var u := Step(s, e).db;
      && RowsKept(s.db, u) && u.log == s.db.log && u.formal == s.db.formal && DecidedKept(s.db.reviews, u.reviews)
  {
    if e.Analyze? {
      AnalyzedKeepsDecided(s.db.reviews, e.candidate, e.persistent);
    }
  }

  lemma {:induction false} StepKeepsTelling(s: State, e: Event)
    requires Inv(s) && TablesTell(s.db)
    ensures TablesTell(Step(s, e).db)
  {
    var u := Step(s, e).db;
    if e.Execute? {
      if e.plan in s.prepared {
        assert PlanOk(s.db, e.plan);
        NothingTears(s.db, e.plan);
        if Commits(s.db, e.plan) {
          CommitKeepsTelling(s.db, e.plan);
        }
      }
    } else {
      ReviewEventKeepsRows(s, e);
      DecidedKeptTells(s.db.reviews, u.reviews);
      forall k {:trigger ResponseIsTrue(u, k)} | k in u.log.records ensures ResponseIsTrue(u, k) {
        assert ResponseIsTrue(s.db, k);
        ResponseStaysTrue(s.db, u, k);
      }
    }
  }

  lemma {:induction false} RunsKeepTelling(events: seq<Event>)
    ensures TablesTell(Run(Init(), events).db)
  {
    if events != [] {
      RunsKeepTelling(events[..|events| - 1]);
      RunsKeepInv(events[..|events| - 1]);
      StepKeepsTelling(Run(Init(), events[..|events| - 1]), events[|events| - 1]);
    }
  }

  /**
   In every run a decided candidate is what its last decision says, each earlier decision asked for changes, every
   version from the second on has its decision, and all are decisions on the candidate's own request.
   */
  lemma {:induction false} DecisionsTellStatus(events: seq<Event>, d: DecisionId)
    requires d in Run(Init(), events).db.reviews.decisions
    ensures DecisionTells(Run(Init(), events).db.reviews, d)
    ensures var r := Run(Init(), events).db.reviews; var c := r.decisions[d].candidate;
      forall v :: 2 <= v <= r.candidates[c].version ==> IsDecided(r, c, v)
  {
    RunsKeepTelling(events);
    RunsKeepInv(events);
  }

  /** In every run, what a repeated request would be answered is what its commit did. */
  lemma {:induction false} RepeatedAnswersAreTrue(events: seq<Event>, k: IdempotencyKey)
    requires k in Run(Init(), events).db.log.records
    ensures ResponseIsTrue(Run(Init(), events).db, k)
  {
    RunsKeepTelling(events);
  }

  // ----- When a plan commits

  /** The identifiers a plan brings along are free. */
  ghost predicate IdentifiersAreFree(db: Db, p: Plan) {
    match p
    case ForMutation(i) =>
      && i.revision !in db.formal.revisions
      && IdempotencyKey(i.actor, i.operation, i.key) !in db.log.records
    case ForReview(i) =>
      && i.outcome.decision !in db.reviews.decisions
      && IdempotencyKey(i.actor, CandidateReview, i.key) !in db.log.records
    case ForPromotion(i) =>
      && i.revision !in db.formal.revisions && i.memory !in db.formal.memories
      && (i.repository.Some? ==> i.memory !in db.formal.contexts)
      && i.decision !in db.reviews.decisions
      && IdempotencyKey(i.actor, CandidateReview, i.key) !in db.log.records
      && LinkAll(Linked(db.formal.evidence, db.formal.links), i.revision, i.evidence).Some?
  }

  function ActorOf(p: Plan): PrincipalId {
    match p
    case ForMutation(i) => i.actor
    case ForReview(i) => i.actor
    case ForPromotion(i) => i.actor
  }

  function ReadVersion(p: Plan): nat {
    match p
    case ForMutation(i) => i.expectedVersion
    case ForReview(i) => i.outcome.expectedVersion
    case ForPromotion(i) => i.expectedVersion
  }

  /** In a reachable store the next sequence and a plan's chained hash are always new. */
  lemma {:induction false} AuditFitsIff(db: Db, p: Plan)
    requires LogOk(db) && WellBuilt(p) && db.version == ReadVersion(p) && db.head == AuditOf(p).previous
    ensures AuditFits(db, db.version + 1, AuditOf(p)) <==> ActorOf(p) in db.maintainers
    ensures db.version + 1 !in db.log.outbox
  {
    forall s | s in db.log.audits ensures db.log.audits[s].hash != AuditOf(p).hash {
      assert Chained(db.log.audits, s);
    }
  }

  lemma {:induction false} RevisionsAreFree(f: Formals, version: nat, m: MemoryId, r: RevisionId)
    requires FormalsOk(f, version) && r !in f.revisions
    ensures forall o :: o in f.memories ==> f.memories[o].current != Some(r)
    ensures forall o :: o in f.revisions && f.revisions[o].memory == m ==>
      m in f.memories && f.revisions[o].version <= f.memories[m].version
  {
    forall o | o in f.memories ensures f.memories[o].current != Some(r) {
      assert MemoryOk(f, o);
    }
    forall o | o in f.revisions && f.revisions[o].memory == m
      ensures m in f.memories && f.revisions[o].version <= f.memories[m].version
    {
      assert RevisionOk(f, version, o);
    }
  }

  lemma {:induction false} MutationCommitsIff(db: Db, i: Mutation)
    requires DbOk(db) && PlanOk(db, ForMutation(i))
    ensures Commits(db, ForMutation(i)) <==>
      db.version == i.expectedVersion && i.actor in db.maintainers && IdentifiersAreFree(db, ForMutation(i))
  {
    if db.version == i.expectedVersion {
      AuditFitsIff(db, ForMutation(i));
      if i.revision !in db.formal.revisions {
        RevisionsAreFree(db.formal, db.version, i.memory, i.revision);
      }
    }
  }

  lemma {:induction false} ReviewCommitsIff(db: Db, i: Review)
    requires DbOk(db) && PlanOk(db, ForReview(i))
    ensures Commits(db, ForReview(i)) <==>
      db.version == i.outcome.expectedVersion && i.actor in db.maintainers && IdentifiersAreFree(db, ForReview(i))
  {
    if db.version == i.outcome.expectedVersion {
      AuditFitsIff(db, ForReview(i));
      ReviewableMeansOpen(db.reviews, i.outcome.request);
    }
  }

  lemma {:induction false} PromotionCommitsIff(db: Db, i: Promotion)
    requires DbOk(db) && PlanOk(db, ForPromotion(i))
    ensures Commits(db, ForPromotion(i)) <==>
      db.version == i.expectedVersion && i.actor in db.maintainers && IdentifiersAreFree(db, ForPromotion(i))
  {
    if db.version == i.expectedVersion {
      AuditFitsIff(db, ForPromotion(i));
      ReviewableMeansOpen(db.reviews, i.request);
      if i.revision !in db.formal.revisions {
        RevisionsAreFree(db.formal, db.version, i.memory, i.revision);
      }
    }
  }

  /**
   In every run a prepared plan, sent as one batch, changes the store if and only if nothing has been committed since
   its read, its actor is a maintainer, and the identifiers it brings along are free.
   */
  lemma {:induction false} PlanCommitsIffCurrent(events: seq<Event>, p: Plan)
    requires p in Run(Init(), events).prepared
    ensures var db := Run(Init(), events).db;
      Batch(db, StatementsOf(p)) != db <==>
        db.version == ReadVersion(p) && ActorOf(p) in db.maintainers && IdentifiersAreFree(db, p)
  {
    RunsKeepInv(events);
    var db := Run(Init(), events).db;
    assert PlanOk(db, p);
    NothingTears(db, p);
    match p {
      case ForMutation(i) => MutationCommitsIff(db, i);
      case ForReview(i) => ReviewCommitsIff(db, i);
      case ForPromotion(i) => PromotionCommitsIff(db, i);
    }
    if Commits(db, p) {
      CommitAdvancesLog(db, p);
    }
  }

  /** What a plan writes when it commits, for a mutation, a review and a promotion. */
  lemma {:induction false} PlanWritesWhatWasAsked(events: seq<Event>, p: Plan)
    requires p in Run(Init(), events).prepared
    requires Batch(Run(Init(), events).db, StatementsOf(p)) != Run(Init(), events).db
    ensures var db := Run(Init(), events).db; var u := Batch(db, StatementsOf(p));
      && u.version == db.version + 1 && u.maintainers == db.maintainers && RowsKept(db, u)
      && match p
         case ForMutation(i) =>
           && i.revision in u.formal.revisions && u.formal.revisions[i.revision].content == i.content
           && i.memory in db.formal.memories && i.memory in u.formal.memories
           && u.formal.revisions[i.revision].memory == i.memory
           && u.formal.revisions[i.revision].version == db.formal.memories[i.memory].version + 1
           && u.formal.memories[i.memory] == Memory(
                Some(i.revision), db.formal.memories[i.memory].version + 1, i.status,
                  db.formal.memories[i.memory].scope)
           && u.reviews == db.reviews
         case ForReview(i) =>
           && u.formal == db.formal
           && VerdictIsRecorded(
                db, u, i.outcome.candidate, i.outcome.request, i.outcome.decision, i.outcome.verdict)
         case ForPromotion(i) =>
           && i.revision in u.formal.revisions && i.memory in u.formal.memories
           && u.formal.revisions[i.revision] == Revision(i.memory, 1, i.content, db.version + 1, Some(i.candidate))
           && u.formal.memories[i.memory] == Memory(Some(i.revision), 1, Active, i.scopeId)
           && VerdictIsRecorded(db, u, i.candidate, i.request, i.decision, Approve)
  {
    RunsKeepInv(events);
    var db := Run(Init(), events).db;
    assert PlanOk(db, p);
    NothingTears(db, p);
    CommitAdvancesLog(db, p);
    CommitKeepsRows(db, p);
    match p
    case ForMutation(i) => MutationWrites(db, i);
    case ForReview(i) => ReviewWrites(db, i);
    case ForPromotion(i) => PromotionWrites(db, i);
  }
}
