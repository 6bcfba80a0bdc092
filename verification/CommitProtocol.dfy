/**
 Every interleaving of commit plans on one project. A plan is built from one read of the store and may run at any
 later time, any number of times; candidates are submitted and analysed meanwhile.
 */
module CommitProtocol {
  import opened Common
  import opened CommitStore
  import opened CommitPlans
  import opened CommitPromotion

  datatype Plan = ForMutation(mutation: Mutation) | ForReview(review: Review) | ForPromotion(promotion: Promotion)

  datatype State = State(db: Db, prepared: set<Plan>)

  datatype Event =
    | Grant(principal: PrincipalId)
    | Revoke(principal: PrincipalId)
    | Submit(candidate: CandidateId)
    | SubmitForReview(candidate: CandidateId, request: RequestId)
    | Analyze(candidate: CandidateId, persistent: bool)
    | Prepare(plan: Plan)
    | Execute(plan: Plan)

  ghost function StatementsOf(p: Plan): seq<Statement> {
    match p
    case ForMutation(i) => MutationPlan(i)
    case ForReview(i) => ReviewPlan(i)
    case ForPromotion(i) => PromotionPlan(i)
  }

  function ExpectedVersion(p: Plan): nat {
    match p
    case ForMutation(i) => i.expectedVersion
    case ForReview(i) => i.outcome.expectedVersion
    case ForPromotion(i) => i.expectedVersion
  }

  function AuditOf(p: Plan): Audit {
    match p
    case ForMutation(i) => MutationAudit(i)
    case ForReview(i) => ReviewAudit(i)
    case ForPromotion(i) => PromotionAudit(i)
  }

  function KeyOf(p: Plan): IdempotencyKey {
    match p
    case ForMutation(i) => MutationKey(i)
    case ForReview(i) => ReviewKey(i.actor, i.key)
    case ForPromotion(i) => ReviewKey(i.actor, i.key)
  }

  function RecordOf(p: Plan): Record {
    match p
    case ForMutation(i) => MutationRecord(i)
    case ForReview(i) => ReviewRecord(i)
    case ForPromotion(i) => PromotionRecord(i)
  }

  function EventOf(p: Plan): OutboxEvent {
    match p
    case ForMutation(i) => MemoryChanged(i.memory)
    case ForReview(i) => CandidateReviewed(i.outcome.candidate)
    case ForPromotion(i) => MemoryChanged(i.memory)
  }

  ghost predicate Commits(db: Db, p: Plan) {
    match p
    case ForMutation(i) => MayMutate(db, i)
    case ForReview(i) => ReviewCommits(db, i)
    case ForPromotion(i) => PromotionCommits(db, i)
  }

  ghost function Committed(db: Db, p: Plan): Db
    requires Commits(db, p)
  {
    match p
    case ForMutation(i) => Mutated(db, i)
    case ForReview(i) => Reviewed(db, i)
    case ForPromotion(i) => AfterPromotion(db, i)
  }

  /** The read named the candidate's own review request. */
  predicate NamesRequest(db: Db, o: Outcome) {
    o.request in db.reviews.requests && db.reviews.requests[o.request].candidate == o.candidate
  }

  predicate CandidateAsRead(db: Db, o: Outcome) {
    && o.candidate in db.reviews.candidates
    && db.reviews.candidates[o.candidate].version == o.expectedCandidateVersion
    && Reviewable(db.reviews.candidates[o.candidate].status)
  }

  /** What one consistent read established about the versions a plan expects. */
  predicate AsRead(db: Db, p: Plan) {
    && db.version == ExpectedVersion(p) && db.head == AuditOf(p).previous
    && match p
       case ForMutation(i) => i.memory in db.formal.memories
         && db.formal.memories[i.memory].version == i.expectedMemoryVersion
       case ForReview(i) => CandidateAsRead(db, i.outcome)
       case ForPromotion(i) => CandidateAsRead(db, OutcomeOf(i))
  }

  /** The builder chains the new audit hash, reviews do not approve, and promotions pass the builder's checks. */
  predicate WellBuilt(p: Plan) {
    && AuditOf(p).hash == Hash(AuditOf(p).previous, AuditOf(p).request, ExpectedVersion(p) + 1)
    && match p
       case ForMutation(i) => i.operation != CandidateReview
       case ForReview(i) => i.outcome.verdict != Approve && i.outcome.formal == None
       case ForPromotion(i) => WellFormed(i)
  }

  predicate NamesOwnRequest(db: Db, p: Plan) {
    match p
    case ForMutation(i) => true
    case ForReview(i) => NamesRequest(db, i.outcome)
    case ForPromotion(i) => NamesRequest(db, OutcomeOf(i))
  }

  ghost predicate HasRequest(r: Reviews, c: CandidateId) {
    exists id :: id in r.requests && r.requests[id].candidate == c
  }

  /** Two statements: the candidate moves only if it is still queued, but the request is inserted regardless. */
  ghost function Analyzed(r: Reviews, c: CandidateId, persistent: bool): Reviews {
    if c !in r.candidates then r
    else
      var moved := if r.candidates[c].status == Queued
        then r.(candidates := r.candidates[c := r.candidates[c].(status := if persistent then PendingReview else Noop)])
          else r;
      if !persistent || HasRequest(r, c) then moved
      else if ForCandidate(c) in r.requests then r
      else moved.(requests := r.requests[ForCandidate(c) := ReviewRequest(c, Pending, None)])
  }

  ghost function SubmittedForReview(r: Reviews, c: CandidateId, id: RequestId): Reviews {
    if c in r.candidates || id in r.requests || HasRequest(r, c) || (id.ForCandidate? && id.candidate != c) then r
    else r.(candidates := r.candidates[c := Candidate(1, PendingReview, None)],
            requests := r.requests[id := ReviewRequest(c, Pending, None)])
  }

  ghost function Step(s: State, e: Event): State {
    var db := s.db;
    match e
    case Grant(p) => s.(db := db.(maintainers := db.maintainers + {p}))
    case Revoke(p) => s.(db := db.(maintainers := db.maintainers - {p}))
    case Submit(c) =>
      if c in db.reviews.candidates then s
      else s.(db := db.(reviews := db.reviews.(candidates := db.reviews.candidates[c := Candidate(1, Queued, None)])))
    case SubmitForReview(c, id) => s.(db := db.(reviews := SubmittedForReview(db.reviews, c, id)))
    case Analyze(c, persistent) => s.(db := db.(reviews := Analyzed(db.reviews, c, persistent)))
    case Prepare(p) =>
      if WellBuilt(p) && AsRead(db, p) && NamesOwnRequest(db, p) then s.(prepared := s.prepared + {p}) else s
    case Execute(p) => if p in s.prepared then s.(db := Batch(db, StatementsOf(p))) else s
  }

  ghost function Run(s: State, events: seq<Event>): State
    decreases |events|
  {
    if events == [] then s else Step(Run(s, events[..|events| - 1]), events[|events| - 1])
  }

  function Init(): State {
    State(Db(0, None, {}, Formals(map[], map[], map[], map[], {}), Reviews(map[], map[], map[]),
             Log(map[], map[], map[])), {})
  }

  // ----- The log

  function HashAt(audits: map<nat, Audit>, s: nat): Option<Hash>
    requires 1 <= s ==> s in audits
  {
    if s == 0 then None else Some(audits[s].hash)
  }

  ghost predicate Chained(audits: map<nat, Audit>, s: nat)
    requires s >= 1 && s in audits && (s > 1 ==> s - 1 in audits)
  {
    && audits[s].previous == HashAt(audits, s - 1)
    && audits[s].hash == Hash(audits[s].previous, audits[s].request, s)
  }

  /** Sequences run from 1 to the project version, each audit holds its predecessor's hash and the head is the last. */
  ghost predicate AuditChain(version: nat, head: Option<Hash>, audits: map<nat, Audit>) {
    && (forall s :: s in audits <==> 1 <= s <= version)
    && (forall s {:trigger Chained(audits, s)} :: 1 <= s <= version ==> Chained(audits, s))
    && head == HashAt(audits, version)
  }

  ghost predicate IsRecorded(records: map<IdempotencyKey, Record>, s: nat) {
    exists k :: k in records && records[k].audit == s
  }

  /** Every version has one idempotency record. */
  ghost predicate RecordsOk(version: nat, records: map<IdempotencyKey, Record>) {
    && (forall k :: k in records ==> 1 <= records[k].audit <= version)
    && (forall j, k :: j in records && k in records && records[j].audit == records[k].audit ==> j == k)
    && (forall s :: 1 <= s <= version ==> IsRecorded(records, s))
  }

  ghost predicate LogOk(db: Db) {
    && AuditChain(db.version, db.head, db.log.audits)
    && RecordsOk(db.version, db.log.records)
    && (forall s :: s in db.log.outbox <==> 1 <= s <= db.version)
  }

  ghost predicate LogAdvances(db: Db, u: Db, p: Plan) {
    && u.version == db.version + 1 && u.head == Some(AuditOf(p).hash)
    && u.log == Log(db.log.audits[db.version + 1 := AuditOf(p)], db.log.records[KeyOf(p) := RecordOf(p)],
                    db.log.outbox[db.version + 1 := EventOf(p)])
  }

  lemma {:induction false} CommitAdvancesLog(db: Db, p: Plan)
    requires Commits(db, p)
    ensures LogAdvances(db, Committed(db, p), p)
    ensures db.version == ExpectedVersion(p) && db.head == AuditOf(p).previous
    ensures KeyOf(p) !in db.log.records && RecordOf(p).audit == db.version + 1
  {
  }

  lemma {:induction false} LongerChain(version: nat, head: Option<Hash>, audits: map<nat, Audit>, a: Audit)
    requires AuditChain(version, head, audits)
    requires a.previous == head && a.hash == Hash(head, a.request, version + 1)
    ensures AuditChain(version + 1, Some(a.hash), audits[version + 1 := a])
  {
    var longer := audits[version + 1 := a];
    forall s {:trigger Chained(longer, s)} | 1 <= s <= version + 1 ensures Chained(longer, s) {
      if s <= version {
        assert Chained(audits, s);
      }
    }
  }

  lemma {:induction false} MoreRecords(version: nat, records: map<IdempotencyKey, Record>, k: IdempotencyKey, r: Record)
    requires RecordsOk(version, records) && k !in records && r.audit == version + 1
    ensures RecordsOk(version + 1, records[k := r])
  {
    var more := records[k := r];
    forall s | 1 <= s <= version + 1 ensures IsRecorded(more, s) {
      if s <= version {
        assert IsRecorded(records, s);
        var j :| j in records && records[j].audit == s;
        assert more[j].audit == s;
      } else {
        assert more[k].audit == s;
      }
    }
  }

  lemma {:induction false} CommitKeepsLog(db: Db, p: Plan)
    requires LogOk(db) && Commits(db, p) && WellBuilt(p)
    ensures LogOk(Committed(db, p))
  {
    CommitAdvancesLog(db, p);
    LongerChain(db.version, db.head, db.log.audits, AuditOf(p));
    MoreRecords(db.version, db.log.records, KeyOf(p), RecordOf(p));
  }

  // ----- Candidates and their review requests

  /** What a request's status says about its candidate. A pending request may have come too late to a noop candidate. */
  predicate StatusesAgree(c: CandidateStatus, r: RequestStatus) {
    match r
    case Pending => c == PendingReview || c == Noop
    case ChangesRequested => c == RequestChanges
    case Approved => c == Promoted
    case Refused => c == Rejected
  }

  ghost predicate RequestOk(r: Reviews, id: RequestId)
    requires id in r.requests
  {
    && r.requests[id].candidate in r.candidates
    && (id.ForCandidate? ==> r.requests[id].candidate == id.candidate)
    && StatusesAgree(r.candidates[r.requests[id].candidate].status, r.requests[id].status)
  }

  ghost predicate CandidateOk(r: Reviews, c: CandidateId)
    requires c in r.candidates
  {
    && r.candidates[c].version >= 1
    && (r.candidates[c].promotedTo.Some? <==> r.candidates[c].status == Promoted)
    && (r.candidates[c].status !in {Queued, Noop} ==> HasRequest(r, c))
    && (r.candidates[c].status in {Queued, Noop, PendingReview} ==> r.candidates[c].version == 1)
  }

  ghost predicate ReviewsOk(r: Reviews) {
    && (forall id {:trigger RequestOk(r, id)} :: id in r.requests ==> RequestOk(r, id))
    && (forall c {:trigger CandidateOk(r, c)} :: c in r.candidates ==> CandidateOk(r, c))
    && (forall a, b :: a in r.requests && b in r.requests && r.requests[a].candidate == r.requests[b].candidate ==>
      a == b)
  }

  predicate SameSubject(a: Decision, b: Decision) {
    a.candidate == b.candidate && a.version == b.version
  }

  /** A candidate's version counts its decisions. */
  ghost predicate DecisionsOk(r: Reviews) {
    && (forall d :: d in r.decisions ==>
          && r.decisions[d].candidate in r.candidates
          && 2 <= r.decisions[d].version <= r.candidates[r.decisions[d].candidate].version)
    && (forall a, b :: a in r.decisions && b in r.decisions && SameSubject(r.decisions[a], r.decisions[b]) ==> a == b)
    && (forall c, v {:trigger IsDecided(r, c, v)} :: c in r.candidates && 2 <= v <= r.candidates[c].version ==>
      IsDecided(r, c, v))
  }

  ghost predicate IsDecided(r: Reviews, c: CandidateId, v: nat) {
    exists d :: d in r.decisions && r.decisions[d].candidate == c && r.decisions[d].version == v
  }

  /** A reviewable candidate's own request is open, so no decision batch can find it closed. */
  lemma {:induction false} ReviewableMeansOpen(r: Reviews, id: RequestId)
    requires ReviewsOk(r) && id in r.requests && r.requests[id].candidate in r.candidates
    requires Reviewable(r.candidates[r.requests[id].candidate].status)
    ensures Open(r.requests[id].status)
  {
    assert RequestOk(r, id);
  }

  ghost predicate DecisionAllowed(r: Reviews, o: Outcome) {
    && o.candidate in r.candidates && r.candidates[o.candidate].version == o.expectedCandidateVersion
    && Reviewable(r.candidates[o.candidate].status)
    && o.request in r.requests && r.requests[o.request].candidate == o.candidate
    && (o.verdict == Approve <==> o.formal.Some?)
    && o.decision !in r.decisions
  }

  lemma {:induction false} DecidedReviewsOk(r: Reviews, o: Outcome)
    requires ReviewsOk(r) && DecisionAllowed(r, o)
    ensures ReviewsOk(Decided(r, o))
  {
    var u := Decided(r, o);
    assert CandidateOk(r, o.candidate) && RequestOk(r, o.request);
    forall id | id in u.requests ensures RequestOk(u, id) {
      assert RequestOk(r, id);
    }
    forall c | c in u.candidates ensures CandidateOk(u, c) {
      assert CandidateOk(r, c);
      if c == o.candidate {
        assert u.requests[o.request].candidate == c;
      } else if HasRequest(r, c) {
        var id :| id in r.requests && r.requests[id].candidate == c;
        assert u.requests[id] == r.requests[id];
      }
    }
  }

  lemma {:induction false} DecidedDecisionsOk(r: Reviews, o: Outcome)
    requires ReviewsOk(r) && DecisionsOk(r) && DecisionAllowed(r, o)
    ensures DecisionsOk(Decided(r, o))
  {
    var u := Decided(r, o);
    assert CandidateOk(r, o.candidate);
    forall c, v | c in u.candidates && 2 <= v <= u.candidates[c].version ensures IsDecided(u, c, v) {
      if c == o.candidate && v == o.expectedCandidateVersion + 1 {
        assert u.decisions[o.decision].candidate == c && u.decisions[o.decision].version == v;
      } else {
        assert IsDecided(r, c, v);
        var d :| d in r.decisions && r.decisions[d].candidate == c && r.decisions[d].version == v;
        assert u.decisions[d] == r.decisions[d];
      }
    }
  }

  lemma {:induction false} TouchedRequestsOk(r: Reviews, u: Reviews, c: CandidateId, status: CandidateStatus,
    id: Option<RequestId>)
    requires ReviewsOk(r) && !HasRequest(r, c)
    requires u.candidates == r.candidates[c := Candidate(1, status, None)]
    requires id == None ==> u.requests == r.requests
    requires id.Some? ==>
      && id.value !in r.requests && (id.value.ForCandidate? ==> id.value.candidate == c)
      && u.requests == r.requests[id.value := ReviewRequest(c, Pending, None)] && status in {PendingReview, Noop}
    ensures forall i {:trigger RequestOk(u, i)} :: i in u.requests ==> RequestOk(u, i)
    ensures forall a, b :: a in u.requests && b in u.requests && u.requests[a].candidate == u.requests[b].candidate ==>
      a == b
  {
    forall i {:trigger RequestOk(u, i)} | i in u.requests ensures RequestOk(u, i) {
      if i in r.requests {
        assert RequestOk(r, i);
        assert r.requests[i].candidate != c;
      }
    }
  }

  /** A candidate without a request appears or moves, with or without its request. */
  lemma {:induction false} TouchedReviewsOk(r: Reviews, u: Reviews, c: CandidateId, status: CandidateStatus,
    id: Option<RequestId>)
    requires ReviewsOk(r) && DecisionsOk(r) && !HasRequest(r, c)
    requires c in r.candidates ==> r.candidates[c].version == 1
    requires u == r.(candidates := u.candidates, requests := u.requests)
    requires u.candidates == r.candidates[c := Candidate(1, status, None)]
    requires id == None ==> u.requests == r.requests && status in {Queued, Noop}
    requires id.Some? ==>
      && id.value !in r.requests && (id.value.ForCandidate? ==> id.value.candidate == c)
      && u.requests == r.requests[id.value := ReviewRequest(c, Pending, None)] && status in {PendingReview, Noop}
    ensures ReviewsOk(u) && DecisionsOk(u)
  {
    TouchedRequestsOk(r, u, c, status, id);
    forall d {:trigger CandidateOk(u, d)} | d in u.candidates ensures CandidateOk(u, d) {
      if d == c {
        assert id.Some? ==> u.requests[id.value].candidate == c;
      } else {
        assert CandidateOk(r, d);
        if HasRequest(r, d) {
          var i :| i in r.requests && r.requests[i].candidate == d;
          assert u.requests[i] == r.requests[i];
        }
      }
    }
    TouchedDecisionsOk(r, u, c, Candidate(1, status, None));
  }

  lemma {:induction false} TouchedDecisionsOk(r: Reviews, u: Reviews, c: CandidateId, row: Candidate)
    requires DecisionsOk(r) && u.decisions == r.decisions
    requires row.version == 1 && (c in r.candidates ==> r.candidates[c].version == 1)
    requires u.candidates == r.candidates[c := row]
    ensures DecisionsOk(u)
  {
    forall d | d in u.decisions
      ensures u.decisions[d].candidate in u.candidates
      ensures 2 <= u.decisions[d].version <= u.candidates[u.decisions[d].candidate].version
    {
      assert u.decisions[d].candidate != c;
    }
    forall d, v {:trigger IsDecided(u, d, v)} | d in u.candidates && 2 <= v <= u.candidates[d].version
      ensures IsDecided(u, d, v)
    {
      assert d != c;
      SameDecisions(r, u, d, v);
    }
  }

  lemma {:induction false} SameDecisions(r: Reviews, u: Reviews, c: CandidateId, v: nat)
    requires u.decisions == r.decisions
    ensures IsDecided(u, c, v) <==> IsDecided(r, c, v)
  {
  }

  lemma {:induction false} AnalyzedReviewsOk(r: Reviews, c: CandidateId, persistent: bool)
    requires ReviewsOk(r) && DecisionsOk(r)
    ensures ReviewsOk(Analyzed(r, c, persistent)) && DecisionsOk(Analyzed(r, c, persistent))
  {
    var u := Analyzed(r, c, persistent);
    if u != r {
      assert CandidateOk(r, c);
      if HasRequest(r, c) {
        var id :| id in r.requests && r.requests[id].candidate == c;
        assert RequestOk(r, id);
      }
      var id := if u.requests == r.requests then None else Some(ForCandidate(c));
      TouchedReviewsOk(r, u, c, u.candidates[c].status, id);
    }
  }

  lemma {:induction false} NewCandidateOk(r: Reviews, c: CandidateId)
    requires ReviewsOk(r) && c !in r.candidates
    ensures !HasRequest(r, c)
  {
    forall id | id in r.requests ensures r.requests[id].candidate != c {
      assert RequestOk(r, id);
    }
  }
}
