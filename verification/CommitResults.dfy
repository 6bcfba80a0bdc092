/** What holds over every run of commit plans. */
module CommitResults {
  import opened Common
  import opened CommitStore
  import opened CommitPlans
  import opened CommitPromotion
  import opened CommitProtocol

  // ----- Memories and revisions

  ghost predicate HasRevision(f: Formals, m: MemoryId, k: nat) {
    exists r :: r in f.revisions && f.revisions[r].memory == m && f.revisions[r].version == k
  }

  ghost predicate MemoryOk(f: Formals, m: MemoryId)
    requires m in f.memories
  {
    && f.memories[m].version >= 1 && f.memories[m].current.Some?
    && f.memories[m].current.value in f.revisions
    && f.revisions[f.memories[m].current.value].memory == m
    && f.revisions[f.memories[m].current.value].version == f.memories[m].version
    && (forall k {:trigger HasRevision(f, m, k)} :: 1 <= k <= f.memories[m].version ==> HasRevision(f, m, k))
  }

  ghost predicate RevisionOk(f: Formals, version: nat, r: RevisionId)
    requires r in f.revisions
  {
    && f.revisions[r].memory in f.memories
    && 1 <= f.revisions[r].version <= f.memories[f.revisions[r].memory].version
    && 1 <= f.revisions[r].audit <= version
  }

  predicate SameRevision(a: Revision, b: Revision) {
    a.memory == b.memory && a.version == b.version
  }

  /** A memory has one revision for each of its versions, the last of them current, each with its audit event. */
  ghost predicate FormalsOk(f: Formals, version: nat) {
    && (forall m {:trigger MemoryOk(f, m)} :: m in f.memories ==> MemoryOk(f, m))
    && (forall r {:trigger RevisionOk(f, version, r)} :: r in f.revisions ==> RevisionOk(f, version, r))
    && (forall a, b :: a in f.revisions && b in f.revisions && SameRevision(f.revisions[a], f.revisions[b]) ==> a == b)
  }

  lemma {:induction false} MoreRevisions(f: Formals, g: Formals, r: RevisionId, m: MemoryId, k: nat)
    requires r !in f.revisions && r in g.revisions && g.revisions == f.revisions[r := g.revisions[r]]
    ensures HasRevision(f, m, k) ==> HasRevision(g, m, k)
  {
    if HasRevision(f, m, k) {
      var o :| o in f.revisions && f.revisions[o].memory == m && f.revisions[o].version == k;
      assert g.revisions[o] == f.revisions[o];
    }
  }

  /** A memory gains the revision after its last, or appears with its first. */
  lemma {:induction false} RevisedFormalsOk(f: Formals, g: Formals, version: nat, m: MemoryId, r: RevisionId,
    row: Revision, memory: Memory)
    requires FormalsOk(f, version) && r !in f.revisions
    requires row.memory == m && row.audit == version + 1 && memory.current == Some(r) && memory.version == row.version
    requires row.version == (if m in f.memories then f.memories[m].version + 1 else 1)
    requires g.revisions == f.revisions[r := row] && g.memories == f.memories[m := memory]
    ensures FormalsOk(g, version + 1)
  {
    assert g.revisions[r] == row;
    forall o {:trigger MemoryOk(g, o)} | o in g.memories ensures MemoryOk(g, o) {
      if o in f.memories {
        assert MemoryOk(f, o);
      }
      forall k {:trigger HasRevision(g, o, k)} | 1 <= k <= g.memories[o].version ensures HasRevision(g, o, k) {
        if o == m && k == row.version {
          assert g.revisions[r].memory == o;
        } else {
          assert HasRevision(f, o, k);
          MoreRevisions(f, g, r, o, k);
        }
      }
    }
    forall o {:trigger RevisionOk(g, version + 1, o)} | o in g.revisions ensures RevisionOk(g, version + 1, o) {
      if o != r {
        assert RevisionOk(f, version, o);
      }
    }
    forall a, b | a in g.revisions && b in g.revisions && SameRevision(g.revisions[a], g.revisions[b]) ensures a == b {
      if a != r {
        assert RevisionOk(f, version, a);
      }
      if b != r {
        assert RevisionOk(f, version, b);
      }
    }
  }

  lemma {:induction false} FormalsIgnoreVersion(f: Formals, version: nat)
    requires FormalsOk(f, version)
    ensures FormalsOk(f, version + 1)
  {
    forall r {:trigger RevisionOk(f, version + 1, r)} | r in f.revisions ensures RevisionOk(f, version + 1, r) {
      assert RevisionOk(f, version, r);
    }
  }

  lemma {:induction false} CommitKeepsFormals(db: Db, p: Plan)
    requires FormalsOk(db.formal, db.version) && Commits(db, p)
    ensures FormalsOk(Committed(db, p).formal, Committed(db, p).version)
  {
    var g := Committed(db, p).formal;
    match p
    case ForMutation(i) =>
      RevisedFormalsOk(db.formal, g, db.version, i.memory, i.revision, MutationRow(i), g.memories[i.memory]);
    case ForReview(i) => FormalsIgnoreVersion(db.formal, db.version);
    case ForPromotion(i) =>
      RevisedFormalsOk(db.formal, g, db.version, i.memory, i.revision, FirstRevision(i), g.memories[i.memory]);
  }

  // ----- Provenance

  ghost predicate PromotionOk(candidates: map<CandidateId, Candidate>, revisions: map<RevisionId, Revision>,
    c: CandidateId)
    requires c in candidates
  {
    candidates[c].promotedTo.Some? ==>
      && candidates[c].promotedTo.value.revision in revisions
      && var r := revisions[candidates[c].promotedTo.value.revision];
         r.memory == candidates[c].promotedTo.value.memory && r.version == 1 && r.source == Some(c)
  }

  ghost predicate SourceOk(candidates: map<CandidateId, Candidate>, revisions: map<RevisionId, Revision>, r: RevisionId)
    requires r in revisions
  {
    revisions[r].source.Some? ==>
      && revisions[r].source.value in candidates
      && candidates[revisions[r].source.value].promotedTo == Some(Formal(revisions[r].memory, r))
  }

  /** A candidate was promoted to a revision exactly when that revision names it as its source. */
  ghost predicate ProvenanceOk(candidates: map<CandidateId, Candidate>, revisions: map<RevisionId, Revision>) {
    && (forall c {:trigger PromotionOk(candidates, revisions, c)} :: c in candidates ==>
      PromotionOk(candidates, revisions, c))
    && (forall r {:trigger SourceOk(candidates, revisions, r)} :: r in revisions ==> SourceOk(candidates, revisions, r))
  }

  ghost predicate SamePromotions(a: map<CandidateId, Candidate>, b: map<CandidateId, Candidate>) {
    && (forall c :: c in a ==> c in b && b[c].promotedTo == a[c].promotedTo)
    && (forall c :: c in b && c !in a ==> b[c].promotedTo == None)
  }

  lemma {:induction false} ProvenanceKept(a: map<CandidateId, Candidate>, b: map<CandidateId, Candidate>,
                       before: map<RevisionId, Revision>, after: map<RevisionId, Revision>)
    requires ProvenanceOk(a, before) && SamePromotions(a, b)
    requires forall r :: r in before ==> r in after && after[r] == before[r]
    requires forall r :: r in after && r !in before ==> after[r].source == None
    ensures ProvenanceOk(b, after)
  {
    forall c {:trigger PromotionOk(b, after, c)} | c in b ensures PromotionOk(b, after, c) {
      if c in a {
        assert PromotionOk(a, before, c);
      }
    }
    forall r {:trigger SourceOk(b, after, r)} | r in after ensures SourceOk(b, after, r) {
      if r in before {
        assert SourceOk(a, before, r);
      }
    }
  }

  lemma {:induction false} PromotionGivesProvenance(a: map<CandidateId, Candidate>, revisions: map<RevisionId,
    Revision>,
                                 c: CandidateId, row: Candidate, r: RevisionId, first: Revision)
    requires ProvenanceOk(a, revisions) && c in a && a[c].promotedTo == None && r !in revisions
    requires row.promotedTo == Some(Formal(first.memory, r)) && first.version == 1 && first.source == Some(c)
    ensures ProvenanceOk(a[c := row], revisions[r := first])
  {
    forall d {:trigger PromotionOk(a[c := row], revisions[r := first], d)} | d in a[c := row]
      ensures PromotionOk(a[c := row], revisions[r := first], d)
    {
      if d != c {
        assert PromotionOk(a, revisions, d);
      }
    }
    forall o {:trigger SourceOk(a[c := row], revisions[r := first], o)} | o in revisions[r := first]
      ensures SourceOk(a[c := row], revisions[r := first], o)
    {
      if o != r {
        assert SourceOk(a, revisions, o);
      }
    }
  }

  lemma {:induction false} CommitKeepsProvenance(db: Db, p: Plan)
    requires ReviewsOk(db.reviews) && ProvenanceOk(db.reviews.candidates, db.formal.revisions)
    requires Commits(db, p) && WellBuilt(p)
    ensures ProvenanceOk(Committed(db, p).reviews.candidates, Committed(db, p).formal.revisions)
  {
    var u := Committed(db, p);
    match p
    case ForMutation(i) =>
      ProvenanceKept(db.reviews.candidates, u.reviews.candidates, db.formal.revisions, u.formal.revisions);
    case ForReview(i) =>
      ProvenanceKept(db.reviews.candidates, u.reviews.candidates, db.formal.revisions, u.formal.revisions);
    case ForPromotion(i) =>
      assert CandidateOk(db.reviews, i.candidate);
      PromotionGivesProvenance(db.reviews.candidates, db.formal.revisions, i.candidate,
                               DecidedRow(db.reviews.candidates[i.candidate], OutcomeOf(i)), i.revision,
                                 FirstRevision(i));
  }

  // ----- The invariant

  ghost predicate DbOk(db: Db) {
    && LogOk(db) && ReviewsOk(db.reviews) && DecisionsOk(db.reviews)
    && FormalsOk(db.formal, db.version) && ProvenanceOk(db.reviews.candidates, db.formal.revisions)
  }

  /** A prepared plan's read is either outdated by a later version or still true. */
  ghost predicate PlanOk(db: Db, p: Plan) {
    && WellBuilt(p) && NamesOwnRequest(db, p)
    && ExpectedVersion(p) <= db.version && (ExpectedVersion(p) == db.version ==> AsRead(db, p))
  }

  ghost predicate Inv(s: State) {
    DbOk(s.db) && PlansOk(s.db, s.prepared)
  }

  lemma {:induction false} CommitKeepsReviews(db: Db, p: Plan)
    requires DbOk(db) && Commits(db, p) && WellBuilt(p)
    ensures ReviewsOk(Committed(db, p).reviews) && DecisionsOk(Committed(db, p).reviews)
  {
    match p
    case ForMutation(i) =>
    case ForReview(i) =>
      DecidedReviewsOk(db.reviews, i.outcome);
      DecidedDecisionsOk(db.reviews, i.outcome);
    case ForPromotion(i) =>
      DecidedReviewsOk(db.reviews, OutcomeOf(i));
      DecidedDecisionsOk(db.reviews, OutcomeOf(i));
  }

  lemma {:induction false} CommitKeepsDb(db: Db, p: Plan)
    requires DbOk(db) && Commits(db, p) && WellBuilt(p)
    ensures DbOk(Committed(db, p))
  {
    CommitKeepsLog(db, p);
    CommitKeepsReviews(db, p);
    CommitKeepsFormals(db, p);
    CommitKeepsProvenance(db, p);
  }

  /** In a store that keeps the invariant no plan can be torn. */
  lemma {:induction false} NothingTears(db: Db, p: Plan)
    requires DbOk(db) && PlanOk(db, p)
    ensures Batch(db, StatementsOf(p)) == if Commits(db, p) then Committed(db, p) else db
  {
    match p
    case ForMutation(i) => MutationIsAllOrNothing(db, i);
    case ForReview(i) =>
      if Holds(db, ReviewFence(i.outcome)) {
        ReviewableMeansOpen(db.reviews, i.outcome.request);
      }
      ReviewIsAllOrNothing(db, i);
    case ForPromotion(i) =>
      if Holds(db, FenceOf(i)) {
        ReviewableMeansOpen(db.reviews, i.request);
      }
      PromotionIsAllOrNothing(db, i);
  }

  /** A plan stays usable: requests keep their candidates, and versions only change together with the project's. */
  ghost predicate Evolves(db: Db, u: Db) {
    && (forall r :: r in db.reviews.requests ==>
          r in u.reviews.requests && u.reviews.requests[r].candidate == db.reviews.requests[r].candidate)
    && db.version <= u.version
    && (db.version == u.version ==>
          && u.head == db.head && u.formal == db.formal
          && forall c :: c in db.reviews.candidates && Reviewable(db.reviews.candidates[c].status) ==>
               c in u.reviews.candidates && u.reviews.candidates[c] == db.reviews.candidates[c])
  }

  lemma {:induction false} PlansStayOk(db: Db, u: Db, p: Plan)
    requires PlanOk(db, p) && Evolves(db, u)
    ensures PlanOk(u, p)
  {
  }

  lemma {:induction false} CommitEvolves(db: Db, p: Plan)
    requires Commits(db, p)
    ensures Evolves(db, Committed(db, p))
  {
  }

  /** Submissions and analyses leave reviewable candidates, promotions and existing requests alone. */
  ghost predicate ReviewsEvolve(r: Reviews, u: Reviews) {
    && SamePromotions(r.candidates, u.candidates)
    && (forall i :: i in r.requests ==> i in u.requests && u.requests[i].candidate == r.requests[i].candidate)
    && (forall d :: d in r.candidates && Reviewable(r.candidates[d].status) ==>
          d in u.candidates && u.candidates[d] == r.candidates[d])
  }

  lemma {:induction false} AnalyzedEvolves(r: Reviews, c: CandidateId, persistent: bool)
    requires c in r.candidates ==> CandidateOk(r, c)
    ensures ReviewsEvolve(r, Analyzed(r, c, persistent))
  {
  }

  lemma {:induction false} AnalysisEvolves(r: Reviews, c: CandidateId, persistent: bool)
    requires ReviewsOk(r) && DecisionsOk(r)
    ensures var u := Analyzed(r, c, persistent); ReviewsOk(u) && DecisionsOk(u) && ReviewsEvolve(r, u)
  {
    AnalyzedReviewsOk(r, c, persistent);
    assert c in r.candidates ==> CandidateOk(r, c);
    AnalyzedEvolves(r, c, persistent);
  }

  lemma {:induction false} SubmissionEvolves(r: Reviews, c: CandidateId)
    requires ReviewsOk(r) && DecisionsOk(r) && c !in r.candidates
    ensures var u := r.(candidates := r.candidates[c := Candidate(1, Queued, None)]);
      ReviewsOk(u) && DecisionsOk(u) && ReviewsEvolve(r, u)
  {
    NewCandidateOk(r, c);
    TouchedReviewsOk(r, r.(candidates := r.candidates[c := Candidate(1, Queued, None)]), c, Queued, None);
  }

  lemma {:induction false} SubmittedEvolves(r: Reviews, c: CandidateId, id: RequestId)
    ensures ReviewsEvolve(r, SubmittedForReview(r, c, id))
  {
  }

  lemma {:induction false} ReviewSubmissionEvolves(r: Reviews, c: CandidateId, id: RequestId)
    requires ReviewsOk(r) && DecisionsOk(r)
    ensures var u := SubmittedForReview(r, c, id); ReviewsOk(u) && DecisionsOk(u) && ReviewsEvolve(r, u)
  {
    var u := SubmittedForReview(r, c, id);
    SubmittedEvolves(r, c, id);
    if u != r {
      TouchedReviewsOk(r, u, c, PendingReview, Some(id));
    }
  }

  predicate ChangesReviews(e: Event) {
    e.Submit? || e.SubmitForReview? || e.Analyze?
  }

  lemma {:induction false} ReviewEventKeepsDb(s: State, e: Event)
    requires DbOk(s.db) && ChangesReviews(e)
    ensures DbOk(Step(s, e).db) && Evolves(s.db, Step(s, e).db)
  {
    var r, u := s.db.reviews, Step(s, e).db.reviews;
    match e {
      case Submit(c) => if c !in r.candidates { SubmissionEvolves(r, c); }
      case SubmitForReview(c, id) => ReviewSubmissionEvolves(r, c, id);
      case Analyze(c, persistent) => AnalysisEvolves(r, c, persistent);
    }
    if u != r {
      ReviewsAloneKeepDb(s.db, u);
    }
  }

  lemma {:induction false} ReviewsAloneEvolve(db: Db, u: Reviews)
    requires ReviewsEvolve(db.reviews, u)
    ensures Evolves(db, db.(reviews := u))
  {
  }

  lemma {:induction false} SameLog(db: Db, u: Db)
    requires LogOk(db) && u.log == db.log && u.version == db.version && u.head == db.head
    ensures LogOk(u)
  {
  }

  lemma {:induction false} ReviewsAloneKeepDb(db: Db, u: Reviews)
    requires DbOk(db) && ReviewsOk(u) && DecisionsOk(u) && ReviewsEvolve(db.reviews, u)
    ensures DbOk(db.(reviews := u)) && Evolves(db, db.(reviews := u))
  {
    ReviewsAloneEvolve(db, u);
    SameLog(db, db.(reviews := u));
    ProvenanceKept(db.reviews.candidates, u.candidates, db.formal.revisions, db.formal.revisions);
  }

  lemma {:induction false} ExecuteKeepsDb(db: Db, p: Plan)
    requires DbOk(db) && PlanOk(db, p)
    ensures DbOk(Batch(db, StatementsOf(p))) && Evolves(db, Batch(db, StatementsOf(p)))
  {
    NothingTears(db, p);
    if Commits(db, p) {
      CommitKeepsDb(db, p);
      CommitEvolves(db, p);
    }
  }

  lemma {:induction false} StepKeepsDb(s: State, e: Event)
    requires Inv(s)
    ensures DbOk(Step(s, e).db) && Evolves(s.db, Step(s, e).db)
  {
    if ChangesReviews(e) {
      ReviewEventKeepsDb(s, e);
    } else if e.Execute? && e.plan in s.prepared {
      assert PlanOk(s.db, e.plan);
      ExecuteKeepsDb(s.db, e.plan);
    }
  }

  ghost predicate PlansOk(db: Db, plans: set<Plan>) {
    forall p {:trigger PlanOk(db, p)} :: p in plans ==> PlanOk(db, p)
  }

  lemma {:induction false} AllPlansStayOk(db: Db, u: Db, plans: set<Plan>)
    requires Evolves(db, u) && PlansOk(db, plans)
    ensures PlansOk(u, plans)
  {
    forall p {:trigger PlanOk(u, p)} | p in plans ensures PlanOk(u, p) {
      assert PlanOk(db, p);
      PlansStayOk(db, u, p);
    }
  }

  lemma {:induction false} PlansAfterStep(s: State, e: Event)
    requires PlansOk(s.db, s.prepared) && Evolves(s.db, Step(s, e).db)
    ensures PlansOk(Step(s, e).db, Step(s, e).prepared)
  {
    AllPlansStayOk(s.db, Step(s, e).db, s.prepared);
  }

  lemma {:induction false} StepKeepsInv(s: State, e: Event)
    requires Inv(s)
    ensures Inv(Step(s, e))
  {
    StepKeepsDb(s, e);
    PlansAfterStep(s, e);
  }

  lemma {:induction false} RunsKeepInv(events: seq<Event>)
    ensures Inv(Run(Init(), events))
  {
    if events != [] {
      RunsKeepInv(events[..|events| - 1]);
      StepKeepsInv(Run(Init(), events[..|events| - 1]), events[|events| - 1]);
    } else {
      assert AuditChain(0, None, map[]);
    }
  }

  // ----- Theorems

  /** In every reachable store every prepared plan, executed as one batch, applies all its statements or none. */
  lemma {:induction false} EveryBatchIsAllOrNothing(events: seq<Event>, p: Plan)
    requires p in Run(Init(), events).prepared
    ensures var db := Run(Init(), events).db;
      Batch(db, StatementsOf(p)) == if Commits(db, p) then Committed(db, p) else db
  {
    RunsKeepInv(events);
    assert PlanOk(Run(Init(), events).db, p);
    NothingTears(Run(Init(), events).db, p);
  }

  /**
   Sequences are contiguous up to the project version, each with its predecessor's hash; each version has one record.
   */
  lemma {:induction false} AuditChainIsContiguous(events: seq<Event>, s: nat)
    ensures var db := Run(Init(), events).db;
      && (s in db.log.audits <==> 1 <= s <= db.version)
      && (1 <= s <= db.version ==>
        (s > 1 ==> s - 1 in db.log.audits) && db.log.audits[s].previous == HashAt(db.log.audits, s - 1))
      && (db.version in db.log.audits ==> db.head == Some(db.log.audits[db.version].hash))
      && (s in db.log.outbox <==> 1 <= s <= db.version)
      && (1 <= s <= db.version ==> IsRecorded(db.log.records, s))
  {
    RunsKeepInv(events);
    var db := Run(Init(), events).db;
    if 1 <= s <= db.version {
      assert Chained(db.log.audits, s);
    }
  }

  lemma {:induction false} HashesDetermine(a: map<nat, Audit>, b: map<nat, Audit>, n: nat, m: nat, head: Option<Hash>)
    requires AuditChain(n, head, a) && AuditChain(m, head, b)
    ensures n == m && forall s :: 1 <= s <= n ==> s in a && s in b && a[s].request == b[s].request
  {
    if n > 0 && m > 0 {
      assert Chained(a, n) && Chained(b, m);
      ShorterChain(n, head, a);
      ShorterChain(m, head, b);
      HashesDetermine(a - {n}, b - {m}, n - 1, m - 1, a[n].previous);
      forall s | 1 <= s <= n ensures s in a && s in b && a[s].request == b[s].request {
        if s < n {
          assert s in a - {n} && s in b - {m};
        }
      }
    }
  }

  lemma {:induction false} ShorterChain(n: nat, head: Option<Hash>, a: map<nat, Audit>)
    requires n >= 1 && AuditChain(n, head, a)
    ensures AuditChain(n - 1, a[n].previous, a - {n})
  {
    assert Chained(a, n);
    forall s {:trigger Chained(a - {n}, s)} | 1 <= s <= n - 1 ensures Chained(a - {n}, s) {
      assert Chained(a, s);
    }
  }

  /** Two projects with one head hash have the same history of requests, whatever else happened to them. */
  lemma {:induction false} HeadHashDeterminesHistory(one: seq<Event>, other: seq<Event>, s: nat)
    requires Run(Init(), one).db.head == Run(Init(), other).db.head
    ensures var a, b := Run(Init(), one).db, Run(Init(), other).db;
      && a.version == b.version
      && (1 <= s <= a.version ==>
            s in a.log.audits && s in b.log.audits && a.log.audits[s].request == b.log.audits[s].request)
  {
    RunsKeepInv(one);
    RunsKeepInv(other);
    var a, b := Run(Init(), one).db, Run(Init(), other).db;
    HashesDetermine(a.log.audits, b.log.audits, a.version, b.version, a.head);
  }

  ghost predicate CommitsAt(events: seq<Event>, i: nat)
    requires i < |events|
  {
    var s := Run(Init(), events[..i]);
    events[i].Execute? && events[i].plan in s.prepared && Commits(s.db, events[i].plan)
  }

  ghost predicate RecordsGrew(a: Db, b: Db) {
    a.version <= b.version && a.log.records.Keys <= b.log.records.Keys
  }

  lemma {:induction false} StepGrows(s: State, e: Event)
    requires Inv(s)
    ensures RecordsGrew(s.db, Step(s, e).db)
  {
    if e.Execute? && e.plan in s.prepared {
      assert PlanOk(s.db, e.plan);
      NothingTears(s.db, e.plan);
      if Commits(s.db, e.plan) {
        CommitAdvancesLog(s.db, e.plan);
      }
    }
  }

  lemma {:induction false} RunGrows(events: seq<Event>, i: nat)
    requires i <= |events|
    ensures RecordsGrew(Run(Init(), events[..i]).db, Run(Init(), events).db)
    decreases |events|
  {
    if i == |events| {
      assert events[..i] == events;
    } else {
      var earlier := events[..|events| - 1];
      assert earlier[..i] == events[..i];
      RunGrows(earlier, i);
      RunsKeepInv(earlier);
      StepGrows(Run(Init(), earlier), events[|events| - 1]);
    }
  }

  lemma {:induction false} CommitShows(events: seq<Event>, i: nat)
    requires i < |events| && CommitsAt(events, i)
    ensures var db, u, p := Run(Init(), events[..i]).db, Run(Init(), events[..i + 1]).db, events[i].plan;
      && db.version == ExpectedVersion(p) && u.version == db.version + 1
      && KeyOf(p) !in db.log.records && KeyOf(p) in u.log.records
  {
    var s, p := Run(Init(), events[..i]), events[i].plan;
    RunsKeepInv(events[..i]);
    assert events[..i + 1][..i] == events[..i];
    assert PlanOk(s.db, p);
    NothingTears(s.db, p);
    CommitAdvancesLog(s.db, p);
  }

  /** Of the plans built on one project version at most one commits, and one idempotency key commits at most once. */
  lemma {:induction false} OneCommitPerVersionAndKey(events: seq<Event>, i: nat, j: nat)
    requires i < j < |events| && CommitsAt(events, i) && CommitsAt(events, j)
    ensures ExpectedVersion(events[i].plan) < ExpectedVersion(events[j].plan)
    ensures KeyOf(events[i].plan) != KeyOf(events[j].plan)
  {
    CommitShows(events, i);
    CommitShows(events, j);
    assert events[..j][..i + 1] == events[..i + 1];
    RunGrows(events[..j], i + 1);
  }

  /**
   A reviewable candidate has one review request and it is open; an open request's candidate is reviewable or noop.
   */
  lemma {:induction false} ReviewableIffRequestOpen(events: seq<Event>, c: CandidateId, id: RequestId)
    requires c in Run(Init(), events).db.reviews.candidates
    ensures var r := Run(Init(), events).db.reviews;
      && (Reviewable(r.candidates[c].status) ==> HasRequest(r, c))
      && (id in r.requests && r.requests[id].candidate == c ==>
            (Open(r.requests[id].status) <==> Reviewable(r.candidates[c].status) || r.candidates[c].status == Noop))
  {
    RunsKeepInv(events);
    var r := Run(Init(), events).db.reviews;
    assert CandidateOk(r, c);
    if id in r.requests {
      assert RequestOk(r, id);
    }
  }

  /** A persistent analysis arriving after the candidate was already found to be noop. */
  ghost predicate LateAnalysis(events: seq<Event>, i: nat, c: CandidateId)
    requires i < |events|
  {
    var r := Run(Init(), events[..i]).db.reviews;
    events[i] == Analyze(c, true) && c in r.candidates && r.candidates[c].status == Noop
  }

  ghost predicate IsNoop(r: Reviews, c: CandidateId) {
    c in r.candidates && r.candidates[c].status == Noop
  }

  ghost predicate SameRequests(r: Reviews, u: Reviews, c: CandidateId) {
    forall id :: (id in r.requests && r.requests[id].candidate == c) <==>
      (id in u.requests && u.requests[id].candidate == c)
  }

  lemma {:induction false} CommitKeepsRequests(db: Db, p: Plan, c: CandidateId)
    requires Commits(db, p)
    ensures SameRequests(db.reviews, Committed(db, p).reviews, c)
    ensures c in db.reviews.candidates ==> c in Committed(db, p).reviews.candidates
    ensures IsNoop(Committed(db, p).reviews, c) ==> IsNoop(db.reviews, c)
  {
  }

  lemma {:induction false} AnalyzedNoop(r: Reviews, a: CandidateId, persistent: bool, c: CandidateId)
    requires ReviewsOk(r) && DecisionsOk(r) && IsNoop(Analyzed(r, a, persistent), c)
    ensures HasRequest(Analyzed(r, a, persistent), c) <==>
      IsNoop(r, c) && (HasRequest(r, c) || (a == c && persistent))
  {
    var u := Analyzed(r, a, persistent);
    assert c in r.candidates && CandidateOk(r, c);
    AnalyzedReviewsOk(r, a, persistent);
    if r.candidates[c].status == Queued {
      forall id | id in r.requests ensures r.requests[id].candidate != c {
        assert RequestOk(r, id);
      }
      assert SameRequests(r, u, c);
    } else if ForCandidate(a) in r.requests {
      assert RequestOk(r, ForCandidate(a));
    } else if a != c || !persistent {
      assert SameRequests(r, u, c);
    } else if !HasRequest(r, c) {
      assert u.requests[ForCandidate(c)].candidate == c;
    }
  }

  lemma {:induction false} NoopStep(s: State, e: Event, c: CandidateId)
    requires Inv(s) && IsNoop(Step(s, e).db.reviews, c)
    ensures HasRequest(Step(s, e).db.reviews, c) <==>
      IsNoop(s.db.reviews, c) && (HasRequest(s.db.reviews, c) || e == Analyze(c, true))
  {
    var r, u := s.db.reviews, Step(s, e).db.reviews;
    if e.Execute? && e.plan in s.prepared {
      assert PlanOk(s.db, e.plan);
      NothingTears(s.db, e.plan);
      if Commits(s.db, e.plan) {
        CommitKeepsRequests(s.db, e.plan, c);
      }
    } else if e.Analyze? {
      AnalyzedNoop(r, e.candidate, e.persistent, c);
    } else {
      assert IsNoop(r, c) && SameRequests(r, u, c);
    }
  }

  lemma {:induction false} NoopLasts(s: State, e: Event, c: CandidateId)
    requires Inv(s) && IsNoop(s.db.reviews, c)
    ensures IsNoop(Step(s, e).db.reviews, c)
  {
    if e.Execute? && e.plan in s.prepared {
      assert PlanOk(s.db, e.plan);
      NothingTears(s.db, e.plan);
    }
  }

  /** The last step of a run, seen from one noop candidate. */
  lemma {:induction false} NoopAtEnd(events: seq<Event>, c: CandidateId)
    requires events != []
    ensures var r, u := Run(Init(), events[..|events| - 1]).db.reviews, Run(Init(), events).db.reviews;
      && (IsNoop(r, c) ==> IsNoop(u, c))
      && (IsNoop(u, c) ==>
            (HasRequest(u, c) <==> IsNoop(r, c) && (HasRequest(r, c) || events[|events| - 1] == Analyze(c, true))))
  {
    var earlier := events[..|events| - 1];
    RunsKeepInv(earlier);
    var s, e := Run(Init(), earlier), events[|events| - 1];
    if IsNoop(s.db.reviews, c) {
      NoopLasts(s, e, c);
    }
    if IsNoop(Step(s, e).db.reviews, c) {
      NoopStep(s, e, c);
    }
  }

  lemma {:induction false} NoopStays(events: seq<Event>, i: nat, c: CandidateId)
    requires i <= |events| && IsNoop(Run(Init(), events[..i]).db.reviews, c)
    ensures IsNoop(Run(Init(), events).db.reviews, c)
    decreases |events|
  {
    if i == |events| {
      assert events[..i] == events;
    } else {
      var earlier := events[..|events| - 1];
      assert earlier[..i] == events[..i];
      NoopStays(earlier, i, c);
      NoopAtEnd(events, c);
    }
  }

  /** A noop candidate has a review request exactly when a persistent analysis reached it late. */
  lemma {:induction false} NoopRequestIsLate(events: seq<Event>, c: CandidateId)
    requires IsNoop(Run(Init(), events).db.reviews, c)
    ensures HasRequest(Run(Init(), events).db.reviews, c) <==>
      exists i :: 0 <= i < |events| && LateAnalysis(events, i, c)
    decreases |events|
  {
    if events != [] {
      var n := |events| - 1;
      var earlier := events[..n];
      NoopAtEnd(events, c);
      forall i | 0 <= i < n ensures LateAnalysis(events, i, c) <==> LateAnalysis(earlier, i, c) {
        assert earlier[..i] == events[..i];
      }
      if IsNoop(Run(Init(), earlier).db.reviews, c) {
        NoopRequestIsLate(earlier, c);
        assert events[n] == Analyze(c, true) ==> LateAnalysis(events, n, c);
      } else {
        forall i | 0 <= i < n ensures !LateAnalysis(events, i, c) {
          if LateAnalysis(earlier, i, c) {
            NoopStays(earlier, i, c);
          }
        }
      }
    }
  }

  /** The smallest run that leaves an open request on a candidate nobody can review. */
  lemma {:induction false} LateAnalysisHappens()
    ensures var r := Run(Init(), [Submit(0), Analyze(0, false), Analyze(0, true)]).db.reviews;
      IsNoop(r, 0) && ForCandidate(0) in r.requests && Open(r.requests[ForCandidate(0)].status)
  {
    var events := [Submit(0), Analyze(0, false), Analyze(0, true)];
    assert events[..2] == [Submit(0), Analyze(0, false)] && events[..2][..1] == [Submit(0)] && events[..1][..0] == [];
    var one := Run(Init(), [Submit(0)]);
    assert [Submit(0)][..0] == [];
    assert one.db.reviews.candidates[0] == Candidate(1, Queued, None);
    var two := Step(one, Analyze(0, false));
    assert Run(Init(), events[..2]) == two;
    assert IsNoop(two.db.reviews, 0) && !HasRequest(two.db.reviews, 0);
  }

  /**
   Memory m's versions 1 .. n each have exactly one revision, with an audit event, and the last is the current one.
   */
  lemma {:induction false} RevisionsAreContiguous(events: seq<Event>, m: MemoryId, k: nat)
    requires m in Run(Init(), events).db.formal.memories
    ensures var db := Run(Init(), events).db; var f := db.formal;
      && (HasRevision(f, m, k) <==> 1 <= k <= f.memories[m].version)
      && f.memories[m].current.Some? && f.memories[m].current.value in f.revisions
      && f.revisions[f.memories[m].current.value].version == f.memories[m].version
      && (forall r :: r in f.revisions && f.revisions[r].memory == m && f.revisions[r].version == k ==>
            f.revisions[r].audit in db.log.audits)
      && (forall a, b :: a in f.revisions && b in f.revisions && SameRevision(f.revisions[a], f.revisions[b]) ==>
        a == b)
  {
    RunsKeepInv(events);
    var db := Run(Init(), events).db;
    RevisionsInChain(db.formal, db.version, m);
  }

  lemma {:induction false} RevisionsInChain(f: Formals, version: nat, m: MemoryId)
    requires FormalsOk(f, version) && m in f.memories
    ensures MemoryOk(f, m)
    ensures forall k: nat {:trigger HasRevision(f, m, k)} :: HasRevision(f, m, k) <==> 1 <= k <= f.memories[m].version
    ensures forall r :: r in f.revisions ==> 1 <= f.revisions[r].audit <= version
  {
    forall r | r in f.revisions
      ensures f.revisions[r].memory in f.memories
      ensures 1 <= f.revisions[r].version <= f.memories[f.revisions[r].memory].version
      ensures 1 <= f.revisions[r].audit <= version
    {
      assert RevisionOk(f, version, r);
    }
    assert MemoryOk(f, m);
  }

  /** A candidate is promoted to a revision exactly when that first revision names the candidate as its source. */
  lemma {:induction false} PromotedIffSource(events: seq<Event>, c: CandidateId, r: RevisionId)
    requires c in Run(Init(), events).db.reviews.candidates && r in Run(Init(), events).db.formal.revisions
    ensures var db := Run(Init(), events).db;
      && (db.formal.revisions[r].source == Some(c) <==>
            db.reviews.candidates[c].promotedTo == Some(Formal(db.formal.revisions[r].memory, r)))
      && (db.reviews.candidates[c].promotedTo.Some? <==> db.reviews.candidates[c].status == Promoted)
  {
    RunsKeepInv(events);
    var db := Run(Init(), events).db;
    assert PromotionOk(db.reviews.candidates, db.formal.revisions, c);
    assert SourceOk(db.reviews.candidates, db.formal.revisions, r);
    assert CandidateOk(db.reviews, c);
  }
}
