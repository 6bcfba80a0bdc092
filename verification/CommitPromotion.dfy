/** Promoting a candidate into a memory's first revision (src/storage/promotion-plan.ts). */
module CommitPromotion {
  import opened Common
  import opened CommitStore
  import opened CommitPlans

  datatype Scope = Project | Repository | Narrower

  /** The outcome's verdict is `Approve`, and it names the memory and revision to create. */
  datatype Promotion = Promotion(
    expectedVersion: nat, candidate: CandidateId, expectedCandidateVersion: nat, request: RequestId,
      decision: DecisionId,
    memory: MemoryId, revision: RevisionId, actor: PrincipalId, digest: Digest, key: nat, content: Digest,
    scope: Scope, scopeId: nat, repository: Option<nat>, validFrom: Option<nat>, validUntil: Option<nat>,
    evidence: seq<Evidence>, previous: Option<Hash>, hash: Hash)

  function OutcomeOf(i: Promotion): Outcome {
    Outcome(i.expectedVersion, i.candidate, i.expectedCandidateVersion, i.request, i.decision, Approve,
            Some(Formal(i.memory, i.revision)))
  }

  function PromotionAudit(i: Promotion): Audit {
    Audit(i.actor, i.digest, i.previous, i.hash)
  }

  function FirstRevision(i: Promotion): Revision {
    Revision(i.memory, 1, i.content, i.expectedVersion + 1, Some(i.candidate))
  }

  function PromotionRecord(i: Promotion): Record {
    Record(i.digest,
           PromotionResponse(i.candidate, i.expectedCandidateVersion + 1, i.memory, i.revision, i.expectedVersion + 1),
           i.expectedVersion + 1)
  }

  function FenceOf(i: Promotion): Fence {
    ReviewFence(OutcomeOf(i))
  }

  function PromotedFence(i: Promotion): Fence {
    Fence(i.expectedVersion, PromotedAs(i.candidate, i.expectedCandidateVersion + 1, i.memory))
  }

  /** What the builder refuses before it writes any statement. */
  predicate WellFormed(i: Promotion) {
    && i.evidence != []
    && (i.scope == Project <==> i.repository == None)
    && (i.scope == Repository ==> i.repository == Some(i.scopeId))
    && (i.validFrom.Some? && i.validUntil.Some? ==> i.validFrom.value <= i.validUntil.value)
  }

  function Opening(i: Promotion): seq<Statement> {
    [InsertAudit(FenceOf(i), i.expectedVersion + 1, PromotionAudit(i)), InsertMemory(FenceOf(i), i.memory, i.scopeId)]
  }

  function ContextStatement(i: Promotion): seq<Statement> {
    if i.repository.Some? then [InsertContext(FenceOf(i), i.memory, i.repository.value)] else []
  }

  function RevisionStatements(i: Promotion): seq<Statement> {
    [InsertRevision(FenceOf(i), i.revision, FirstRevision(i)), UpdateMemory(FenceOf(i), i.memory, 0, i.revision, None)]
  }

  function LinkStatements(f: Fence, revision: RevisionId, evidence: seq<Evidence>): seq<Statement> {
    if evidence == [] then []
    else
      var e := evidence[|evidence| - 1];
      LinkStatements(f, revision, evidence[..|evidence| - 1]) + [InsertEvidence(f, e), LinkEvidence(f, revision, e.key)]
  }

  function PromotionStart(i: Promotion): seq<Statement> {
    Opening(i) + ContextStatement(i) + RevisionStatements(i) + LinkStatements(FenceOf(i), i.revision, i.evidence)
    + Deciding(OutcomeOf(i))
  }

  function PromotionPlan(i: Promotion): seq<Statement> {
    PromotionStart(i)
    + Ending(PromotedFence(i), ReviewKey(i.actor, i.key), PromotionRecord(i), MemoryChanged(i.memory), i.hash)
  }

  /** `buildCandidatePromotionPlan` */
  method BuildCandidatePromotionPlan(i: Promotion) returns (r: Result<seq<Statement>>)
    ensures r == if WellFormed(i) then Success(PromotionPlan(i)) else Failure
  {
    if i.evidence == [] {
      return Failure;
    }
    if i.scope == Project && i.repository.Some? {
      return Failure;
    }
    if i.scope != Project && i.repository == None {
      return Failure;
    }
    if i.scope == Repository && i.repository != Some(i.scopeId) {
      return Failure;
    }
    if i.validFrom.Some? && i.validUntil.Some? && i.validFrom.value > i.validUntil.value {
      return Failure;
    }
    var statements := Opening(i);
    if i.repository.Some? {
      statements := statements + [InsertContext(FenceOf(i), i.memory, i.repository.value)];
    }
    assert statements == Opening(i) + ContextStatement(i);
    statements := statements + RevisionStatements(i);
    ghost var created := statements;
    for n := 0 to |i.evidence|
      invariant statements == created + LinkStatements(FenceOf(i), i.revision, i.evidence[..n])
    {
      assert i.evidence[..n + 1][..n] == i.evidence[..n];
      statements := statements
        + [InsertEvidence(FenceOf(i), i.evidence[n]), LinkEvidence(FenceOf(i), i.revision, i.evidence[n].key)];
    }
    assert i.evidence[..|i.evidence|] == i.evidence;
    statements := statements + Deciding(OutcomeOf(i));
    r := Success(statements
      + Ending(PromotedFence(i), ReviewKey(i.actor, i.key), PromotionRecord(i), MemoryChanged(i.memory), i.hash));
  }

  // ----- Creating the memory

  ghost predicate MayCreate(db: Db, i: Promotion) {
    && AuditFits(db, i.expectedVersion + 1, PromotionAudit(i))
    && i.memory !in db.formal.memories
    && (i.repository.Some? ==> i.memory !in db.formal.contexts)
    && i.revision !in db.formal.revisions
    && (forall o :: o in db.formal.revisions ==>
          !(db.formal.revisions[o].memory == i.memory && db.formal.revisions[o].version == 1))
    && CurrentFits(db, i.memory, i.revision)
  }

  function Created(f: Formals, i: Promotion): Formals {
    f.(memories := f.memories[i.memory := Memory(Some(i.revision), 1, Active, i.scopeId)],
       contexts := if i.repository.Some? then f.contexts[i.memory := i.repository.value] else f.contexts,
       revisions := f.revisions[i.revision := FirstRevision(i)])
  }

  lemma {:induction false} ExecTwo(db: Db, q: seq<Statement>)
    requires |q| == 2
    ensures ExecAll(db, q) == Then(Exec(db, q[0]), q[1])
  {
    assert q == [q[0]] + [q[1]] && [] + [q[0]] == [q[0]];
    ExecNext(db, [q[0]], q[1]);
    ExecNext(db, [], q[0]);
  }

  function Blank(f: Formals, i: Promotion): Formals {
    f.(memories := f.memories[i.memory := Memory(None, 0, Active, i.scopeId)])
  }

  lemma {:induction false} OpeningRuns(db: Db, i: Promotion)
    requires Holds(db, FenceOf(i))
    ensures ExecAll(db, Opening(i)) ==
      if AuditFits(db, i.expectedVersion + 1, PromotionAudit(i)) && i.memory !in db.formal.memories
      then Some(Audited(db, PromotionAudit(i)).(formal := Blank(db.formal, i))) else None
  {
    ExecTwo(db, Opening(i));
  }

  lemma {:induction false} ContextRuns(db: Db, i: Promotion)
    requires Holds(db, FenceOf(i)) && i.memory in db.formal.memories
    ensures ExecAll(db, ContextStatement(i)) ==
      if i.repository == None then Some(db)
      else if i.memory in db.formal.contexts then None
      else Some(db.(formal := db.formal.(contexts := db.formal.contexts[i.memory := i.repository.value])))
  {
    if i.repository.Some? {
      ExecOne(db, InsertContext(FenceOf(i), i.memory, i.repository.value));
    }
  }

  lemma {:induction false} ExecOne(db: Db, s: Statement)
    ensures ExecAll(db, [s]) == Exec(db, s)
  {
    assert [] + [s] == [s];
    ExecNext(db, [], s);
  }

  lemma {:induction false} RevisionRuns(db: Db, i: Promotion)
    requires Holds(db, FenceOf(i)) && i.expectedVersion + 1 in db.log.audits
    requires i.memory in db.formal.memories && db.formal.memories[i.memory] == Memory(None, 0, Active, i.scopeId)
    ensures ExecAll(db, RevisionStatements(i)) ==
      if RevisionFits(db, i.revision, FirstRevision(i)) && CurrentFits(db, i.memory, i.revision)
      then Some(db.(formal := db.formal.(
             revisions := db.formal.revisions[i.revision := FirstRevision(i)],
             memories := db.formal.memories[i.memory := Memory(Some(i.revision), 1, Active, i.scopeId)])))
      else None
  {
    ExecTwo(db, RevisionStatements(i));
  }

  lemma {:induction false} BlankFits(db: Db, d: Db, i: Promotion)
    requires i.memory !in db.formal.memories
    requires d.formal.memories == Blank(db.formal, i).memories && d.formal.revisions == db.formal.revisions
    requires i.expectedVersion + 1 in d.log.audits
    ensures CurrentFits(d, i.memory, i.revision) <==> CurrentFits(db, i.memory, i.revision)
    ensures RevisionFits(d, i.revision, FirstRevision(i)) <==>
      (i.revision !in db.formal.revisions
       && (forall o :: o in db.formal.revisions ==>
             !(db.formal.revisions[o].memory == i.memory && db.formal.revisions[o].version == 1)))
  {
    assert forall o :: o != i.memory && o in db.formal.memories ==> d.formal.memories[o] == db.formal.memories[o];
  }

  lemma {:induction false} CreationRuns(db: Db, i: Promotion, creation: seq<Statement>)
    requires Holds(db, FenceOf(i)) && creation == Opening(i) + ContextStatement(i) + RevisionStatements(i)
    ensures ExecAll(db, creation) ==
      if MayCreate(db, i) then Some(Audited(db, PromotionAudit(i)).(formal := Created(db.formal, i))) else None
  {
    ExecConcat(db, Opening(i) + ContextStatement(i), RevisionStatements(i));
    ExecConcat(db, Opening(i), ContextStatement(i));
    OpeningRuns(db, i);
    var d1 := Audited(db, PromotionAudit(i)).(formal := Blank(db.formal, i));
    if AuditFits(db, i.expectedVersion + 1, PromotionAudit(i)) && i.memory !in db.formal.memories {
      ContextRuns(d1, i);
      if i.repository.Some? && i.memory in db.formal.contexts {
        return;
      }
      var d2 := ExecAll(d1, ContextStatement(i)).value;
      assert d2.formal.memories == d1.formal.memories && d2.formal.revisions == db.formal.revisions;
      RevisionRuns(d2, i);
      BlankFits(db, d2, i);
      var full := Memory(Some(i.revision), 1, Active, i.scopeId);
      assert d2.formal.memories[i.memory := full] == db.formal.memories[i.memory := full];
    }
  }

  // ----- Linking the evidence

  datatype Linked = Linked(evidence: map<nat, EvidenceId>, links: set<Link>)

  /** Known evidence is reused; the same evidence twice, or an identifier taken by other evidence, is an error. */
  ghost function LinkAll(l: Linked, revision: RevisionId, evidence: seq<Evidence>): Option<Linked> {
    if evidence == [] then Some(l)
    else
      var before := LinkAll(l, revision, evidence[..|evidence| - 1]);
      if before == None then None else LinkOne(before.value, revision, evidence[|evidence| - 1])
  }

  ghost function LinkOne(l: Linked, revision: RevisionId, e: Evidence): Option<Linked> {
    if !EvidenceFits(l.evidence, e) then None
    else
      var known := WithEvidence(l.evidence, e);
      if Link(revision, known[e.key]) in l.links then None
      else Some(Linked(known, l.links + {Link(revision, known[e.key])}))
  }

  function WithLinks(db: Db, l: Linked): Db {
    db.(formal := db.formal.(evidence := l.evidence, links := l.links))
  }

  lemma {:induction false} LinkingRuns(db: Db, f: Fence, revision: RevisionId, evidence: seq<Evidence>)
    requires Holds(db, f) && revision in db.formal.revisions
    ensures var l := LinkAll(Linked(db.formal.evidence, db.formal.links), revision, evidence);
      ExecAll(db, LinkStatements(f, revision, evidence)) == if l.Some? then Some(WithLinks(db, l.value)) else None
  {
    if evidence != [] {
      var earlier := evidence[..|evidence| - 1];
      var e := evidence[|evidence| - 1];
      var pair := [InsertEvidence(f, e), LinkEvidence(f, revision, e.key)];
      LinkingRuns(db, f, revision, earlier);
      ExecConcat(db, LinkStatements(f, revision, earlier), pair);
      var l := LinkAll(Linked(db.formal.evidence, db.formal.links), revision, earlier);
      if l.Some? {
        PairRuns(WithLinks(db, l.value), f, revision, e, pair);
      }
    }
  }

  lemma {:induction false} PairRuns(db: Db, f: Fence, revision: RevisionId, e: Evidence, pair: seq<Statement>)
    requires Holds(db, f) && revision in db.formal.revisions
    requires pair == [InsertEvidence(f, e), LinkEvidence(f, revision, e.key)]
    ensures var l := LinkOne(Linked(db.formal.evidence, db.formal.links), revision, e);
      ExecAll(db, pair) == if l.Some? then Some(WithLinks(db, l.value)) else None
  {
    ExecTwo(db, pair);
  }

  /** After linking, every cited piece of evidence is stored and linked, and nothing stored before has changed. */
  lemma {:induction false} LinkingIsComplete(l: Linked, revision: RevisionId, evidence: seq<Evidence>, n: nat)
    requires LinkAll(l, revision, evidence).Some? && n < |evidence|
    ensures var after := LinkAll(l, revision, evidence).value;
      && evidence[n].key in after.evidence && Link(revision, after.evidence[evidence[n].key]) in after.links
      && (forall k :: k in l.evidence ==> k in after.evidence && after.evidence[k] == l.evidence[k])
      && l.links <= after.links
  {
    LinkingOnlyAdds(l, revision, evidence);
    var earlier := evidence[..|evidence| - 1];
    if n < |earlier| {
      LinkingIsComplete(l, revision, earlier, n);
    }
  }

  lemma {:induction false} LinkingOnlyAdds(l: Linked, revision: RevisionId, evidence: seq<Evidence>)
    requires LinkAll(l, revision, evidence).Some?
    ensures var after := LinkAll(l, revision, evidence).value;
      && (forall k :: k in l.evidence ==> k in after.evidence && after.evidence[k] == l.evidence[k])
      && l.links <= after.links
  {
    if evidence != [] {
      LinkingOnlyAdds(l, revision, evidence[..|evidence| - 1]);
    }
  }

  // ----- The whole plan

  ghost function LinkedFor(db: Db, i: Promotion): Option<Linked> {
    LinkAll(Linked(db.formal.evidence, db.formal.links), i.revision, i.evidence)
  }

  ghost predicate MayPromote(db: Db, i: Promotion) {
    && Holds(db, FenceOf(i))
    && MayCreate(db, i)
    && LinkedFor(db, i).Some?
    && (RequestOpen(db, i.request, i.candidate) ==>
          DecisionFits(Audited(db, PromotionAudit(i)), i.decision, DecisionRow(OutcomeOf(i))))
    && ReviewKey(i.actor, i.key) !in db.log.records && i.expectedVersion + 1 !in db.log.outbox
  }

  function FinishPromotion(db: Db, i: Promotion): Db {
    Finished(db, ReviewKey(i.actor, i.key), PromotionRecord(i), MemoryChanged(i.memory), i.hash)
  }

  /** The store once the memory is created and its evidence linked. */
  ghost function WithMemory(db: Db, i: Promotion): Db
    requires LinkedFor(db, i).Some?
  {
    WithLinks(Audited(db, PromotionAudit(i)).(formal := Created(db.formal, i)), LinkedFor(db, i).value)
  }

  /** All of a promotion's changes. */
  ghost function AfterPromotion(db: Db, i: Promotion): Db
    requires i.candidate in db.reviews.candidates && LinkedFor(db, i).Some?
  {
    FinishPromotion(WithMemory(db, i).(reviews := Decided(db.reviews, OutcomeOf(i))), i)
  }

  function MemoryStart(i: Promotion): seq<Statement> {
    Opening(i) + ContextStatement(i) + RevisionStatements(i) + LinkStatements(FenceOf(i), i.revision, i.evidence)
  }

  lemma {:induction false} MemoryStartRuns(db: Db, i: Promotion)
    requires Holds(db, FenceOf(i))
    ensures ExecAll(db, MemoryStart(i)) ==
      if MayCreate(db, i) && LinkedFor(db, i).Some? then Some(WithMemory(db, i)) else None
  {
    var creation := Opening(i) + ContextStatement(i) + RevisionStatements(i);
    ExecConcat(db, creation, LinkStatements(FenceOf(i), i.revision, i.evidence));
    CreationRuns(db, i, creation);
    if MayCreate(db, i) {
      LinkingRuns(Audited(db, PromotionAudit(i)).(formal := Created(db.formal, i)), FenceOf(i), i.revision, i.evidence);
    }
  }

  lemma {:induction false} LinksAreFenced(f: Fence, revision: RevisionId, evidence: seq<Evidence>)
    ensures forall k :: 0 <= k < |LinkStatements(f, revision, evidence)| ==>
      LinkStatements(f, revision, evidence)[k].fence == f
  {
    if evidence != [] {
      LinksAreFenced(f, revision, evidence[..|evidence| - 1]);
    }
  }

  lemma {:induction false} StaleStart(db: Db, i: Promotion)
    requires !Holds(db, FenceOf(i))
    ensures ExecAll(db, PromotionStart(i)) == Some(db)
  {
    LinksAreFenced(FenceOf(i), i.revision, i.evidence);
    FencedPlanWritesNothing(db, MemoryStart(i));
    ExecConcat(db, MemoryStart(i), Deciding(OutcomeOf(i)));
    DecidingRuns(db, OutcomeOf(i));
  }

  lemma {:induction false} CurrentStart(db: Db, i: Promotion)
    requires Holds(db, FenceOf(i))
    ensures ExecAll(db, PromotionStart(i)) ==
      if !MayCreate(db, i) || LinkedFor(db, i) == None then None
      else if RequestOpen(db, i.request, i.candidate)
              && !DecisionFits(Audited(db, PromotionAudit(i)), i.decision, DecisionRow(OutcomeOf(i))) then None
      else Some(DecidedAsFar(WithMemory(db, i), OutcomeOf(i)))
  {
    ExecConcat(db, MemoryStart(i), Deciding(OutcomeOf(i)));
    MemoryStartRuns(db, i);
    if MayCreate(db, i) && LinkedFor(db, i).Some? {
      DecidingRuns(WithMemory(db, i), OutcomeOf(i));
    }
  }

  lemma {:induction false} CurrentPromotionRuns(db: Db, i: Promotion)
    requires Holds(db, FenceOf(i))
    ensures Batch(db, PromotionPlan(i)) ==
      if MayPromote(db, i) then FinishPromotion(DecidedAsFar(WithMemory(db, i), OutcomeOf(i)), i) else db
  {
    CurrentStart(db, i);
    PlanRuns(db, PromotionStart(i), PromotedFence(i), ReviewKey(i.actor, i.key), PromotionRecord(i),
             MemoryChanged(i.memory), i.hash, ExecAll(db, PromotionStart(i)));
  }

  ghost predicate PromotionCommits(db: Db, i: Promotion) {
    MayPromote(db, i) && RequestOpen(db, i.request, i.candidate)
  }

  ghost predicate PromotionTears(db: Db, i: Promotion) {
    if Holds(db, FenceOf(i)) then MayPromote(db, i) && !RequestOpen(db, i.request, i.candidate)
    else Holds(db, PromotedFence(i)) && MayFinish(db, ReviewKey(i.actor, i.key), PromotionRecord(i))
  }

  /** A promotion batch applies all its statements or none, exactly where it is not torn. */
  lemma {:induction false} PromotionIsAllOrNothing(db: Db, i: Promotion)
    ensures Batch(db, PromotionPlan(i)) == (if PromotionCommits(db, i) then AfterPromotion(db, i) else db) <==>
      !PromotionTears(db, i)
  {
    if Holds(db, FenceOf(i)) {
      CurrentPromotionRuns(db, i);
      assert MayPromote(db, i) ==>
        FinishPromotion(DecidedAsFar(WithMemory(db, i), OutcomeOf(i)), i).version != db.version;
    } else {
      StaleStart(db, i);
      PlanRuns(db, PromotionStart(i), PromotedFence(i), ReviewKey(i.actor, i.key), PromotionRecord(i),
               MemoryChanged(i.memory), i.hash, Some(db));
    }
  }
}
