/** What a projection snapshot is built from and made of, and the checks on its input. */
module SnapshotInput {
  import opened Common
  import opened JsonText
  import opened ProjectionPaths
  import opened ProjectionEnvelope

  datatype ContentType = JsonContent | MarkdownContent

  datatype IndexEntry = IndexEntry(
    memoryId: Text, revisionId: Text, memoryVersion: int,
    kind: string, memoryClass: string, scope: string, scopeId: Text, status: string,
    validFrom: Option<Text>, validUntil: Option<Text>,
    canonicalUri: string, revisionUri: string, objectKey: string, revisionKey: string,
    contentSha256: Digest, objectSha256: Digest, revisionSha256: Digest)

  datatype RevisionEntry = RevisionEntry(
    memoryId: Text, revisionId: Text, memoryVersion: int,
    validFrom: Option<Text>, validUntil: Option<Text>,
    revisionUri: string, revisionKey: string, contentSha256: Digest, revisionSha256: Digest)

  datatype ManifestFile = ManifestFile(key: string, sha256: Digest, contentType: ContentType, bytes: nat)

  /** The JSON documents of a snapshot. */
  datatype Document =
    | ManifestDocument(
        schemaVersion: int, projectId: Text, projectVersion: int, snapshotId: Text,
        memories: seq<IndexEntry>, revisions: seq<RevisionEntry>, files: seq<ManifestFile>)
    | IndexDocument(
        schemaVersion: int, projectId: Text, projectVersion: int, snapshotId: Text,
        dimension: string, value: Text, memories: seq<IndexEntry>)

  /** What the platform offers: the digest, and JSON texts of documents. */
  datatype Platform = Platform(sha256: Text -> Digest, stringify: Document -> Text, parse: Text -> Option<Document>)

  const BRACE: Unit := 0x7B

  /** A document is written as an object, and is read back from its text and a line break. */
  ghost predicate IsLawful(js: Platform) {
    forall d {:trigger js.stringify(d)} ::
      && js.stringify(d) != [] && js.stringify(d)[0] == BRACE
      && js.parse(js.stringify(d) + [NEWLINE]) == Some(d)
  }

  datatype Input = Input(
    projectId: Text, projectVersion: int, snapshotId: Text, heads: seq<Memory>, revisions: seq<Memory>)

  datatype Write = Write(key: string, body: Text, sha256: Digest, contentType: ContentType)

  datatype Plan = Plan(
    projectId: Text, projectVersion: int, snapshotId: Text, prefix: string,
    manifestKey: string, manifestSha256: Digest, writes: seq<Write>)

  // ----- Valid input

  function Normalized(m: Memory): Memory {
    m.(evidenceIds := NormalizedEvidence(m.evidenceIds))
  }

  predicate Belongs(input: Input, m: Memory) {
    && ValidMemory(m)
    && m.projectId == input.projectId && m.projectVersion == input.projectVersion && m.snapshotId == input.snapshotId
  }

  predicate DistinctMemories(ms: seq<Memory>) {
    forall i, j :: 0 <= i < j < |ms| ==> ms[i].memoryId != ms[j].memoryId
  }

  predicate DistinctRevisions(ms: seq<Memory>) {
    forall i, j :: 0 <= i < j < |ms| ==> ms[i].revisionId != ms[j].revisionId
  }

  predicate IsCurrent(revision: Memory, heads: seq<Memory>) {
    exists i :: 0 <= i < |heads| && heads[i].memoryId == revision.memoryId && heads[i].revisionId == revision.revisionId
  }

  predicate HasRevision(head: Memory, revisions: seq<Memory>) {
    exists i :: 0 <= i < |revisions| && revisions[i].revisionId == head.revisionId
      && Normalized(revisions[i]) == Normalized(head)
  }

  /** One current revision for each head, with the same metadata. */
  predicate ValidInput(input: Input) {
    && Segment(input.projectId).Some? && Segment(input.snapshotId).Some?
    && 0 <= input.projectVersion <= MAX_SAFE_INTEGER
    && AllBelong(input, input.heads) && AllBelong(input, input.revisions)
    && DistinctMemories(input.heads)
    && DistinctRevisions(input.revisions)
    && AllCurrent(input.revisions, input.heads)
    && |input.revisions| == |input.heads|
    && AllHaveRevision(input.heads, input.revisions)
  }

  /** Current revisions of one memory are one revision, so their versions need no comparison. */
  lemma {:induction false} RevisionsAreOfDistinctMemories(heads: seq<Memory>, revisions: seq<Memory>)
    requires DistinctMemories(heads) && DistinctRevisions(revisions)
    requires forall i :: 0 <= i < |revisions| ==> IsCurrent(revisions[i], heads)
    ensures DistinctMemories(revisions)
  {
    forall i, j | 0 <= i < j < |revisions| ensures revisions[i].memoryId != revisions[j].memoryId {
      var a :| 0 <= a < |heads| && heads[a].memoryId == revisions[i].memoryId
        && heads[a].revisionId == revisions[i].revisionId;
      var b :| 0 <= b < |heads| && heads[b].memoryId == revisions[j].memoryId
        && heads[b].revisionId == revisions[j].revisionId;
    }
  }

  predicate MapsHeads(heads: seq<Memory>, byId: map<Text, Memory>) {
    && (forall i :: 0 <= i < |heads| ==> heads[i].memoryId in byId && byId[heads[i].memoryId] == heads[i])
    && (forall id :: id in byId ==> exists i :: 0 <= i < |heads| && heads[i].memoryId == id)
  }

  predicate MapsRevisions(revisions: seq<Memory>, byId: map<Text, Memory>) {
    && (forall i :: 0 <= i < |revisions| ==>
      revisions[i].revisionId in byId && byId[revisions[i].revisionId] == revisions[i])
    && (forall id :: id in byId ==> exists i :: 0 <= i < |revisions| && revisions[i].revisionId == id)
  }

  lemma {:induction false} OneCurrentRevision(heads: seq<Memory>, byId: map<Text, Memory>, a: Memory, b: Memory)
    requires MapsHeads(heads, byId) && IsCurrent(a, heads) && a.memoryId == b.memoryId && a.revisionId != b.revisionId
    ensures !IsCurrent(b, heads)
  {
  }

  lemma {:induction false} CurrentIffMapped(heads: seq<Memory>, byId: map<Text, Memory>, m: Memory)
    requires MapsHeads(heads, byId)
    ensures IsCurrent(m, heads) <==> m.memoryId in byId && byId[m.memoryId].revisionId == m.revisionId
  {
  }

  lemma {:induction false} OneMoreHead(heads: seq<Memory>, i: nat, byId: map<Text, Memory>)
    requires i < |heads| && MapsHeads(heads[..i], byId) && DistinctMemories(heads[..i])
    ensures heads[i].memoryId in byId ==> !DistinctMemories(heads)
    ensures heads[i].memoryId !in byId ==>
      DistinctMemories(heads[..i + 1]) && MapsHeads(heads[..i + 1], byId[heads[i].memoryId := heads[i]])
  {
    var before, after := heads[..i], heads[..i + 1];
    if heads[i].memoryId in byId {
      var k :| 0 <= k < |before| && before[k].memoryId == heads[i].memoryId;
      assert heads[k].memoryId == heads[i].memoryId;
    } else {
      var more := byId[heads[i].memoryId := heads[i]];
      forall id | id in more ensures exists k :: 0 <= k < |after| && after[k].memoryId == id {
        if id in byId {
          var k :| 0 <= k < |before| && before[k].memoryId == id;
          assert after[k].memoryId == id;
        } else {
          assert after[i].memoryId == id;
        }
      }
    }
  }

  lemma {:induction false} OneMoreRevision(revisions: seq<Memory>, i: nat, byId: map<Text, Memory>)
    requires i < |revisions| && MapsRevisions(revisions[..i], byId) && DistinctRevisions(revisions[..i])
    ensures revisions[i].revisionId in byId ==> !DistinctRevisions(revisions)
    ensures revisions[i].revisionId !in byId ==>
      DistinctRevisions(revisions[..i + 1])
      && MapsRevisions(revisions[..i + 1], byId[revisions[i].revisionId := revisions[i]])
  {
    var before, after := revisions[..i], revisions[..i + 1];
    if revisions[i].revisionId in byId {
      var k :| 0 <= k < |before| && before[k].revisionId == revisions[i].revisionId;
      assert revisions[k].revisionId == revisions[i].revisionId;
    } else {
      var more := byId[revisions[i].revisionId := revisions[i]];
      forall id | id in more ensures exists k :: 0 <= k < |after| && after[k].revisionId == id {
        if id in byId {
          var k :| 0 <= k < |before| && before[k].revisionId == id;
          assert after[k].revisionId == id;
        } else {
          assert after[i].revisionId == id;
        }
      }
    }
  }

  predicate AllBelong(input: Input, ms: seq<Memory>) {
    forall i :: 0 <= i < |ms| ==> Belongs(input, ms[i])
  }

  predicate AllCurrent(revisions: seq<Memory>, heads: seq<Memory>) {
    forall i :: 0 <= i < |revisions| ==> IsCurrent(revisions[i], heads)
  }

  /** `validateSnapshotInput`: the heads. */
  method ValidateHeads(input: Input) returns (r: Result<map<Text, Memory>>)
    ensures r.Success? <==> AllBelong(input, input.heads) && DistinctMemories(input.heads)
    ensures r.Success? ==> MapsHeads(input.heads, r.value)
  {
    var byId: map<Text, Memory> := map[];
    var i := 0;
    while i < |input.heads|
      invariant 0 <= i <= |input.heads|
      invariant AllBelong(input, input.heads[..i]) && DistinctMemories(input.heads[..i])
      invariant MapsHeads(input.heads[..i], byId)
    {
      OneMoreHead(input.heads, i, byId);
      var head := input.heads[i];
      if !Belongs(input, head) || head.memoryId in byId {
        return Failure;
      }
      byId := byId[head.memoryId := head];
      i := i + 1;
    }
    assert input.heads[..i] == input.heads;
    return Success(byId);
  }

  /** The first `n` revisions pass every check. */
  predicate RevisionsAreValid(input: Input, n: nat)
    requires n <= |input.revisions|
  {
    && AllBelong(input, input.revisions[..n]) && AllCurrent(input.revisions[..n], input.heads)
    && DistinctRevisions(input.revisions[..n])
  }

  lemma {:induction false} NextRevisionIsValid(input: Input, i: nat, byId: map<Text, Memory>)
    requires i < |input.revisions| && RevisionsAreValid(input, i) && MapsRevisions(input.revisions[..i], byId)
    ensures RevisionsAreValid(input, i + 1) <==>
      var revision := input.revisions[i];
      Belongs(input, revision) && revision.revisionId !in byId && IsCurrent(revision, input.heads)
  {
    var revisions := input.revisions;
    var before, after := revisions[..i], revisions[..i + 1];
    assert after[i] == revisions[i] && forall k :: 0 <= k < i ==> after[k] == before[k];
    OneMoreRevision(revisions, i, byId);
    if revisions[i].revisionId in byId {
      var k :| 0 <= k < |before| && before[k].revisionId == revisions[i].revisionId;
      assert after[k].revisionId == after[i].revisionId;
    }
  }

  lemma {:induction false} ValidBefore(input: Input, i: nat)
    requires i <= |input.revisions| && RevisionsAreValid(input, |input.revisions|)
    ensures RevisionsAreValid(input, i)
  {
    var some, all := input.revisions[..i], input.revisions[..|input.revisions|];
    assert forall k :: 0 <= k < i ==> some[k] == all[k];
  }

  lemma {:induction false} NextRevision(input: Input, i: nat, byId: map<Text, Memory>, headById: map<Text, Memory>)
    requires MapsHeads(input.heads, headById)
    requires i < |input.revisions| && RevisionsAreValid(input, i) && MapsRevisions(input.revisions[..i], byId)
    ensures RevisionsAreValid(input, |input.revisions|) ==> RevisionsAreValid(input, i + 1)
    ensures RevisionsAreValid(input, i + 1) <==>
      var revision := input.revisions[i];
      && Belongs(input, revision) && revision.revisionId !in byId
      && revision.memoryId in headById && headById[revision.memoryId].revisionId == revision.revisionId
  {
    NextRevisionIsValid(input, i, byId);
    CurrentIffMapped(input.heads, headById, input.revisions[i]);
    if RevisionsAreValid(input, |input.revisions|) {
      ValidBefore(input, i + 1);
    }
  }

  /** A second version of a memory would need the head to be at two revisions. */
  lemma {:induction false} SecondVersionIsNotCurrent(
    input: Input, k: nat, i: nat, byId: map<Text, Memory>, headById: map<Text, Memory>)
    requires MapsHeads(input.heads, headById)
    requires k < i < |input.revisions| && RevisionsAreValid(input, i) && MapsRevisions(input.revisions[..i], byId)
    requires input.revisions[k].memoryId == input.revisions[i].memoryId
    ensures !RevisionsAreValid(input, i + 1)
  {
    NextRevisionIsValid(input, i, byId);
    assert input.revisions[..i][k] == input.revisions[k];
    if input.revisions[i].revisionId !in byId {
      OneCurrentRevision(input.heads, headById, input.revisions[k], input.revisions[i]);
    }
  }

  /** `validateSnapshotInput`: the revisions against the heads. */
  method ValidateRevisions(input: Input, headById: map<Text, Memory>) returns (r: Result<map<Text, Memory>>)
    requires MapsHeads(input.heads, headById)
    ensures r.Success? <==> RevisionsAreValid(input, |input.revisions|)
    ensures r.Success? ==> MapsRevisions(input.revisions, r.value)
  {
    var byId: map<Text, Memory> := map[];
    var versions: set<(Text, int)> := {};
    var i := 0;
    while i < |input.revisions|
      invariant 0 <= i <= |input.revisions| && RevisionsAreValid(input, i)
      invariant MapsRevisions(input.revisions[..i], byId)
      invariant forall v :: v in versions ==> exists k :: 0 <= k < i && input.revisions[k].memoryId == v.0
    {
      var revision := input.revisions[i];
      NextRevision(input, i, byId, headById);
      if !Belongs(input, revision) || revision.revisionId in byId {
        return Failure;
      }
      if (revision.memoryId, revision.memoryVersion) in versions {
        ghost var k :| 0 <= k < i && input.revisions[k].memoryId == revision.memoryId;
        SecondVersionIsNotCurrent(input, k, i, byId, headById);
        return Failure;
      }
      if revision.memoryId !in headById || revision.revisionId != headById[revision.memoryId].revisionId {
        return Failure;
      }
      OneMoreRevision(input.revisions, i, byId);
      byId := byId[revision.revisionId := revision];
      versions := versions + {(revision.memoryId, revision.memoryVersion)};
      i := i + 1;
    }
    assert input.revisions[..i] == input.revisions;
    return Success(byId);
  }

  predicate AllHaveRevision(heads: seq<Memory>, revisions: seq<Memory>) {
    forall i :: 0 <= i < |heads| ==> HasRevision(heads[i], revisions)
  }

  /** `validateSnapshotInput`: each head against its revision. */
  method ValidateCurrentRevisions(heads: seq<Memory>, revisions: seq<Memory>, byId: map<Text, Memory>)
    returns (ok: bool)
    requires MapsRevisions(revisions, byId)
    ensures ok <==> AllHaveRevision(heads, revisions)
  {
    var i := 0;
    while i < |heads|
      invariant 0 <= i <= |heads|
      invariant forall k :: 0 <= k < i ==> HasRevision(heads[k], revisions)
    {
      var head := heads[i];
      RevisionIffMapped(revisions, byId, head);
      if head.revisionId !in byId || Normalized(head) != Normalized(byId[head.revisionId]) {
        return false;
      }
      i := i + 1;
    }
    return true;
  }

  method ValidateSnapshotInput(input: Input) returns (ok: bool)
    ensures ok <==> ValidInput(input)
  {
    if Segment(input.projectId).None? || Segment(input.snapshotId).None?
      || !(0 <= input.projectVersion <= MAX_SAFE_INTEGER) {
      return false;
    }
    var heads := ValidateHeads(input);
    if heads.Failure? {
      return false;
    }
    assert input.revisions[..|input.revisions|] == input.revisions;
    var revisions := ValidateRevisions(input, heads.value);
    if revisions.Failure? || |input.revisions| != |input.heads| {
      return false;
    }
    ok := ValidateCurrentRevisions(input.heads, input.revisions, revisions.value);
  }

  lemma {:induction false} RevisionIffMapped(revisions: seq<Memory>, byId: map<Text, Memory>, head: Memory)
    requires MapsRevisions(revisions, byId)
    ensures HasRevision(head, revisions) <==>
      head.revisionId in byId && Normalized(head) == Normalized(byId[head.revisionId])
  {
  }
}
