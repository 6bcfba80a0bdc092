/** What the manifest of a built plan says about each memory, and that the files it names hold that memory. */
module SnapshotEntries {
  import opened Common
  import opened JsonText
  import opened ProjectionPaths
  import opened ProjectionEnvelope
  import opened SnapshotInput
  import opened SnapshotPlan
  import opened SnapshotCheck
  import opened SnapshotResults
  import opened SnapshotIndexes
  import CanonicalJson
  import SnapshotKeys
  import Ordering

  /** The file is the memory's object of the type: what is read back of it is the memory's metadata and content. */
  predicate IsObjectOf(js: Platform, w: Write, m: Memory, t: ObjectType)
    requires IsEncodable(m)
  {
    && w.sha256 == js.sha256(w.body)
    && Opened(w.body) == Some(Envelope(
         FrontMatter(MemoryFields(m, Segment(m.projectId).value, Segment(m.memoryId).value), t, js.sha256(m.content)),
         m.content))
  }

  predicate HasObject(js: Platform, ws: seq<Write>, key: string, digest: Digest, m: Memory, t: ObjectType)
    requires IsEncodable(m)
  {
    exists w :: w in ws && w.key == key && w.sha256 == digest && IsObjectOf(js, w, m, t)
  }

  /** The entry has the memory's metadata, and names its two files with the checksums they have. */
  predicate IsEntryOf(js: Platform, ws: seq<Write>, m: Memory, e: IndexEntry)
    requires IsEncodable(m)
  {
    && e.memoryId == m.memoryId && e.revisionId == m.revisionId && e.memoryVersion == m.memoryVersion
    && e.kind == m.kind && e.memoryClass == m.memoryClass && e.scope == m.scope && e.scopeId == m.scopeId
    && e.status == m.status && e.validFrom == m.validFrom && e.validUntil == m.validUntil
    && e.canonicalUri == MemoryUri(Segment(m.projectId).value, Segment(m.memoryId).value)
    && e.revisionUri == RevisionUri(Segment(m.projectId).value, Segment(m.memoryId).value, m.memoryVersion)
    && e.contentSha256 == js.sha256(m.content)
    && HasObject(js, ws, e.objectKey, e.objectSha256, m, HeadObject)
    && HasObject(js, ws, e.revisionKey, e.revisionSha256, m, RevisionObject)
  }

  predicate IsRevisionEntryOf(js: Platform, ws: seq<Write>, m: Memory, e: RevisionEntry)
    requires IsEncodable(m)
  {
    && e.memoryId == m.memoryId && e.revisionId == m.revisionId && e.memoryVersion == m.memoryVersion
    && e.validFrom == m.validFrom && e.validUntil == m.validUntil
    && e.revisionUri == RevisionUri(Segment(m.projectId).value, Segment(m.memoryId).value, m.memoryVersion)
    && e.contentSha256 == js.sha256(m.content)
    && HasObject(js, ws, e.revisionKey, e.revisionSha256, m, RevisionObject)
  }

  /** Entries in the order of their memories. */
  ghost predicate TellMemories(js: Platform, ws: seq<Write>, ms: seq<Memory>, entries: seq<IndexEntry>) {
    && |ms| == |entries|
    && forall i :: 0 <= i < |ms| ==> IsEncodable(ms[i]) && IsEntryOf(js, ws, ms[i], entries[i])
  }

  ghost predicate TellRevisions(js: Platform, ws: seq<Write>, ms: seq<Memory>, entries: seq<RevisionEntry>) {
    && |ms| == |entries|
    && forall i :: 0 <= i < |ms| ==> IsEncodable(ms[i]) && IsRevisionEntryOf(js, ws, ms[i], entries[i])
  }

  predicate IdsAscend(ms: seq<Memory>) {
    forall i, j :: 0 <= i < j < |ms| ==> CanonicalJson.Less(ms[i].memoryId, ms[j].memoryId)
  }

  // ----- Objects

  lemma {:induction false} ObjectIsOf(js: Platform, root: Root, m: Memory, t: ObjectType)
    requires IsEncodable(m)
    ensures var o := ObjectOf(js, m, t);
      IsObjectOf(js, WriteOf(js, root, Item(o.place, o.body, MarkdownContent)), m, t)
  {
    var fs := MemoryFields(m, Segment(m.projectId).value, Segment(m.memoryId).value);
    MemoryFieldsAreGood(m, Segment(m.projectId).value, Segment(m.memoryId).value);
    ObjectReadsBack(js.sha256, fs, t, m.content);
  }

  lemma {:induction false} ObjectIsHad(js: Platform, root: Root, ws: seq<Write>, m: Memory, t: ObjectType, of: Memory)
    requires IsEncodable(m) && IsEncodable(of) && Normalized(m) == Normalized(of)
    requires var o := ObjectOf(js, m, t); WriteOf(js, root, Item(o.place, o.body, MarkdownContent)) in ws
    ensures var o := ObjectOf(js, m, t); HasObject(js, ws, Key(root, o.place), js.sha256(o.body), of, t)
  {
    ObjectIsOf(js, root, m, t);
    SameFields(m, of);
  }

  /** All objects of the memories are in the plan. */
  ghost predicate AllWritten(js: Platform, root: Root, ws: seq<Write>, ms: seq<Memory>, t: ObjectType)
    requires AllEncodable(ms)
  {
    forall i :: 0 <= i < |ms| ==>
      var o := ObjectOf(js, ms[i], t); WriteOf(js, root, Item(o.place, o.body, MarkdownContent)) in ws
  }

  lemma {:induction false} ObjectsAreWritten(
    js: Platform, root: Root, items: seq<Item>, last: Item, ms: seq<Memory>, t: ObjectType)
    requires AllEncodable(ms) && Has(items, ObjectItems(ObjectsOf(js, ms, t)))
    ensures AllWritten(js, root, PlanWrites(js, root, items, last), ms, t)
  {
    var objects := ObjectItems(ObjectsOf(js, ms, t));
    forall i | 0 <= i < |ms|
      ensures var o := ObjectOf(js, ms[i], t);
        WriteOf(js, root, Item(o.place, o.body, MarkdownContent)) in PlanWrites(js, root, items, last)
    {
      assert objects[i] in objects;
      ItemIsWritten(js, root, items, last, objects[i]);
    }
  }

  // ----- Entries

  lemma {:induction false} EntryTells(
    js: Platform, root: Root, ws: seq<Write>, heads: seq<Memory>, revisions: seq<Memory>, i: nat)
    requires Agree(heads, revisions) && AllEncodable(heads) && AllEncodable(revisions) && AllFound(heads, revisions)
    requires AllWritten(js, root, ws, heads, HeadObject) && AllWritten(js, root, ws, revisions, RevisionObject)
    requires i < |heads|
    ensures IsEntryOf(js, ws, heads[i], IndexEntries(js, root, heads, revisions)[i])
  {
    var j := RevisionOfHead(heads, revisions, i);
    ObjectIsHad(js, root, ws, heads[i], HeadObject, heads[i]);
    ObjectIsHad(js, root, ws, revisions[j], RevisionObject, heads[i]);
    assert RevisionFor(js, heads[i], revisions) == ObjectOf(js, revisions[j], RevisionObject);
  }

  lemma {:induction false} RevisionEntryTells(
    js: Platform, root: Root, ws: seq<Write>, revisions: seq<Memory>, i: nat)
    requires DistinctRevisions(revisions) && AllEncodable(revisions) && AllFound(revisions, revisions)
    requires AllWritten(js, root, ws, revisions, RevisionObject) && i < |revisions|
    ensures IsRevisionEntryOf(js, ws, revisions[i], RevisionEntries(js, root, revisions)[i])
  {
    LastRevisionIsFound(revisions, i);
    ObjectIsHad(js, root, ws, revisions[i], RevisionObject, revisions[i]);
    assert RevisionFor(js, revisions[i], revisions) == ObjectOf(js, revisions[i], RevisionObject);
  }

  lemma {:induction false} IdLessIsTransitive(a: Memory, b: Memory, c: Memory)
    requires HeadLess()(a, b) && HeadLess()(b, c)
    ensures HeadLess()(a, c)
  {
    CanonicalJson.LessIsTransitive(a.memoryId, b.memoryId, c.memoryId);
  }

  lemma {:induction false} RevisionLessIsTransitive(a: Memory, b: Memory, c: Memory)
    requires RevisionLess()(a, b) && RevisionLess()(b, c)
    ensures RevisionLess()(a, c)
  {
    if CanonicalJson.Less(a.memoryId, b.memoryId) && CanonicalJson.Less(b.memoryId, c.memoryId) {
      CanonicalJson.LessIsTransitive(a.memoryId, b.memoryId, c.memoryId);
    } else if a.memoryId == b.memoryId == c.memoryId && a.memoryVersion == b.memoryVersion == c.memoryVersion
      && CanonicalJson.Less(a.revisionId, b.revisionId) && CanonicalJson.Less(b.revisionId, c.revisionId) {
      CanonicalJson.LessIsTransitive(a.revisionId, b.revisionId, c.revisionId);
    }
  }

  lemma {:induction false} HeadsAscend(ms: seq<Memory>)
    requires DistinctMemories(ms)
    ensures IdsAscend(Ordering.Sort(ms, HeadLess()))
  {
    var less := HeadLess();
    forall a, b, c | less(a, b) && less(b, c) ensures less(a, c) {
      IdLessIsTransitive(a, b, c);
    }
    forall i, j | 0 <= i < j < |ms| ensures less(ms[i], ms[j]) || less(ms[j], ms[i]) {
      CanonicalJson.LessIsTotal(ms[i].memoryId, ms[j].memoryId);
    }
    Ordering.SortSorts(ms, less);
    var sorted := Ordering.Sort(ms, less);
    forall i, j | 0 <= i < j < |sorted| ensures CanonicalJson.Less(sorted[i].memoryId, sorted[j].memoryId) {
      assert less(sorted[i], sorted[j]);
    }
  }

  lemma {:induction false} RevisionsAscend(ms: seq<Memory>)
    requires DistinctMemories(ms)
    ensures IdsAscend(Ordering.Sort(ms, RevisionLess()))
  {
    var less := RevisionLess();
    forall a, b, c | less(a, b) && less(b, c) ensures less(a, c) {
      RevisionLessIsTransitive(a, b, c);
    }
    forall i, j | 0 <= i < j < |ms| ensures less(ms[i], ms[j]) || less(ms[j], ms[i]) {
      CanonicalJson.LessIsTotal(ms[i].memoryId, ms[j].memoryId);
    }
    Ordering.SortSorts(ms, less);
    SnapshotKeys.SortedAreDistinct(ms, less);
    var sorted := Ordering.Sort(ms, less);
    forall i, j | 0 <= i < j < |sorted| ensures CanonicalJson.Less(sorted[i].memoryId, sorted[j].memoryId) {
      assert less(sorted[i], sorted[j]);
    }
  }

  // ----- The manifest

  /** The memories in the order of their identifiers; there is only one such order. */
  ghost predicate InOrderOf(ms: seq<Memory>, all: seq<Memory>) {
    IdsAscend(ms) && multiset(ms) == multiset(all)
  }

  lemma {:induction false} HasFirstTwo(a: seq<Item>, b: seq<Item>, c: seq<Item>, d: seq<Item>, e: seq<Item>)
    ensures Has(a + b + c + d + e, a) && Has(a + b + c + d + e, b)
  {
    forall item | item in a || item in b ensures item in a + b + c + d + e {
      assert item in a + b;
    }
  }

  lemma {:induction false} HasObjects(js: Platform, root: Root, input: Input)
    requires IsComplete(input)
    ensures var items := Items(js, root, input);
      && Has(items, ObjectItems(ObjectsOf(js, SortedHeads(input), HeadObject)))
      && Has(items, ObjectItems(ObjectsOf(js, SortedRevisions(input), RevisionObject)))
  {
    var heads, revisions, entries := SortedHeads(input), SortedRevisions(input), Entries(js, root, input);
    HasFirstTwo(ObjectItems(ObjectsOf(js, heads, HeadObject)), ObjectItems(ObjectsOf(js, revisions, RevisionObject)),
      [ReadmeItem(input, |heads|, |revisions|)], IndexItems(js, input, heads, entries),
      ScopeItems(js, input, heads, entries, SortedScopes(heads)));
  }

  lemma {:induction false} WritesTellMemories(js: Platform, root: Root, input: Input, last: Item)
    requires IsReady(root, input) && Agree(input.heads, input.revisions)
    ensures var ws := PlanWrites(js, root, Items(js, root, input), last);
      && TellMemories(js, ws, SortedHeads(input), Entries(js, root, input))
      && TellRevisions(js, ws, SortedRevisions(input), RevisionEntries(js, root, SortedRevisions(input)))
  {
    var items, heads, revisions := Items(js, root, input), SortedHeads(input), SortedRevisions(input);
    var ws := PlanWrites(js, root, items, last);
    SortedAgree(input);
    HasObjects(js, root, input);
    ObjectsAreWritten(js, root, items, last, heads, HeadObject);
    ObjectsAreWritten(js, root, items, last, revisions, RevisionObject);
    forall i | 0 <= i < |heads| ensures IsEntryOf(js, ws, heads[i], Entries(js, root, input)[i]) {
      EntryTells(js, root, ws, heads, revisions, i);
    }
    forall i | 0 <= i < |revisions|
      ensures IsRevisionEntryOf(js, ws, revisions[i], RevisionEntries(js, root, revisions)[i])
    {
      RevisionEntryTells(js, root, ws, revisions, i);
    }
  }

  /** The manifest has one entry for each head and each revision, by identifier, true in every field. */
  lemma {:induction false} ManifestTellsMemories(js: Platform, input: Input, d: Document)
    returns (heads: seq<Memory>, revisions: seq<Memory>)
    requires IsLawful(js) && IsBuildable(input)
    requires IsManifestOf(js, InputRoot(input), PlanOf(js, input).writes, d)
    ensures InOrderOf(heads, input.heads) && TellMemories(js, PlanOf(js, input).writes, heads, d.memories)
    ensures InOrderOf(revisions, input.revisions) && TellRevisions(js, PlanOf(js, input).writes, revisions, d.revisions)
    ensures d.schemaVersion == 1 && d.projectId == input.projectId && d.projectVersion == input.projectVersion
      && d.snapshotId == input.snapshotId
  {
    BuildableIsReady(input);
    RevisionsAreOfDistinctMemories(input.heads, input.revisions);
    var root, ws := InputRoot(input), PlanOf(js, input).writes;
    var items := Items(js, root, input);
    var files := SortedWrites(WritesOf(js, root, items));
    var built := ManifestOf(js, root, input, files);
    var last := ManifestItem(js, built);
    PlanIsPlan(js, root, input, files, last);
    ManifestIsRead(js, root, input, items, built);
    BuiltKeysDiffer(js, input);
    ManifestIsUnique(js, root, ws, d, built);
    heads, revisions := SortedHeads(input), SortedRevisions(input);
    HeadsAscend(input.heads);
    RevisionsAscend(input.revisions);
    Ordering.SortKeeps(input.heads, HeadLess());
    Ordering.SortKeeps(input.revisions, RevisionLess());
    WritesTellMemories(js, root, input, last);
  }
}
