/** The validator of snapshot plans: its checks as one predicate, and the method that collects its complaints. */
module SnapshotCheck {
  import opened Common
  import opened JsonText
  import opened ProjectionPaths
  import opened ProjectionEnvelope
  import opened SnapshotInput
  import opened SnapshotPlan
  import SnapshotKeys

  predicate HasKey(ws: seq<Write>, key: string) {
    exists i :: 0 <= i < |ws| && ws[i].key == key
  }

  predicate KeysAscend(ws: seq<Write>) {
    forall i :: 0 < i < |ws| ==> WriteLess()(ws[i - 1], ws[i])
  }

  predicate KeysDiffer(ws: seq<Write>) {
    forall i, j :: 0 <= i < j < |ws| ==> ws[i].key != ws[j].key
  }

  predicate StartsWith(s: string, prefix: string) {
    |prefix| <= |s| && s[..|prefix|] == prefix
  }

  predicate WriteIsSound(js: Platform, prefix: string, w: Write) {
    StartsWith(w.key, prefix) && js.sha256(w.body) == w.sha256
  }

  predicate WritesAreSound(js: Platform, prefix: string, ws: seq<Write>) {
    forall i :: 0 <= i < |ws| ==> WriteIsSound(js, prefix, ws[i])
  }

  function FirstWith(ws: seq<Write>, key: string): (r: Option<Write>)
    ensures r.Some? ==> r.value in ws && r.value.key == key
    ensures r.None? ==> !HasKey(ws, key)
  {
    if ws == [] then None
    else if ws[0].key == key then Some(ws[0])
    else
      var r := FirstWith(ws[1..], key);
      assert r.Some? ==> r.value in ws;
      r
  }

  // ----- References of the manifest

  predicate HasRevisionEntry(e: IndexEntry, revisions: seq<RevisionEntry>) {
    exists i :: 0 <= i < |revisions| && revisions[i].memoryId == e.memoryId
      && revisions[i].revisionId == e.revisionId && revisions[i].revisionKey == e.revisionKey
  }

  predicate EntryIsSound(ws: seq<Write>, e: IndexEntry, revisions: seq<RevisionEntry>) {
    HasKey(ws, e.objectKey) && HasKey(ws, e.revisionKey) && HasRevisionEntry(e, revisions)
  }

  predicate MemoriesAreSound(ws: seq<Write>, memories: seq<IndexEntry>, revisions: seq<RevisionEntry>) {
    && (forall i :: 0 <= i < |memories| ==> EntryIsSound(ws, memories[i], revisions))
    && (forall i, j :: 0 <= i < j < |memories| ==> memories[i].memoryId != memories[j].memoryId)
  }

  predicate RevisionsAreSound(ws: seq<Write>, revisions: seq<RevisionEntry>) {
    && (forall i :: 0 <= i < |revisions| ==> HasKey(ws, revisions[i].revisionKey))
    && (forall i, j :: 0 <= i < j < |revisions| ==> revisions[i].revisionId != revisions[j].revisionId)
  }

  // ----- Required indexes

  predicate HasIndex(ws: seq<Write>, root: Root, directory: string, value: string, file: string) {
    HasKey(ws, Key(root, Index(directory, value, file)))
  }

  predicate HasDualIndex(ws: seq<Write>, root: Root, directory: string, name: string) {
    HasIndex(ws, root, directory, name, "index.json") && HasIndex(ws, root, directory, name, "index.md")
  }

  predicate HasDualIndexes(ws: seq<Write>, root: Root, directory: string, names: seq<string>) {
    forall i :: 0 <= i < |names| ==> HasDualIndex(ws, root, directory, names[i])
  }

  predicate HasStatusIndexes(ws: seq<Write>, root: Root) {
    forall i :: 0 <= i < |STATUSES| ==> HasIndex(ws, root, "by-status", STATUSES[i], "index.json")
  }

  predicate HasScopeIndex(ws: seq<Write>, root: Root, scope: Text) {
    HasScopeKey(root, scope) && HasKey(ws, Key(root, ScopePlace(scope)))
  }

  predicate HasScopeIndexes(ws: seq<Write>, root: Root, memories: seq<IndexEntry>) {
    forall i :: 0 <= i < |memories| ==> HasScopeIndex(ws, root, memories[i].scopeId)
  }

  predicate HasRequiredIndexes(ws: seq<Write>, root: Root, memories: seq<IndexEntry>) {
    && HasDualIndexes(ws, root, "by-kind", KINDS) && HasDualIndexes(ws, root, "by-class", CLASSES)
    && HasStatusIndexes(ws, root) && HasScopeIndexes(ws, root, memories)
  }

  // ----- Manifest and objects

  predicate SameIdentity(d: Document, plan: Plan) {
    && d.schemaVersion == 1 && d.projectId == plan.projectId && d.projectVersion == plan.projectVersion
    && d.snapshotId == plan.snapshotId
  }

  predicate ManifestIsSound(plan: Plan, root: Root, d: Document) {
    && d.ManifestDocument?
    && SameIdentity(d, plan)
    && d.files == FilesOf(SnapshotKeys.Others(plan.writes, plan.manifestKey))
    && HasKey(plan.writes, Key(root, Readme))
    && |d.memories| == |d.revisions|
    && MemoriesAreSound(plan.writes, d.memories, d.revisions)
    && RevisionsAreSound(plan.writes, d.revisions)
    && HasRequiredIndexes(plan.writes, root, d.memories)
  }

  /** Objects are told by their key. */
  predicate LooksLikeObject(key: string) {
    Includes(key, "objects") || Includes(key, "revisions")
  }

  predicate ObjectsAreSound(js: Platform, ws: seq<Write>) {
    forall i :: 0 <= i < |ws| && LooksLikeObject(ws[i].key) ==> EnvelopeIsValid(js.sha256, ws[i].body)
  }

  predicate PlanHasManifest(js: Platform, plan: Plan, root: Root) {
    var manifest := FirstWith(plan.writes, Key(root, Manifest));
    && plan.manifestKey == Key(root, Manifest)
    && manifest.Some?
    && plan.manifestSha256 == manifest.value.sha256
    && js.parse(manifest.value.body).Some?
    && ManifestIsSound(plan, root, js.parse(manifest.value.body).value)
  }

  /** No complaint of `validateProjectionSnapshotPlan`. */
  predicate PlanIsValid(js: Platform, plan: Plan) {
    && Segment(plan.projectId).Some? && Segment(plan.snapshotId).Some?
    && var root := Root(Segment(plan.projectId).value, Segment(plan.snapshotId).value);
    && plan.prefix == Prefix(root)
    && KeysAscend(plan.writes) && KeysDiffer(plan.writes)
    && WritesAreSound(js, Prefix(root), plan.writes)
    && PlanHasManifest(js, plan, root)
    && ObjectsAreSound(js, plan.writes)
  }

  // ----- The validator

  type Complaints = seq<string>

  function Unless(ok: bool, complaint: string): (r: Complaints)
    ensures r == [] <==> ok
  {
    if ok then [] else [complaint]
  }

  method CheckWrites(js: Platform, prefix: string, ws: seq<Write>) returns (errors: Complaints)
    ensures errors == [] <==> KeysAscend(ws) && KeysDiffer(ws) && WritesAreSound(js, prefix, ws)
  {
    errors := Unless(KeysAscend(ws), "Projection writes are not sorted by key.");
    errors := errors + Unless(KeysDiffer(ws), "Projection write keys are not unique.");
    var i := 0;
    while i < |ws|
      invariant 0 <= i <= |ws|
      invariant errors == [] <==> KeysAscend(ws) && KeysDiffer(ws) && WritesAreSound(js, prefix, ws[..i])
    {
      assert WritesAreSound(js, prefix, ws[..i + 1]) <==>
        WritesAreSound(js, prefix, ws[..i]) && WriteIsSound(js, prefix, ws[i]) by {
        assert ws[..i + 1] == ws[..i] + [ws[i]];
      }
      errors := errors
        + Unless(StartsWith(ws[i].key, prefix), "Write is outside the snapshot prefix: " + ws[i].key)
        + Unless(js.sha256(ws[i].body) == ws[i].sha256, "Checksum mismatch: " + ws[i].key);
      i := i + 1;
    }
    assert ws[..i] == ws;
  }

  /** One complaint for each thing that is not right. */
  method CheckEach<T>(xs: seq<T>, ok: T -> bool, complaint: string) returns (errors: Complaints)
    ensures errors == [] <==> forall i :: 0 <= i < |xs| ==> ok(xs[i])
  {
    errors := [];
    var i := 0;
    while i < |xs|
      invariant 0 <= i <= |xs|
      invariant errors == [] <==> forall k :: 0 <= k < i ==> ok(xs[k])
    {
      errors := errors + Unless(ok(xs[i]), complaint);
      i := i + 1;
    }
  }

  /** Entries of the manifest: each is right, and no identifier comes twice. */
  method CheckEntries<T>(xs: seq<T>, ok: T -> bool, id: T -> Text, wrong: string, twice: string)
    returns (errors: Complaints)
    ensures errors == [] <==>
      (forall i :: 0 <= i < |xs| ==> ok(xs[i])) && (forall i, j :: 0 <= i < j < |xs| ==> id(xs[i]) != id(xs[j]))
  {
    errors := [];
    var ids: set<Text> := {};
    var i := 0;
    while i < |xs|
      invariant 0 <= i <= |xs|
      invariant forall x :: x in ids <==> exists k :: 0 <= k < i && id(xs[k]) == x
      invariant errors == [] <==>
        (forall k :: 0 <= k < i ==> ok(xs[k])) && (forall j, k :: 0 <= j < k < i ==> id(xs[j]) != id(xs[k]))
    {
      errors := errors + Unless(ok(xs[i]), wrong) + Unless(id(xs[i]) !in ids, twice);
      ids := ids + {id(xs[i])};
      i := i + 1;
    }
  }

  method CheckMemories(ws: seq<Write>, memories: seq<IndexEntry>, revisions: seq<RevisionEntry>)
    returns (errors: Complaints)
    ensures errors == [] <==> MemoriesAreSound(ws, memories, revisions)
  {
    var sound := (e: IndexEntry) => EntryIsSound(ws, e, revisions);
    var id := (e: IndexEntry) => e.memoryId;
    errors := CheckEntries(memories, sound, id,
      "Manifest memory entry references a missing object.", "Manifest contains a duplicate memory entry.");
    assert MemoriesAreSound(ws, memories, revisions) <==>
      && (forall i :: 0 <= i < |memories| ==> sound(memories[i]))
      && (forall i, j :: 0 <= i < j < |memories| ==> id(memories[i]) != id(memories[j]));
  }

  method CheckRevisions(ws: seq<Write>, revisions: seq<RevisionEntry>) returns (errors: Complaints)
    ensures errors == [] <==> RevisionsAreSound(ws, revisions)
  {
    var sound := (e: RevisionEntry) => HasKey(ws, e.revisionKey);
    var id := (e: RevisionEntry) => e.revisionId;
    errors := CheckEntries(revisions, sound, id,
      "Manifest revision entry references a missing object.", "Manifest contains a duplicate revision entry.");
    assert RevisionsAreSound(ws, revisions) <==>
      && (forall i :: 0 <= i < |revisions| ==> sound(revisions[i]))
      && (forall i, j :: 0 <= i < j < |revisions| ==> id(revisions[i]) != id(revisions[j]));
  }

  const MISSING_INDEX: string := "Required projection index is missing."

  method CheckIndexes(ws: seq<Write>, root: Root, memories: seq<IndexEntry>) returns (errors: Complaints)
    ensures errors == [] <==> HasRequiredIndexes(ws, root, memories)
  {
    var kind := (name: string) => HasDualIndex(ws, root, "by-kind", name);
    var class_ := (name: string) => HasDualIndex(ws, root, "by-class", name);
    var status := (name: string) => HasIndex(ws, root, "by-status", name, "index.json");
    var scope := (e: IndexEntry) => HasScopeIndex(ws, root, e.scopeId);
    var kinds := CheckEach(KINDS, kind, MISSING_INDEX);
    var classes := CheckEach(CLASSES, class_, MISSING_INDEX);
    var statuses := CheckEach(STATUSES, status, MISSING_INDEX);
    var scopes := CheckEach(memories, scope, MISSING_INDEX);
    assert HasDualIndexes(ws, root, "by-kind", KINDS) <==> forall i :: 0 <= i < |KINDS| ==> kind(KINDS[i]);
    assert HasDualIndexes(ws, root, "by-class", CLASSES) <==> forall i :: 0 <= i < |CLASSES| ==> class_(CLASSES[i]);
    assert HasStatusIndexes(ws, root) <==> forall i :: 0 <= i < |STATUSES| ==> status(STATUSES[i]);
    assert HasScopeIndexes(ws, root, memories) <==> forall i :: 0 <= i < |memories| ==> scope(memories[i]);
    errors := kinds + classes + statuses + scopes;
  }

  method CheckManifest(plan: Plan, root: Root, d: Document) returns (errors: Complaints)
    ensures errors == [] <==> ManifestIsSound(plan, root, d)
  {
    errors := Unless(SameIdentity(d, plan), "Manifest identity does not match the projection plan.");
    errors := errors + Unless(HasKey(plan.writes, Key(root, Readme)), "Projection README is missing.");
    if !d.ManifestDocument? {
      return errors + ["Manifest file inventory does not match the write plan."];
    }
    var same := d.files == FilesOf(SnapshotKeys.Others(plan.writes, plan.manifestKey));
    errors := errors + Unless(same, "Manifest file inventory does not match the write plan.");
    errors := errors + Unless(|d.memories| == |d.revisions|,
      "Manifest must contain exactly one current revision per memory.");
    var memories := CheckMemories(plan.writes, d.memories, d.revisions);
    var revisions := CheckRevisions(plan.writes, d.revisions);
    var indexes := CheckIndexes(plan.writes, root, d.memories);
    errors := errors + memories + revisions + indexes;
  }

  method CheckObjects(js: Platform, ws: seq<Write>) returns (errors: Complaints)
    ensures errors == [] <==> ObjectsAreSound(js, ws)
  {
    var sound := (w: Write) => LooksLikeObject(w.key) ==> EnvelopeIsValid(js.sha256, w.body);
    errors := CheckEach(ws, sound, "Invalid Markdown envelope.");
    assert ObjectsAreSound(js, ws) <==> forall i :: 0 <= i < |ws| ==> sound(ws[i]);
  }

  method CheckManifestWrite(js: Platform, plan: Plan, root: Root) returns (errors: Complaints)
    ensures errors == [] <==> PlanHasManifest(js, plan, root)
  {
    errors := Unless(plan.manifestKey == Key(root, Manifest), "Manifest key does not match the snapshot prefix.");
    var manifest := FirstWith(plan.writes, Key(root, Manifest));
    if manifest.None? {
      return errors + ["Manifest write is missing."];
    }
    errors := errors
      + Unless(plan.manifestSha256 == manifest.value.sha256, "Manifest checksum does not match the manifest write.");
    var d := js.parse(manifest.value.body);
    if d.None? {
      return errors + ["Manifest body is not valid JSON."];
    }
    var found := CheckManifest(plan, root, d.value);
    errors := errors + found;
  }

  /** `validateProjectionSnapshotPlan` complains exactly about plans that are not valid. */
  method ValidatePlan(js: Platform, plan: Plan) returns (errors: Complaints)
    ensures errors == [] <==> PlanIsValid(js, plan)
  {
    if Segment(plan.projectId).None? || Segment(plan.snapshotId).None? {
      return ["Invalid projection plan identifiers."];
    }
    var root := Root(Segment(plan.projectId).value, Segment(plan.snapshotId).value);
    errors := Unless(plan.prefix == Prefix(root), "Projection prefix does not match the plan identifiers.");
    var writes := CheckWrites(js, Prefix(root), plan.writes);
    var manifest := CheckManifestWrite(js, plan, root);
    var objects := CheckObjects(js, plan.writes);
    errors := errors + writes + manifest + objects;
  }
}
