/** The write plan of a snapshot: an object for each head and revision, indexes, and a manifest of all files. */
module SnapshotPlan {
  import opened Common
  import opened JsonText
  import opened ProjectionPaths
  import opened ProjectionEnvelope
  import opened SnapshotInput
  import CanonicalJson
  import Decimal
  import Ordering

  /** A file of the plan, by its place; its key and checksum follow. */
  datatype Item = Item(place: Place, body: Text, contentType: ContentType)

  // ----- Objects and entries

  function HeadLess(): (Memory, Memory) -> bool {
    (a: Memory, b: Memory) => CanonicalJson.Less(a.memoryId, b.memoryId)
  }

  function RevisionLess(): (Memory, Memory) -> bool {
    (a: Memory, b: Memory) =>
      || CanonicalJson.Less(a.memoryId, b.memoryId)
      || (a.memoryId == b.memoryId
        && (a.memoryVersion < b.memoryVersion
          || (a.memoryVersion == b.memoryVersion && CanonicalJson.Less(a.revisionId, b.revisionId))))
  }

  function SortedHeads(input: Input): seq<Memory> {
    Ordering.Sort(input.heads, HeadLess())
  }

  function SortedRevisions(input: Input): seq<Memory> {
    Ordering.Sort(input.revisions, RevisionLess())
  }

  predicate IsEncodable(m: Memory) {
    && ValidMemory(m) && Segment(m.projectId).Some? && Segment(m.snapshotId).Some?
    && Segment(m.memoryId).Some? && Segment(m.revisionId).Some?
  }

  predicate AllEncodable(ms: seq<Memory>) {
    forall i :: 0 <= i < |ms| ==> IsEncodable(ms[i])
  }

  function ObjectOf(js: Platform, m: Memory, t: ObjectType): MemoryWrite
    requires IsEncodable(m)
  {
    BuildObject(js.sha256, m, t).value
  }

  function ObjectsOf(js: Platform, ms: seq<Memory>, t: ObjectType): (r: seq<MemoryWrite>)
    requires AllEncodable(ms)
    ensures |r| == |ms|
  {
    seq(|ms|, i requires 0 <= i < |ms| => ObjectOf(js, ms[i], t))
  }

  /** The entry a map built from the list would hold: the last one of the identifier. */
  function LastRevision(revisions: seq<Memory>, id: Text): (r: Option<nat>)
    ensures r.Some? ==> r.value < |revisions| && revisions[r.value].revisionId == id
  {
    if revisions == [] then None
    else if revisions[|revisions| - 1].revisionId == id then Some(|revisions| - 1)
    else LastRevision(revisions[..|revisions| - 1], id)
  }

  function IndexEntryOf(js: Platform, root: Root, m: Memory, head: MemoryWrite, revision: MemoryWrite): IndexEntry
    requires IsEncodable(m)
  {
    var project, memory := Segment(m.projectId).value, Segment(m.memoryId).value;
    IndexEntry(
      m.memoryId, m.revisionId, m.memoryVersion, m.kind, m.memoryClass, m.scope, m.scopeId, m.status,
      m.validFrom, m.validUntil,
      MemoryUri(project, memory), RevisionUri(project, memory, m.memoryVersion),
      Key(root, head.place), Key(root, revision.place),
      head.contentSha256, js.sha256(head.body), js.sha256(revision.body))
  }

  function RevisionEntryOf(js: Platform, root: Root, m: Memory, revision: MemoryWrite): RevisionEntry
    requires IsEncodable(m)
  {
    var project, memory := Segment(m.projectId).value, Segment(m.memoryId).value;
    RevisionEntry(
      m.memoryId, m.revisionId, m.memoryVersion, m.validFrom, m.validUntil,
      RevisionUri(project, memory, m.memoryVersion), Key(root, revision.place),
      revision.contentSha256, js.sha256(revision.body))
  }

  predicate AllFound(ms: seq<Memory>, revisions: seq<Memory>) {
    forall i :: 0 <= i < |ms| ==> LastRevision(revisions, ms[i].revisionId).Some?
  }

  /** The revision of a memory as the map of written revisions gives it. */
  function RevisionFor(js: Platform, m: Memory, revisions: seq<Memory>): MemoryWrite
    requires AllEncodable(revisions) && LastRevision(revisions, m.revisionId).Some?
  {
    ObjectsOf(js, revisions, RevisionObject)[LastRevision(revisions, m.revisionId).value]
  }

  function IndexEntries(js: Platform, root: Root, heads: seq<Memory>, revisions: seq<Memory>): (r: seq<IndexEntry>)
    requires AllEncodable(heads) && AllEncodable(revisions) && AllFound(heads, revisions)
    ensures |r| == |heads|
  {
    seq(|heads|, i requires 0 <= i < |heads| =>
      IndexEntryOf(js, root, heads[i], ObjectOf(js, heads[i], HeadObject), RevisionFor(js, heads[i], revisions)))
  }

  function RevisionEntries(js: Platform, root: Root, revisions: seq<Memory>): (r: seq<RevisionEntry>)
    requires AllEncodable(revisions) && AllFound(revisions, revisions)
    ensures |r| == |revisions|
  {
    seq(|revisions|, i requires 0 <= i < |revisions| =>
      RevisionEntryOf(js, root, revisions[i], RevisionFor(js, revisions[i], revisions)))
  }

  // ----- Texts

  function JoinLines(lines: seq<Text>): Text {
    if lines == [] then [] else if |lines| == 1 then lines[0] else lines[0] + [NEWLINE] + JoinLines(lines[1..])
  }

  /** A bar is escaped and a line break becomes a blank. */
  function TableCell(s: Text): Text {
    if s == [] then []
    else (if s[0] == 0x7C then [BACKSLASH, 0x7C] else if s[0] == NEWLINE then [0x20] else [s[0]]) + TableCell(s[1..])
  }

  function Coded(before: string, s: Text): Text {
    Lit(before) + Lit("`") + s + Lit("`")
  }

  function Number(n: int): Text {
    Lit(Decimal.Print(if n >= 0 then n else 0))
  }

  function EntryRow(e: IndexEntry): Text {
    Lit("| ") + TableCell(e.memoryId) + Lit(" | ") + Number(e.memoryVersion) + Lit(" | ") + Lit(e.status)
      + Lit(" | ") + Lit(e.canonicalUri) + Lit(" |")
  }

  function EntryRows(entries: seq<IndexEntry>): seq<Text> {
    if entries == [] then [Lit("_No memories._")]
    else
      [Lit("| Memory | Version | Status | Canonical URI |"), Lit("| --- | ---: | --- | --- |")]
        + seq(|entries|, i requires 0 <= i < |entries| => EntryRow(entries[i]))
  }

  const HASH: Unit := 0x23

  function MarkdownIndex(input: Input, dimension: string, value: string, entries: seq<IndexEntry>): Text {
    [HASH] + Lit(" Memories by ") + Lit(dimension) + Lit(": ") + Lit(value) + [NEWLINE]
      + JoinLines([
          [],
          Coded("Project: ", input.projectId),
          [],
          Coded("Project version: ", Number(input.projectVersion)),
          []]
        + EntryRows(entries) + [[]])
  }

  function IndexLinks(dimension: string, names: seq<string>): seq<Text> {
    seq(|names|, i requires 0 <= i < |names| =>
      Lit("- [" + names[i] + "](indexes/by-" + dimension + "/" + names[i] + "/index.md)"))
  }

  function ReadmeText(input: Input, memories: nat, revisions: nat): Text {
    [HASH] + Lit(" EdgeMneme Projection") + [NEWLINE]
      + JoinLines([
          [],
          Coded("Project: ", input.projectId),
          [],
          Coded("Project version: ", Number(input.projectVersion)),
          [],
          Coded("Snapshot: ", input.snapshotId),
          [],
          Coded("Canonical memories: ", Number(memories)),
          [],
          Coded("Current revisions: ", Number(revisions)),
          [],
          [HASH, HASH] + Lit(" Kinds"),
          []]
        + IndexLinks("kind", KINDS)
        + [[], [HASH, HASH] + Lit(" Classes"), []]
        + IndexLinks("class", CLASSES) + [[]])
  }

  /** `stableJson` */
  function DocumentText(js: Platform, d: Document): Text {
    js.stringify(d) + [NEWLINE]
  }

  // ----- Items, in the order in which they are pushed

  function ObjectItems(objects: seq<MemoryWrite>): (r: seq<Item>)
    ensures |r| == |objects|
  {
    seq(|objects|, i requires 0 <= i < |objects| => Item(objects[i].place, objects[i].body, MarkdownContent))
  }

  datatype Dimension = Kind | Class | Status

  function Property(m: Memory, d: Dimension): string {
    match d
    case Kind => m.kind
    case Class => m.memoryClass
    case Status => m.status
  }

  function DimensionName(d: Dimension): string {
    match d
    case Kind => "kind"
    case Class => "class"
    case Status => "status"
  }

  function Directory(d: Dimension): string {
    match d
    case Kind => "by-kind"
    case Class => "by-class"
    case Status => "by-status"
  }

  /** The entries whose memory has the property, in order. */
  function EntriesWith(heads: seq<Memory>, entries: seq<IndexEntry>, has: Memory -> bool): seq<IndexEntry>
    requires |heads| == |entries|
  {
    if heads == [] then []
    else
      var n := |heads| - 1;
      EntriesWith(heads[..n], entries[..n], has) + if has(heads[n]) then [entries[n]] else []
  }

  function JsonIndex(js: Platform, input: Input, dimension: string, value: Text, entries: seq<IndexEntry>): Text {
    DocumentText(js, IndexDocument(1, input.projectId, input.projectVersion, input.snapshotId, dimension, value,
      entries))
  }

  function JsonItem(
    js: Platform, input: Input, heads: seq<Memory>, entries: seq<IndexEntry>, d: Dimension, value: string): Item
    requires |heads| == |entries|
  {
    var some := EntriesWith(heads, entries, (m: Memory) => Property(m, d) == value);
    Item(Index(Directory(d), value, "index.json"), JsonIndex(js, input, DimensionName(d), Lit(value), some),
      JsonContent)
  }

  function MarkdownItem(
    input: Input, heads: seq<Memory>, entries: seq<IndexEntry>, d: Dimension, value: string): Item
    requires |heads| == |entries|
  {
    var some := EntriesWith(heads, entries, (m: Memory) => Property(m, d) == value);
    Item(Index(Directory(d), value, "index.md"), MarkdownIndex(input, DimensionName(d), value, some), MarkdownContent)
  }

  function Each<T>(xs: seq<T>, item: T -> Item): (r: seq<Item>)
    ensures |r| == |xs|
  {
    seq(|xs|, i requires 0 <= i < |xs| => item(xs[i]))
  }

  /** Two items for each name, one after the other. */
  function Pairs(names: seq<string>, item: (string, bool) -> Item): (r: seq<Item>)
    ensures |r| == 2 * |names|
  {
    seq(2 * |names|, i requires 0 <= i < 2 * |names| => item(names[i / 2], i % 2 == 0))
  }

  function DualItem(
    js: Platform, input: Input, heads: seq<Memory>, entries: seq<IndexEntry>, d: Dimension, value: string,
      json: bool): Item
    requires |heads| == |entries|
  {
    if json then JsonItem(js, input, heads, entries, d, value) else MarkdownItem(input, heads, entries, d, value)
  }

  /** For each name, an index in JSON and one in Markdown. */
  function DualItems(
    js: Platform, input: Input, heads: seq<Memory>, entries: seq<IndexEntry>, d: Dimension,
      names: seq<string>): (r: seq<Item>)
    requires |heads| == |entries|
    ensures |r| == 2 * |names|
  {
    Pairs(names, (value: string, json: bool) => DualItem(js, input, heads, entries, d, value, json))
  }

  function StatusItems(js: Platform, input: Input, heads: seq<Memory>, entries: seq<IndexEntry>): (r: seq<Item>)
    requires |heads| == |entries|
    ensures |r| == |STATUSES|
  {
    Each(STATUSES, (value: string) => JsonItem(js, input, heads, entries, Status, value))
  }

  function ScopesOf(ms: seq<Memory>): (r: seq<Text>)
    ensures |r| == |ms|
  {
    seq(|ms|, i requires 0 <= i < |ms| => ms[i].scopeId)
  }

  function SortedScopes(heads: seq<Memory>): seq<Text> {
    Ordering.Sort(Distinct(ScopesOf(heads)), TextLess())
  }

  const MAX_KEY_BYTES: nat := 1024

  /**
   `projectionScopeIndexKey` fails for a scope that cannot be encoded or whose key is too long for the object store.
   */
  predicate HasScopeKey(root: Root, scope: Text) {
    Segment(scope).Some? && |Key(root, ScopePlace(scope))| <= MAX_KEY_BYTES
  }

  function ScopePlace(scope: Text): Place {
    Index("by-scope", if Segment(scope).Some? then Segment(scope).value else "", "index.json")
  }

  function ScopeItem(js: Platform, input: Input, heads: seq<Memory>, entries: seq<IndexEntry>, scope: Text): Item
    requires |heads| == |entries|
  {
    var some := EntriesWith(heads, entries, (m: Memory) => m.scopeId == scope);
    Item(ScopePlace(scope), JsonIndex(js, input, "scope", scope, some), JsonContent)
  }

  function ScopeItems(
    js: Platform, input: Input, heads: seq<Memory>, entries: seq<IndexEntry>, scopes: seq<Text>): (r: seq<Item>)
    requires |heads| == |entries|
    ensures |r| == |scopes|
  {
    Each(scopes, (scope: Text) => ScopeItem(js, input, heads, entries, scope))
  }

  function ReadmeItem(input: Input, memories: nat, revisions: nat): Item {
    Item(Readme, ReadmeText(input, memories, revisions), MarkdownContent)
  }

  function IndexItems(js: Platform, input: Input, heads: seq<Memory>, entries: seq<IndexEntry>): seq<Item>
    requires |heads| == |entries|
  {
    DualItems(js, input, heads, entries, Kind, KINDS) + DualItems(js, input, heads, entries, Class, CLASSES)
      + StatusItems(js, input, heads, entries)
  }

  // ----- Writes

  function WriteOf(js: Platform, root: Root, item: Item): Write {
    Write(Key(root, item.place), item.body, js.sha256(item.body), item.contentType)
  }

  function WritesOf(js: Platform, root: Root, items: seq<Item>): (r: seq<Write>)
    ensures |r| == |items|
    ensures forall i :: 0 <= i < |items| ==> r[i] == WriteOf(js, root, items[i])
  {
    seq(|items|, i requires 0 <= i < |items| => WriteOf(js, root, items[i]))
  }

  function WriteLess(): (Write, Write) -> bool {
    (a: Write, b: Write) => CanonicalJson.Less(Lit(a.key), Lit(b.key))
  }

  /** The length of a text in UTF-8, a lone surrogate being replaced. */
  function Utf8Length(s: Text, i: nat): nat
    requires i <= |s|
    decreases |s| - i
  {
    if i == |s| then 0
    else if PointLength(s, i) == 2 then 4 + Utf8Length(s, i + 2)
    else (if s[i] < 0x80 then 1 else if s[i] < 0x800 then 2 else 3) + Utf8Length(s, i + 1)
  }

  function FileOf(w: Write): ManifestFile {
    ManifestFile(w.key, w.sha256, w.contentType, Utf8Length(w.body, 0))
  }

  function FilesOf(ws: seq<Write>): (r: seq<ManifestFile>)
    ensures |r| == |ws|
  {
    seq(|ws|, i requires 0 <= i < |ws| => FileOf(ws[i]))
  }

  // ----- The plan

  /** All that a caller must provide; everything else the builder throws cannot happen. */
  predicate IsBuildable(input: Input) {
    && ValidInput(input)
    && AllEncodable(input.heads) && AllEncodable(input.revisions)
    && forall i :: 0 <= i < |input.heads| ==> HasScopeKey(InputRoot(input), input.heads[i].scopeId)
  }

  function InputRoot(input: Input): Root
    requires Segment(input.projectId).Some? && Segment(input.snapshotId).Some?
  {
    Root(Segment(input.projectId).value, Segment(input.snapshotId).value)
  }

  lemma {:induction false} LastRevisionIsFound(revisions: seq<Memory>, i: nat)
    requires i < |revisions|
    ensures LastRevision(revisions, revisions[i].revisionId).Some?
    ensures DistinctRevisions(revisions) ==> LastRevision(revisions, revisions[i].revisionId) == Some(i)
  {
    if revisions[|revisions| - 1].revisionId != revisions[i].revisionId {
      LastRevisionIsFound(revisions[..|revisions| - 1], i);
    }
  }

  lemma {:induction false} AllOfSorted(ms: seq<Memory>, less: (Memory, Memory) -> bool)
    requires AllEncodable(ms)
    ensures AllEncodable(Ordering.Sort(ms, less))
  {
    Ordering.SortHas(ms, less);
    var sorted := Ordering.Sort(ms, less);
    forall i | 0 <= i < |sorted| ensures IsEncodable(sorted[i]) {
      assert sorted[i] in ms;
    }
  }

  lemma {:induction false} RevisionsAreFound(ms: seq<Memory>, revisions: seq<Memory>, sorted: seq<Memory>)
    requires forall m :: m in sorted <==> m in revisions
    requires forall m :: m in ms ==> exists i :: 0 <= i < |revisions| && revisions[i].revisionId == m.revisionId
    ensures AllFound(ms, sorted)
  {
    forall k | 0 <= k < |ms| ensures LastRevision(sorted, ms[k].revisionId).Some? {
      assert ms[k] in ms;
      var i :| 0 <= i < |revisions| && revisions[i].revisionId == ms[k].revisionId;
      assert revisions[i] in sorted;
      var j :| 0 <= j < |sorted| && sorted[j] == revisions[i];
      LastRevisionIsFound(sorted, j);
    }
  }

  lemma {:induction false} HeadsHaveRevisions(input: Input)
    requires AllHaveRevision(input.heads, input.revisions)
    ensures forall m :: m in SortedHeads(input) ==>
      exists i :: 0 <= i < |input.revisions| && input.revisions[i].revisionId == m.revisionId
  {
    Ordering.SortHas(input.heads, HeadLess());
    forall m | m in SortedHeads(input)
      ensures exists i :: 0 <= i < |input.revisions| && input.revisions[i].revisionId == m.revisionId
    {
      var k :| 0 <= k < |input.heads| && input.heads[k] == m;
      assert HasRevision(input.heads[k], input.revisions);
    }
  }

  /** Nothing the builder looks up is missing. */
  predicate IsComplete(input: Input) {
    && AllEncodable(SortedHeads(input)) && AllEncodable(SortedRevisions(input))
    && AllFound(SortedHeads(input), SortedRevisions(input)) && AllFound(SortedRevisions(input), SortedRevisions(input))
  }

  lemma {:induction false} EverythingIsFound(input: Input)
    requires AllHaveRevision(input.heads, input.revisions) && AllEncodable(input.heads) && AllEncodable(input.revisions)
    ensures IsComplete(input)
  {
    AllOfSorted(input.heads, HeadLess());
    AllOfSorted(input.revisions, RevisionLess());
    Ordering.SortHas(input.revisions, RevisionLess());
    HeadsHaveRevisions(input);
    RevisionsAreFound(SortedHeads(input), input.revisions, SortedRevisions(input));
    forall m | m in SortedRevisions(input)
      ensures exists i :: 0 <= i < |input.revisions| && input.revisions[i].revisionId == m.revisionId
    {
      assert m in input.revisions;
    }
    RevisionsAreFound(SortedRevisions(input), input.revisions, SortedRevisions(input));
  }

  function Entries(js: Platform, root: Root, input: Input): (r: seq<IndexEntry>)
    requires IsComplete(input)
    ensures |r| == |input.heads|
  {
    IndexEntries(js, root, SortedHeads(input), SortedRevisions(input))
  }

  function Items(js: Platform, root: Root, input: Input): seq<Item>
    requires IsComplete(input)
  {
    var heads, revisions, entries := SortedHeads(input), SortedRevisions(input), Entries(js, root, input);
    ObjectItems(ObjectsOf(js, heads, HeadObject)) + ObjectItems(ObjectsOf(js, revisions, RevisionObject))
      + [ReadmeItem(input, |heads|, |revisions|)]
      + IndexItems(js, input, heads, entries)
      + ScopeItems(js, input, heads, entries, SortedScopes(heads))
  }

  function SortedWrites(ws: seq<Write>): (r: seq<Write>)
    ensures |r| == |ws|
  {
    Ordering.Sort(ws, WriteLess())
  }

  function ManifestOf(js: Platform, root: Root, input: Input, files: seq<Write>): Document
    requires IsComplete(input)
  {
    ManifestDocument(
      1, input.projectId, input.projectVersion, input.snapshotId,
      Entries(js, root, input), RevisionEntries(js, root, SortedRevisions(input)), FilesOf(files))
  }

  function ManifestItem(js: Platform, d: Document): Item {
    Item(Manifest, DocumentText(js, d), JsonContent)
  }

  function PlanFrom(js: Platform, root: Root, input: Input, files: seq<Write>): Plan
    requires IsComplete(input)
  {
    var manifest := WriteOf(js, root, ManifestItem(js, ManifestOf(js, root, input, files)));
    Plan(
      input.projectId, input.projectVersion, input.snapshotId, Prefix(root),
      manifest.key, manifest.sha256, SortedWrites(files + [manifest]))
  }

  function PlanOf(js: Platform, input: Input): Plan
    requires IsBuildable(input)
  {
    EverythingIsFound(input);
    var root := InputRoot(input);
    PlanFrom(js, root, input, SortedWrites(WritesOf(js, root, Items(js, root, input))))
  }
}
