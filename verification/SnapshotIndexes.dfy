/** What the indexes of a built plan say when they are read back: they sort the memories of its manifest. */
module SnapshotIndexes {
  import opened Common
  import opened JsonText
  import opened ProjectionPaths
  import opened ProjectionEnvelope
  import opened SnapshotInput
  import opened SnapshotPlan
  import opened SnapshotCheck
  import opened SnapshotResults
  import SnapshotKeys
  import Ordering

  /** The entry has the value in the index's dimension. */
  predicate HasValue(e: IndexEntry, dimension: string, value: Text) {
    || (dimension == "kind" && Lit(e.kind) == value)
    || (dimension == "class" && Lit(e.memoryClass) == value)
    || (dimension == "status" && Lit(e.status) == value)
    || (dimension == "scope" && e.scopeId == value)
  }

  /** The entries with the value, in order. */
  function Selected(entries: seq<IndexEntry>, dimension: string, value: Text): seq<IndexEntry> {
    if entries == [] then []
    else
      (if HasValue(entries[0], dimension, value) then [entries[0]] else [])
      + Selected(entries[1..], dimension, value)
  }

  lemma {:induction false} SelectedHas(entries: seq<IndexEntry>, dimension: string, value: Text, e: IndexEntry)
    ensures e in Selected(entries, dimension, value) <==> e in entries && HasValue(e, dimension, value)
  {
    if entries != [] {
      SelectedHas(entries[1..], dimension, value, e);
      assert entries == [entries[0]] + entries[1..];
    }
  }

  lemma {:induction false} SelectedLast(entries: seq<IndexEntry>, last: IndexEntry, dimension: string, value: Text)
    ensures Selected(entries + [last], dimension, value) ==
      Selected(entries, dimension, value) + if HasValue(last, dimension, value) then [last] else []
  {
    if entries == [] {
      assert (entries + [last])[1..] == [];
    } else {
      assert (entries + [last])[1..] == entries[1..] + [last];
      SelectedLast(entries[1..], last, dimension, value);
    }
  }

  lemma {:induction false} FilterSelects(
    heads: seq<Memory>, entries: seq<IndexEntry>, has: Memory -> bool, dimension: string, value: Text)
    requires |heads| == |entries|
    requires forall i :: 0 <= i < |heads| ==> (has(heads[i]) <==> HasValue(entries[i], dimension, value))
    ensures EntriesWith(heads, entries, has) == Selected(entries, dimension, value)
  {
    if heads != [] {
      var n := |heads| - 1;
      FilterSelects(heads[..n], entries[..n], has, dimension, value);
      SelectedLast(entries[..n], entries[n], dimension, value);
      assert entries == entries[..n] + [entries[n]];
    }
  }

  /** Entries of heads have their heads' words. */
  predicate AreEntriesOf(heads: seq<Memory>, entries: seq<IndexEntry>) {
    && |heads| == |entries|
    && forall i :: 0 <= i < |heads| ==>
      && entries[i].kind == heads[i].kind && entries[i].memoryClass == heads[i].memoryClass
      && entries[i].status == heads[i].status && entries[i].scopeId == heads[i].scopeId && ValidMemory(heads[i])
  }

  lemma {:induction false} WordsDiffer(a: string, b: string)
    requires IsWord(a) && IsWord(b)
    ensures Lit(a) == Lit(b) ==> a == b
  {
    if Lit(a) == Lit(b) {
      assert SnapshotKeys.IsAscii(a) && SnapshotKeys.IsAscii(b);
      SnapshotKeys.LitInjective(a, b);
    }
  }

  lemma {:induction false} PropertyIsWord(m: Memory, d: Dimension)
    requires ValidMemory(m)
    ensures IsWord(Property(m, d))
  {
    WordsArePlain(m.kind);
    WordsArePlain(m.memoryClass);
    WordsArePlain(m.status);
  }

  lemma {:induction false} WordSelects(heads: seq<Memory>, entries: seq<IndexEntry>, d: Dimension, value: string)
    requires AreEntriesOf(heads, entries) && IsWord(value)
    ensures EntriesWith(heads, entries, (m: Memory) => Property(m, d) == value)
      == Selected(entries, DimensionName(d), Lit(value))
  {
    var has := (m: Memory) => Property(m, d) == value;
    forall i | 0 <= i < |heads| ensures has(heads[i]) <==> HasValue(entries[i], DimensionName(d), Lit(value)) {
      PropertyIsWord(heads[i], d);
      WordsDiffer(Property(heads[i], d), value);
    }
    FilterSelects(heads, entries, has, DimensionName(d), Lit(value));
  }

  // ----- Index documents

  /** The key of an index file. */
  function IndexKey(root: Root, dimension: string, segment: string, file: string): string {
    Key(root, Index("by-" + dimension, segment, file))
  }

  function DocumentOf(input: Input, entries: seq<IndexEntry>, dimension: string, value: Text): Document {
    IndexDocument(
      1, input.projectId, input.projectVersion, input.snapshotId, dimension, value, Selected(entries, dimension, value))
  }

  /** The write is the index of the value in the dimension: its key, and a document that lists the selected entries. */
  ghost predicate IsIndexOf(
    js: Platform, root: Root, input: Input, entries: seq<IndexEntry>, w: Write, dimension: string, value: Text)
  {
    && Segment(value).Some? && w.key == IndexKey(root, dimension, Segment(value).value, "index.json")
    && js.parse(w.body) == Some(DocumentOf(input, entries, dimension, value))
  }

  /** The same in Markdown. */
  predicate IsMarkdownIndexOf(
    root: Root, input: Input, entries: seq<IndexEntry>, w: Write, dimension: string, value: string)
  {
    && w.key == IndexKey(root, dimension, value, "index.md")
    && w.body == MarkdownIndex(input, dimension, value, Selected(entries, dimension, Lit(value)))
  }

  lemma {:induction false} JsonIndexReadsBack(
    js: Platform, input: Input, dimension: string, value: Text, entries: seq<IndexEntry>)
    requires IsLawful(js)
    ensures js.parse(JsonIndex(js, input, dimension, value, entries)) == Some(IndexDocument(
      1, input.projectId, input.projectVersion, input.snapshotId, dimension, value, entries))
  {
    var d := IndexDocument(1, input.projectId, input.projectVersion, input.snapshotId, dimension, value, entries);
    assert js.parse(js.stringify(d) + [NEWLINE]) == Some(d);
  }

  lemma {:induction false} DirectoryIs(d: Dimension)
    ensures Directory(d) == "by-" + DimensionName(d)
  {
  }

  lemma {:induction false} JsonItemIsIndex(
    js: Platform, root: Root, input: Input, heads: seq<Memory>, entries: seq<IndexEntry>, d: Dimension, value: string)
    requires IsLawful(js) && AreEntriesOf(heads, entries) && IsWord(value)
    ensures IsIndexOf(
      js, root, input, entries, WriteOf(js, root, JsonItem(js, input, heads, entries, d, value)), DimensionName(d),
      Lit(value))
  {
    WordSegment(value);
    WordSelects(heads, entries, d, value);
    JsonIndexReadsBack(
      js, input, DimensionName(d), Lit(value), Selected(entries, DimensionName(d), Lit(value)));
    DirectoryIs(d);
  }

  lemma {:induction false} MarkdownItemIsIndex(
    js: Platform, root: Root, input: Input, heads: seq<Memory>, entries: seq<IndexEntry>, d: Dimension, value: string)
    requires AreEntriesOf(heads, entries) && IsWord(value)
    ensures IsMarkdownIndexOf(
      root, input, entries, WriteOf(js, root, MarkdownItem(input, heads, entries, d, value)), DimensionName(d), value)
  {
    WordSelects(heads, entries, d, value);
    DirectoryIs(d);
  }

  lemma {:induction false} ScopeItemIsIndex(
    js: Platform, root: Root, input: Input, heads: seq<Memory>, entries: seq<IndexEntry>, scope: Text)
    requires IsLawful(js) && AreEntriesOf(heads, entries) && Segment(scope).Some?
    ensures IsIndexOf(
      js, root, input, entries, WriteOf(js, root, ScopeItem(js, input, heads, entries, scope)), "scope", scope)
  {
    var has := (m: Memory) => m.scopeId == scope;
    FilterSelects(heads, entries, has, "scope", scope);
    JsonIndexReadsBack(js, input, "scope", scope, Selected(entries, "scope", scope));
    assert "by-" + "scope" == "by-scope";
  }

  // ----- All indexes of a plan

  function Words(dimension: string): seq<string> {
    if dimension == "kind" then KINDS
    else if dimension == "class" then CLASSES
    else if dimension == "status" then STATUSES
    else []
  }

  /** What has an index: every word of a closed list, whether it is used or not, and the scopes that are used. */
  predicate IsIndexed(input: Input, dimension: string, value: Text) {
    || (exists i :: 0 <= i < |Words(dimension)| && Lit(Words(dimension)[i]) == value)
    || (dimension == "scope" && exists i :: 0 <= i < |input.heads| && input.heads[i].scopeId == value)
  }

  predicate IsIndexedInMarkdown(dimension: string, value: string) {
    (dimension == "kind" || dimension == "class") && value in Words(dimension)
  }

  ghost predicate IsIndexWrite(js: Platform, root: Root, input: Input, entries: seq<IndexEntry>, w: Write) {
    || (exists dimension, value ::
         IsIndexed(input, dimension, value) && IsIndexOf(js, root, input, entries, w, dimension, value))
    || (exists dimension, value ::
         IsIndexedInMarkdown(dimension, value) && IsMarkdownIndexOf(root, input, entries, w, dimension, value))
  }

  ghost predicate IsIndexKey(root: Root, key: string) {
    exists p: Place :: IsPlace(p) && p.Index? && key == Key(root, p)
  }

  ghost predicate HasIndexOf(
    js: Platform, root: Root, input: Input, entries: seq<IndexEntry>, ws: seq<Write>, dimension: string, value: Text)
  {
    exists w :: w in ws && IsIndexOf(js, root, input, entries, w, dimension, value)
  }

  predicate HasMarkdownIndexOf(
    root: Root, input: Input, entries: seq<IndexEntry>, ws: seq<Write>, dimension: string, value: string)
  {
    exists w :: w in ws && IsMarkdownIndexOf(root, input, entries, w, dimension, value)
  }

  /** Every index the plan has lists what it should, and there is one for everything that has an index. */
  ghost predicate IndexesAreExact(
    js: Platform, root: Root, input: Input, entries: seq<IndexEntry>, ws: seq<Write>)
  {
    && (forall w :: w in ws && IsIndexKey(root, w.key) ==> IsIndexWrite(js, root, input, entries, w))
    && (forall dimension, value :: IsIndexed(input, dimension, value) ==>
         HasIndexOf(js, root, input, entries, ws, dimension, value))
    && (forall dimension, value :: IsIndexedInMarkdown(dimension, value) ==>
         HasMarkdownIndexOf(root, input, entries, ws, dimension, value))
  }

  lemma {:induction false} ListedWord(d: Dimension, value: string)
    requires value in Words(DimensionName(d))
    ensures IsWord(value)
    ensures forall input :: IsIndexed(input, DimensionName(d), Lit(value))
  {
    KindsAreWords();
    OtherWords();
    var words := Words(DimensionName(d));
    var i :| 0 <= i < |words| && words[i] == value;
    assert Lit(words[i]) == Lit(value);
  }

  /** Where the item of an index comes from. */
  datatype Source = FromWord(d: Dimension, value: string, json: bool) | FromScope(scope: Text)

  ghost predicate IsSource(
    js: Platform, input: Input, heads: seq<Memory>, entries: seq<IndexEntry>, item: Item, s: Source)
    requires |heads| == |entries|
  {
    match s
    case FromWord(d, value, json) =>
      && value in Words(DimensionName(d)) && (json || !d.Status?)
      && item == DualItem(js, input, heads, entries, d, value, json)
    case FromScope(scope) =>
      scope in SortedScopes(heads) && item == ScopeItem(js, input, heads, entries, scope)
  }

  lemma {:induction false} DualItemHasSource(
    js: Platform, input: Input, heads: seq<Memory>, entries: seq<IndexEntry>, d: Dimension, names: seq<string>,
      item: Item)
    returns (value: string, json: bool)
    requires |heads| == |entries| && item in DualItems(js, input, heads, entries, d, names)
    ensures value in names && item == DualItem(js, input, heads, entries, d, value, json)
  {
    var items := DualItems(js, input, heads, entries, d, names);
    var k :| 0 <= k < |items| && items[k] == item;
    value, json := names[k / 2], k % 2 == 0;
  }

  lemma {:induction false} ItemHasSource(
    js: Platform, input: Input, heads: seq<Memory>, entries: seq<IndexEntry>, item: Item) returns (s: Source)
    requires |heads| == |entries|
    requires item in IndexItems(js, input, heads, entries)
      || item in ScopeItems(js, input, heads, entries, SortedScopes(heads))
    ensures IsSource(js, input, heads, entries, item, s)
  {
    if item in DualItems(js, input, heads, entries, Kind, KINDS) {
      var value, json := DualItemHasSource(js, input, heads, entries, Kind, KINDS, item);
      s := FromWord(Kind, value, json);
    } else if item in DualItems(js, input, heads, entries, Class, CLASSES) {
      var value, json := DualItemHasSource(js, input, heads, entries, Class, CLASSES, item);
      s := FromWord(Class, value, json);
    } else if item in StatusItems(js, input, heads, entries) {
      var items := StatusItems(js, input, heads, entries);
      var k :| 0 <= k < |items| && items[k] == item;
      s := FromWord(Status, STATUSES[k], true);
    } else {
      var scopes := SortedScopes(heads);
      var items := ScopeItems(js, input, heads, entries, scopes);
      var k :| 0 <= k < |items| && items[k] == item;
      s := FromScope(scopes[k]);
    }
  }

  lemma {:induction false} SourceHasItem(
    js: Platform, input: Input, heads: seq<Memory>, entries: seq<IndexEntry>, item: Item, s: Source)
    requires |heads| == |entries| && IsSource(js, input, heads, entries, item, s)
    ensures item in IndexItems(js, input, heads, entries)
      || item in ScopeItems(js, input, heads, entries, SortedScopes(heads))
  {
    match s
    case FromWord(d, value, json) =>
      var words := Words(DimensionName(d));
      var i :| 0 <= i < |words| && words[i] == value;
      if d.Status? {
        assert StatusItems(js, input, heads, entries)[i] == item;
      } else {
        DualItemsAt(js, input, heads, entries, d, words, i, json);
      }
    case FromScope(scope) =>
      var scopes := SortedScopes(heads);
      var i :| 0 <= i < |scopes| && scopes[i] == scope;
      assert ScopeItems(js, input, heads, entries, scopes)[i] == item;
  }

  /** The scopes that have an index are those of the memories. */
  lemma {:induction false} ScopeIsIndexed(root: Root, input: Input, scope: Text)
    requires SnapshotKeys.AllHaveKeys(root, SortedScopes(SortedHeads(input)))
    ensures scope in SortedScopes(SortedHeads(input)) <==>
      exists i :: 0 <= i < |input.heads| && input.heads[i].scopeId == scope
    ensures scope in SortedScopes(SortedHeads(input)) ==> Segment(scope).Some?
  {
    var heads := SortedHeads(input);
    var scopes := SortedScopes(heads);
    SnapshotKeys.ScopesAreDistinct(heads);
    Ordering.SortHas(input.heads, HeadLess());
    if scope in scopes {
      var n :| 0 <= n < |scopes| && scopes[n] == scope;
      assert HasScopeKey(root, scopes[n]);
      var k :| 0 <= k < |heads| && heads[k].scopeId == scope;
      assert heads[k] in input.heads;
    }
    if i :| 0 <= i < |input.heads| && input.heads[i].scopeId == scope {
      assert input.heads[i] in heads;
      var k :| 0 <= k < |heads| && heads[k] == input.heads[i];
    }
  }

  lemma {:induction false} WordIsIndexWrite(
    js: Platform, root: Root, input: Input, heads: seq<Memory>, entries: seq<IndexEntry>, d: Dimension, value: string,
      json: bool)
    requires IsLawful(js) && AreEntriesOf(heads, entries) && value in Words(DimensionName(d)) && (json || !d.Status?)
    ensures IsIndexWrite(js, root, input, entries,
      WriteOf(js, root, DualItem(js, input, heads, entries, d, value, json)))
  {
    ListedWord(d, value);
    if json {
      JsonItemIsIndex(js, root, input, heads, entries, d, value);
      assert IsIndexed(input, DimensionName(d), Lit(value));
    } else {
      MarkdownItemIsIndex(js, root, input, heads, entries, d, value);
      assert IsIndexedInMarkdown(DimensionName(d), value);
    }
  }

  lemma {:induction false} SourceIsIndexWrite(
    js: Platform, root: Root, input: Input, entries: seq<IndexEntry>, item: Item, s: Source)
    requires IsLawful(js) && AreEntriesOf(SortedHeads(input), entries)
    requires SnapshotKeys.AllHaveKeys(root, SortedScopes(SortedHeads(input)))
    requires IsSource(js, input, SortedHeads(input), entries, item, s)
    ensures IsIndexWrite(js, root, input, entries, WriteOf(js, root, item))
  {
    match s
    case FromWord(d, value, json) =>
      WordIsIndexWrite(js, root, input, SortedHeads(input), entries, d, value, json);
    case FromScope(scope) =>
      ScopeIsIndexed(root, input, scope);
      ScopeItemIsIndex(js, root, input, SortedHeads(input), entries, scope);
      assert IsIndexed(input, "scope", scope);
  }

  lemma {:induction false} ObjectItemIsNoIndex(js: Platform, ms: seq<Memory>, t: ObjectType, item: Item)
    requires AllEncodable(ms) && item in ObjectItems(ObjectsOf(js, ms, t))
    ensures !item.place.Index?
  {
    var items := ObjectItems(ObjectsOf(js, ms, t));
    var k :| 0 <= k < |items| && items[k] == item;
    SnapshotKeys.ObjectPlace(js, ms[k], t);
  }

  lemma {:induction false} InOneOf(
    a: seq<Item>, b: seq<Item>, c: seq<Item>, d: seq<Item>, e: seq<Item>, item: Item)
    requires item in a + b + c + d + e
    ensures item in a || item in b || item in c || item in d || item in e
  {
  }

  /** Nothing but the items of indexes has the place of an index. */
  lemma {:induction false} IndexPlaceIsIndex(js: Platform, root: Root, input: Input, item: Item)
    requires IsComplete(input) && item in Items(js, root, input) && item.place.Index?
    ensures var heads, entries := SortedHeads(input), Entries(js, root, input);
      || item in IndexItems(js, input, heads, entries)
      || item in ScopeItems(js, input, heads, entries, SortedScopes(heads))
  {
    var heads, revisions, entries := SortedHeads(input), SortedRevisions(input), Entries(js, root, input);
    InOneOf(ObjectItems(ObjectsOf(js, heads, HeadObject)), ObjectItems(ObjectsOf(js, revisions, RevisionObject)),
      [ReadmeItem(input, |heads|, |revisions|)], IndexItems(js, input, heads, entries),
      ScopeItems(js, input, heads, entries, SortedScopes(heads)), item);
    if item in ObjectItems(ObjectsOf(js, heads, HeadObject)) {
      ObjectItemIsNoIndex(js, heads, HeadObject, item);
    } else if item in ObjectItems(ObjectsOf(js, revisions, RevisionObject)) {
      ObjectItemIsNoIndex(js, revisions, RevisionObject, item);
    }
  }

  lemma {:induction false} EntriesAreOfHeads(js: Platform, root: Root, input: Input)
    requires IsComplete(input)
    ensures AreEntriesOf(SortedHeads(input), Entries(js, root, input))
  {
    var heads := SortedHeads(input);
    forall i | 0 <= i < |heads| ensures IsEncodable(heads[i]) {
    }
  }

  lemma {:induction false} IndexKeyIsIndexWrite(js: Platform, root: Root, input: Input, last: Item, w: Write)
    requires IsLawful(js) && IsReady(root, input) && IsPlanOf(Items(js, root, input), last)
    requires w in PlanWrites(js, root, Items(js, root, input), last) && IsIndexKey(root, w.key)
    ensures IsIndexWrite(js, root, input, Entries(js, root, input), w)
  {
    var items, entries := Items(js, root, input), Entries(js, root, input);
    var p: Place :| IsPlace(p) && p.Index? && w.key == Key(root, p);
    var item := WrittenIsItem(js, root, items, last, w);
    if item in items {
      ItemIsPlaced(items, item);
    }
    ProjectionPaths.KeysDiffer(root, item.place, p);
    EntriesAreOfHeads(js, root, input);
    IndexPlaceIsIndex(js, root, input, item);
    var s := ItemHasSource(js, input, SortedHeads(input), entries, item);
    SourceIsIndexWrite(js, root, input, entries, item, s);
  }

  /** The item that gives an index, for everything that has one. */
  lemma {:induction false} IndexedHasItem(
    js: Platform, root: Root, input: Input, entries: seq<IndexEntry>, dimension: string, value: Text)
    returns (item: Item, s: Source)
    requires IsLawful(js) && AreEntriesOf(SortedHeads(input), entries) && IsIndexed(input, dimension, value)
    requires SnapshotKeys.AllHaveKeys(root, SortedScopes(SortedHeads(input)))
    ensures IsSource(js, input, SortedHeads(input), entries, item, s)
    ensures IsIndexOf(js, root, input, entries, WriteOf(js, root, item), dimension, value)
  {
    var heads := SortedHeads(input);
    if dimension == "scope" {
      ScopeIsIndexed(root, input, value);
      item, s := ScopeItem(js, input, heads, entries, value), FromScope(value);
      ScopeItemIsIndex(js, root, input, heads, entries, value);
    } else {
      var d := if dimension == "kind" then Kind else if dimension == "class" then Class else Status;
      assert DimensionName(d) == dimension;
      var i :| 0 <= i < |Words(dimension)| && Lit(Words(dimension)[i]) == value;
      var word := Words(dimension)[i];
      ListedWord(d, word);
      item, s := JsonItem(js, input, heads, entries, d, word), FromWord(d, word, true);
      JsonItemIsIndex(js, root, input, heads, entries, d, word);
    }
  }

  lemma {:induction false} IndexedHasIndex(
    js: Platform, root: Root, input: Input, last: Item, dimension: string, value: Text)
    requires IsLawful(js) && IsReady(root, input) && IsIndexed(input, dimension, value)
    ensures var entries := Entries(js, root, input);
      HasIndexOf(js, root, input, entries, PlanWrites(js, root, Items(js, root, input), last), dimension, value)
  {
    var items, entries := Items(js, root, input), Entries(js, root, input);
    EntriesAreOfHeads(js, root, input);
    var item, s := IndexedHasItem(js, root, input, entries, dimension, value);
    SourceHasItem(js, input, SortedHeads(input), entries, item, s);
    ItemIsWritten(js, root, items, last, item);
  }

  lemma {:induction false} IndexedHasMarkdown(
    js: Platform, root: Root, input: Input, last: Item, dimension: string, value: string)
    requires IsReady(root, input) && IsIndexedInMarkdown(dimension, value)
    ensures var entries := Entries(js, root, input);
      HasMarkdownIndexOf(root, input, entries, PlanWrites(js, root, Items(js, root, input), last), dimension, value)
  {
    var items, heads, entries := Items(js, root, input), SortedHeads(input), Entries(js, root, input);
    var d := if dimension == "kind" then Kind else Class;
    assert DimensionName(d) == dimension;
    EntriesAreOfHeads(js, root, input);
    ListedWord(d, value);
    var item := MarkdownItem(input, heads, entries, d, value);
    SourceHasItem(js, input, heads, entries, item, FromWord(d, value, false));
    MarkdownItemIsIndex(js, root, input, heads, entries, d, value);
    ItemIsWritten(js, root, items, last, item);
  }

  // ----- The manifest

  /** The manifest as it is read back from the plan. */
  ghost predicate IsManifestOf(js: Platform, root: Root, ws: seq<Write>, d: Document) {
    && d.ManifestDocument?
    && exists w :: w in ws && w.key == Key(root, Manifest) && js.parse(w.body) == Some(d)
  }

  lemma {:induction false} ManifestIsRead(js: Platform, root: Root, input: Input, items: seq<Item>, d: Document)
    requires IsLawful(js) && d.ManifestDocument?
    ensures IsManifestOf(js, root, PlanWrites(js, root, items, ManifestItem(js, d)), d)
  {
    var last := ManifestItem(js, d);
    ItemIsWritten(js, root, items, last, last);
    assert js.parse(js.stringify(d) + [NEWLINE]) == Some(d);
  }

  lemma {:induction false} WritesSortMemories(js: Platform, root: Root, input: Input, last: Item)
    requires IsLawful(js) && IsReady(root, input) && IsPlanOf(Items(js, root, input), last)
    ensures IndexesAreExact(
      js, root, input, Entries(js, root, input), PlanWrites(js, root, Items(js, root, input), last))
  {
    var ws, entries := PlanWrites(js, root, Items(js, root, input), last), Entries(js, root, input);
    forall w | w in ws && IsIndexKey(root, w.key) ensures IsIndexWrite(js, root, input, entries, w) {
      IndexKeyIsIndexWrite(js, root, input, last, w);
    }
    forall dimension, value | IsIndexed(input, dimension, value)
      ensures HasIndexOf(js, root, input, entries, ws, dimension, value)
    {
      IndexedHasIndex(js, root, input, last, dimension, value);
    }
    forall dimension, value | IsIndexedInMarkdown(dimension, value)
      ensures HasMarkdownIndexOf(root, input, entries, ws, dimension, value)
    {
      IndexedHasMarkdown(js, root, input, last, dimension, value);
    }
  }

  /** The plan has a manifest, and its indexes sort exactly the memories that manifest lists. */
  lemma {:induction false} IndexesSortMemories(js: Platform, input: Input) returns (d: Document)
    requires IsLawful(js) && IsBuildable(input)
    ensures IsManifestOf(js, InputRoot(input), PlanOf(js, input).writes, d)
    ensures IsComplete(input) && d.memories == Entries(js, InputRoot(input), input)
      && d.revisions == RevisionEntries(js, InputRoot(input), SortedRevisions(input))
    ensures IndexesAreExact(js, InputRoot(input), input, d.memories, PlanOf(js, input).writes)
  {
    BuildableIsReady(input);
    var root := InputRoot(input);
    var items := Items(js, root, input);
    var files := SortedWrites(WritesOf(js, root, items));
    d := ManifestOf(js, root, input, files);
    var last := ManifestItem(js, d);
    PlanIsPlan(js, root, input, files, last);
    ManifestIsRead(js, root, input, items, d);
    WritesSortMemories(js, root, input, last);
  }

  /** The manifest of the files is read back, and the indexes among them sort exactly the memories it lists. */
  ghost predicate SortMemories(js: Platform, root: Root, input: Input, ws: seq<Write>) {
    exists d :: IsManifestOf(js, root, ws, d) && IndexesAreExact(js, root, input, d.memories, ws)
  }

  lemma {:induction false} PlanSortsMemories(js: Platform, input: Input)
    requires IsLawful(js) && IsBuildable(input)
    ensures SortMemories(js, InputRoot(input), input, PlanOf(js, input).writes)
  {
    var d := IndexesSortMemories(js, input);
  }

  lemma {:induction false} ManifestIsUnique(js: Platform, root: Root, ws: seq<Write>, d: Document, other: Document)
    requires SnapshotCheck.KeysDiffer(ws) && IsManifestOf(js, root, ws, d) && IsManifestOf(js, root, ws, other)
    ensures d == other
  {
    var v :| v in ws && v.key == Key(root, Manifest) && js.parse(v.body) == Some(d);
    var w :| w in ws && w.key == Key(root, Manifest) && js.parse(w.body) == Some(other);
    SameWrite(ws, v, w);
  }

  lemma {:induction false} SameWrite(ws: seq<Write>, v: Write, w: Write)
    requires SnapshotCheck.KeysDiffer(ws) && v in ws && w in ws && v.key == w.key
    ensures v == w
  {
    var i :| 0 <= i < |ws| && ws[i] == v;
    var j :| 0 <= j < |ws| && ws[j] == w;
    assert i == j;
  }

  lemma {:induction false} BuiltKeysDiffer(js: Platform, input: Input)
    requires IsBuildable(input)
    ensures SnapshotCheck.KeysDiffer(PlanOf(js, input).writes)
  {
    BuildableIsReady(input);
    var root := InputRoot(input);
    var items := Items(js, root, input);
    var files := SortedWrites(WritesOf(js, root, items));
    var last := ManifestItem(js, ManifestOf(js, root, input, files));
    PlanIsPlan(js, root, input, files, last);
    PlanKeysAreInOrder(js, root, items, last);
  }

  // ----- Every memory is in one index of each dimension

  predicate IsDimension(dimension: string) {
    dimension == "kind" || dimension == "class" || dimension == "status" || dimension == "scope"
  }

  function ValueOf(e: IndexEntry, dimension: string): Text {
    if dimension == "kind" then Lit(e.kind)
    else if dimension == "class" then Lit(e.memoryClass)
    else if dimension == "status" then Lit(e.status)
    else e.scopeId
  }

  /** The file is an index of the dimension, and it lists the entry. */
  ghost predicate Lists(js: Platform, root: Root, w: Write, dimension: string, e: IndexEntry) {
    && (exists segment :: IsSegment(segment) && w.key == IndexKey(root, dimension, segment, "index.json"))
    && js.parse(w.body).Some? && js.parse(w.body).value.IndexDocument? && e in js.parse(w.body).value.memories
  }

  lemma {:induction false} IndexKeyTells(
    root: Root, dimension: string, segment: string, file: string, dimension': string, segment': string, file': string)
    requires WellFormedRoot(root) && IsDimension(dimension) && IsDimension(dimension')
    requires IsSegment(segment) && IsSegment(segment')
    requires file == "index.json" || file == "index.md"
    requires file' == "index.json" || file' == "index.md"
    requires IndexKey(root, dimension, segment, file) == IndexKey(root, dimension', segment', file')
    ensures dimension == dimension' && segment == segment' && file == file'
  {
    ProjectionPaths.KeysDiffer(
      root, Index("by-" + dimension, segment, file), Index("by-" + dimension', segment', file'));
    assert ("by-" + dimension)[3..] == dimension;
    assert ("by-" + dimension')[3..] == dimension';
  }

  lemma {:induction false} JsonListing(
    js: Platform, root: Root, input: Input, entries: seq<IndexEntry>, w: Write, dimension: string, e: IndexEntry,
      dim: string, value: Text)
    requires WellFormedRoot(root) && IsDimension(dimension) && Lists(js, root, w, dimension, e)
    requires IsIndexed(input, dim, value) && IsIndexOf(js, root, input, entries, w, dim, value)
    ensures e in entries && dim == dimension && value == ValueOf(e, dimension)
  {
    var segment :| IsSegment(segment) && w.key == IndexKey(root, dimension, segment, "index.json");
    IndexKeyTells(root, dimension, segment, "index.json", dim, Segment(value).value, "index.json");
    SelectedHas(entries, dimension, value, e);
  }

  lemma {:induction false} MarkdownListsNothing(
    js: Platform, root: Root, input: Input, entries: seq<IndexEntry>, w: Write, dimension: string, e: IndexEntry,
      dim: string, value: string)
    requires WellFormedRoot(root) && IsDimension(dimension)
    requires IsIndexedInMarkdown(dim, value) && IsMarkdownIndexOf(root, input, entries, w, dim, value)
    ensures !Lists(js, root, w, dimension, e)
  {
    ListedWord(if dim == "kind" then Kind else Class, value);
    SnapshotKeys.WordIsSegment(value);
    if segment :| IsSegment(segment) && w.key == IndexKey(root, dimension, segment, "index.json") {
      IndexKeyTells(root, dimension, segment, "index.json", dim, value, "index.md");
    }
  }

  lemma {:induction false} ListingIsByValue(
    js: Platform, root: Root, input: Input, entries: seq<IndexEntry>, ws: seq<Write>, w: Write, dimension: string,
      e: IndexEntry)
    requires WellFormedRoot(root) && IndexesAreExact(js, root, input, entries, ws) && IsDimension(dimension)
    requires w in ws && Lists(js, root, w, dimension, e)
    ensures e in entries && IsIndexOf(js, root, input, entries, w, dimension, ValueOf(e, dimension))
  {
    var segment :| IsSegment(segment) && w.key == IndexKey(root, dimension, segment, "index.json");
    assert IsIndexKey(root, w.key) by {
      var p := Index("by-" + dimension, segment, "index.json");
      assert IsPlace(p) && w.key == Key(root, p);
    }
    assert IsIndexWrite(js, root, input, entries, w);
    if dim, value :| IsIndexed(input, dim, value) && IsIndexOf(js, root, input, entries, w, dim, value) {
      JsonListing(js, root, input, entries, w, dimension, e, dim, value);
    } else {
      var dim, value :| IsIndexedInMarkdown(dim, value) && IsMarkdownIndexOf(root, input, entries, w, dim, value);
      MarkdownListsNothing(js, root, input, entries, w, dimension, e, dim, value);
    }
  }

  lemma {:induction false} EntryIsIndexed(input: Input, entries: seq<IndexEntry>, e: IndexEntry, dimension: string)
    requires AreEntriesOf(SortedHeads(input), entries) && e in entries && IsDimension(dimension)
    ensures IsIndexed(input, dimension, ValueOf(e, dimension)) && HasValue(e, dimension, ValueOf(e, dimension))
  {
    var heads := SortedHeads(input);
    var i :| 0 <= i < |entries| && entries[i] == e;
    if dimension == "scope" {
      Ordering.SortHas(input.heads, HeadLess());
      assert heads[i] in input.heads;
    } else {
      var d := if dimension == "kind" then Kind else if dimension == "class" then Class else Status;
      ListedWord(d, Property(heads[i], d));
    }
  }

  /** An entry is in the manifest exactly if an index of the dimension lists it, and then one does. */
  lemma {:induction false} EachIsListedOnce(js: Platform, input: Input, d: Document, e: IndexEntry, dimension: string)
    requires IsLawful(js) && IsBuildable(input) && IsDimension(dimension)
    requires IsManifestOf(js, InputRoot(input), PlanOf(js, input).writes, d)
    ensures var root, ws := InputRoot(input), PlanOf(js, input).writes;
      && (e in d.memories <==> exists w :: w in ws && Lists(js, root, w, dimension, e))
      && forall v, w :: v in ws && w in ws && Lists(js, root, v, dimension, e) && Lists(js, root, w, dimension, e) ==>
           v == w
  {
    var root, ws := InputRoot(input), PlanOf(js, input).writes;
    var built := IndexesSortMemories(js, input);
    BuiltKeysDiffer(js, input);
    ManifestIsUnique(js, root, ws, d, built);
    if e in d.memories {
      EntriesAreOfHeads(js, root, input);
      EntryIsIndexed(input, d.memories, e, dimension);
      SelectedHas(d.memories, dimension, ValueOf(e, dimension), e);
      assert HasIndexOf(js, root, input, d.memories, ws, dimension, ValueOf(e, dimension));
      var w :| w in ws && IsIndexOf(js, root, input, d.memories, w, dimension, ValueOf(e, dimension));
      assert Lists(js, root, w, dimension, e);
    }
    forall v, w | v in ws && w in ws && Lists(js, root, v, dimension, e) && Lists(js, root, w, dimension, e)
      ensures v == w
    {
      ListingIsByValue(js, root, input, d.memories, ws, v, dimension, e);
      ListingIsByValue(js, root, input, d.memories, ws, w, dimension, e);
      SameWrite(ws, v, w);
    }
    if w :| w in ws && Lists(js, root, w, dimension, e) {
      ListingIsByValue(js, root, input, d.memories, ws, w, dimension, e);
    }
  }
}
