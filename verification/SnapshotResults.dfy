/** Built plans against the validator, for all inputs. */
module SnapshotResults {
  import opened Common
  import opened JsonText
  import opened ProjectionPaths
  import opened ProjectionEnvelope
  import opened SnapshotInput
  import opened SnapshotPlan
  import opened SnapshotCheck
  import CanonicalJson
  import SnapshotKeys
  import Ordering

  // ----- What is in a plan

  predicate IsReady(root: Root, input: Input) {
    && IsComplete(input) && WellFormedRoot(root)
    && DistinctMemories(input.heads) && DistinctMemories(input.revisions)
    && SnapshotKeys.AllHaveKeys(root, SortedScopes(SortedHeads(input)))
  }

  lemma {:induction false} BuildableIsReady(input: Input)
    requires IsBuildable(input)
    ensures IsReady(InputRoot(input), input)
  {
    EverythingIsFound(input);
    RevisionsAreOfDistinctMemories(input.heads, input.revisions);
    SnapshotKeys.ScopesHaveKeys(InputRoot(input), input);
  }

  function PlanWrites(js: Platform, root: Root, items: seq<Item>, last: Item): (r: seq<Write>)
    ensures |r| == |items| + 1
  {
    SortedWrites(SortedWrites(WritesOf(js, root, items)) + [WriteOf(js, root, last)])
  }

  /** Items of a plan, the manifest apart. */
  predicate IsPlanOf(items: seq<Item>, last: Item) {
    SnapshotKeys.InOrder(items, 0, 7) && last.place.Manifest?
  }

  lemma {:induction false} FilesAre(js: Platform, root: Root, items: seq<Item>)
    ensures forall w :: w in SortedWrites(WritesOf(js, root, items)) <==> w in WritesOf(js, root, items)
  {
    Ordering.SortHas(WritesOf(js, root, items), WriteLess());
  }

  lemma {:induction false} ItemIsWritten(js: Platform, root: Root, items: seq<Item>, last: Item, item: Item)
    requires item in items || item == last
    ensures WriteOf(js, root, item) in PlanWrites(js, root, items, last)
    ensures HasKey(PlanWrites(js, root, items, last), Key(root, item.place))
  {
    var files, w := SortedWrites(WritesOf(js, root, items)), WriteOf(js, root, item);
    FilesAre(js, root, items);
    Ordering.SortHas(files + [WriteOf(js, root, last)], WriteLess());
    if item in items {
      var i :| 0 <= i < |items| && items[i] == item;
      assert WritesOf(js, root, items)[i] == w;
      assert w in files;
    }
    var ws := PlanWrites(js, root, items, last);
    assert w in ws;
    var k :| 0 <= k < |ws| && ws[k] == w;
  }

  lemma {:induction false} WrittenIsItem(js: Platform, root: Root, items: seq<Item>, last: Item, w: Write)
    returns (item: Item)
    requires w in PlanWrites(js, root, items, last)
    ensures item in items || item == last
    ensures w == WriteOf(js, root, item)
  {
    var files := SortedWrites(WritesOf(js, root, items));
    FilesAre(js, root, items);
    Ordering.SortHas(files + [WriteOf(js, root, last)], WriteLess());
    if w == WriteOf(js, root, last) {
      item := last;
    } else {
      assert w in files;
      var i :| 0 <= i < |items| && WritesOf(js, root, items)[i] == w;
      item := items[i];
    }
  }

  lemma {:induction false} ItemIsPlaced(items: seq<Item>, item: Item)
    requires SnapshotKeys.InOrder(items, 0, 7) && item in items
    ensures IsPlace(item.place) && !item.place.Manifest?
  {
    var i :| 0 <= i < |items| && items[i] == item;
    assert SnapshotKeys.Group(items[i].place) < 7;
  }

  // ----- Order and number

  lemma {:induction false} FilesAscend(js: Platform, root: Root, items: seq<Item>)
    requires WellFormedRoot(root) && SnapshotKeys.InOrder(items, 0, 7)
    ensures var files := SortedWrites(WritesOf(js, root, items));
      && SnapshotKeys.Ascend(files)
      && forall w :: w in files ==> w.key != Key(root, Manifest) && SnapshotKeys.IsAscii(w.key)
  {
    SnapshotKeys.SortedAscend(js, root, items);
    FilesAre(js, root, items);
    forall w | w in SortedWrites(WritesOf(js, root, items))
      ensures w.key != Key(root, Manifest) && SnapshotKeys.IsAscii(w.key)
    {
      var i :| 0 <= i < |items| && WritesOf(js, root, items)[i] == w;
      ItemIsPlaced(items, items[i]);
      ProjectionPaths.KeysDiffer(root, items[i].place, Manifest);
      SnapshotKeys.KeyIsAscii(root, items[i].place);
    }
  }

  lemma {:induction false} PlanAscends(js: Platform, root: Root, items: seq<Item>, last: Item)
    requires WellFormedRoot(root) && IsPlanOf(items, last)
    ensures SnapshotKeys.Ascend(PlanWrites(js, root, items, last))
  {
    var files := SortedWrites(WritesOf(js, root, items));
    var w := WriteOf(js, root, last);
    var all := files + [w];
    FilesAscend(js, root, items);
    SnapshotKeys.KeyIsAscii(root, Manifest);
    var less := WriteLess();
    forall i, j | 0 <= i < j < |all| ensures less(all[i], all[j]) || less(all[j], all[i]) {
      if j < |files| {
        assert less(files[i], files[j]);
      } else {
        assert files[i] in files;
        CanonicalJson.LessIsTotal(Lit(files[i].key), Lit(w.key));
        if Lit(files[i].key) == Lit(w.key) {
          SnapshotKeys.LitInjective(files[i].key, w.key);
        }
      }
    }
    SnapshotKeys.WriteLessIsTransitive();
    Ordering.SortSorts(all, less);
  }

  /** The keys of a plan ascend strictly. */
  lemma {:induction false} PlanKeysAreInOrder(js: Platform, root: Root, items: seq<Item>, last: Item)
    requires WellFormedRoot(root) && IsPlanOf(items, last)
    ensures KeysAscend(PlanWrites(js, root, items, last)) && SnapshotCheck.KeysDiffer(PlanWrites(js, root, items, last))
  {
    var ws := PlanWrites(js, root, items, last);
    PlanAscends(js, root, items, last);
    forall i | 0 < i < |ws| ensures WriteLess()(ws[i - 1], ws[i]) {
    }
    forall i, j | 0 <= i < j < |ws| ensures ws[i].key != ws[j].key {
      SnapshotKeys.AscendingKeysDiffer(ws, i, j);
    }
  }

  lemma {:induction false} SizeOfDistinct(xs: seq<Text>)
    requires forall i, j :: 0 <= i < j < |xs| ==> xs[i] != xs[j]
    ensures |set x | x in xs| == |xs|
  {
    if xs != [] {
      var n := |xs| - 1;
      SizeOfDistinct(xs[..n]);
      assert (set x | x in xs) == (set x | x in xs[..n]) + {xs[n]};
      assert xs[n] !in xs[..n];
    }
  }

  function Scopes(input: Input): set<Text> {
    set m | m in input.heads :: m.scopeId
  }

  lemma {:induction false} ScopesAreCounted(input: Input)
    ensures |SortedScopes(SortedHeads(input))| == |Scopes(input)|
  {
    var heads := SortedHeads(input);
    var scopes := SortedScopes(heads);
    SnapshotKeys.ScopesAreDistinct(heads);
    SizeOfDistinct(scopes);
    Ordering.SortHas(input.heads, HeadLess());
    forall s: Text ensures s in scopes <==> s in Scopes(input) {
      if s in scopes {
        var i :| 0 <= i < |heads| && heads[i].scopeId == s;
        assert heads[i] in input.heads;
      }
      if s in Scopes(input) {
        var m :| m in input.heads && m.scopeId == s;
        assert m in heads;
        var i :| 0 <= i < |heads| && heads[i] == m;
      }
    }
    assert (set s | s in scopes) == Scopes(input);
  }

  const FIXED_WRITES: nat := 29

  lemma {:induction false} ItemsAreCounted(js: Platform, root: Root, input: Input)
    requires IsComplete(input)
    ensures |Items(js, root, input)| + 1 ==
      |input.heads| + |input.revisions| + |SortedScopes(SortedHeads(input))| + FIXED_WRITES
  {
    assert |KINDS| == 8 && |CLASSES| == 3 && |STATUSES| == 5;
  }

  /**
   A plan has one file for each head, revision and scope, and 29 more: the number the rebuild reserves capacity for.
   */
  lemma {:induction false} PlanLength(js: Platform, input: Input)
    requires IsBuildable(input)
    ensures |PlanOf(js, input).writes| == |input.heads| + |input.revisions| + |Scopes(input)| + FIXED_WRITES
  {
    BuildableIsReady(input);
    ScopesAreCounted(input);
    ItemsAreCounted(js, InputRoot(input), input);
  }

  // ----- What the manifest refers to

  ghost predicate Covers(ws: seq<Write>, root: Root, items: seq<Item>) {
    forall item :: item in items ==> HasKey(ws, Key(root, item.place))
  }

  lemma {:induction false} PlanCovers(js: Platform, root: Root, items: seq<Item>, last: Item)
    ensures Covers(PlanWrites(js, root, items, last), root, items)
  {
    forall item | item in items ensures HasKey(PlanWrites(js, root, items, last), Key(root, item.place)) {
      ItemIsWritten(js, root, items, last, item);
    }
  }

  lemma {:induction false} CoversParts(ws: seq<Write>, root: Root, a: seq<Item>, b: seq<Item>)
    ensures Covers(ws, root, a + b) <==> Covers(ws, root, a) && Covers(ws, root, b)
  {
    if Covers(ws, root, a + b) {
      forall item | item in a || item in b ensures HasKey(ws, Key(root, item.place)) {
        assert item in a + b;
      }
    }
  }

  lemma {:induction false} CoversGroups(js: Platform, root: Root, input: Input, ws: seq<Write>)
    requires IsComplete(input) && Covers(ws, root, Items(js, root, input))
    ensures var heads, revisions, entries := SortedHeads(input), SortedRevisions(input), Entries(js, root, input);
      && Covers(ws, root, ObjectItems(ObjectsOf(js, heads, HeadObject)))
      && Covers(ws, root, ObjectItems(ObjectsOf(js, revisions, RevisionObject)))
      && Covers(ws, root, [ReadmeItem(input, |heads|, |revisions|)])
      && Covers(ws, root, DualItems(js, input, heads, entries, Kind, KINDS))
      && Covers(ws, root, DualItems(js, input, heads, entries, Class, CLASSES))
      && Covers(ws, root, StatusItems(js, input, heads, entries))
      && Covers(ws, root, ScopeItems(js, input, heads, entries, SortedScopes(heads)))
  {
    var heads, revisions, entries := SortedHeads(input), SortedRevisions(input), Entries(js, root, input);
    var a := ObjectItems(ObjectsOf(js, heads, HeadObject));
    var b := ObjectItems(ObjectsOf(js, revisions, RevisionObject));
    var c := [ReadmeItem(input, |heads|, |revisions|)];
    var kinds := DualItems(js, input, heads, entries, Kind, KINDS);
    var classes := DualItems(js, input, heads, entries, Class, CLASSES);
    var statuses := StatusItems(js, input, heads, entries);
    var scopes := ScopeItems(js, input, heads, entries, SortedScopes(heads));
    CoversParts(ws, root, a + b + c + (kinds + classes + statuses), scopes);
    CoversParts(ws, root, a + b + c, kinds + classes + statuses);
    CoversParts(ws, root, a + b, c);
    CoversParts(ws, root, a, b);
    CoversParts(ws, root, kinds + classes, statuses);
    CoversParts(ws, root, kinds, classes);
  }

  lemma {:induction false} DualItemsAt(
    js: Platform, input: Input, heads: seq<Memory>, entries: seq<IndexEntry>, d: Dimension, names: seq<string>, i: nat,
      json: bool)
    requires |heads| == |entries| && i < |names|
    ensures DualItem(js, input, heads, entries, d, names[i], json) in DualItems(js, input, heads, entries, d, names)
  {
    var items := DualItems(js, input, heads, entries, d, names);
    var k := if json then 2 * i else 2 * i + 1;
    assert k / 2 == i && (k % 2 == 0) == json;
    assert items[k] == DualItem(js, input, heads, entries, d, names[k / 2], k % 2 == 0);
  }

  lemma {:induction false} DualIndexesAreThere(
    js: Platform, root: Root, input: Input, ws: seq<Write>,
    heads: seq<Memory>, entries: seq<IndexEntry>, d: Dimension, names: seq<string>)
    requires |heads| == |entries| && Covers(ws, root, DualItems(js, input, heads, entries, d, names))
    ensures HasDualIndexes(ws, root, Directory(d), names)
  {
    forall i | 0 <= i < |names|
      ensures HasIndex(ws, root, Directory(d), names[i], "index.json")
        && HasIndex(ws, root, Directory(d), names[i], "index.md")
    {
      DualItemsAt(js, input, heads, entries, d, names, i, true);
      DualItemsAt(js, input, heads, entries, d, names, i, false);
    }
  }

  lemma {:induction false} StatusIndexesAreThere(
    js: Platform, root: Root, input: Input, ws: seq<Write>, heads: seq<Memory>, entries: seq<IndexEntry>)
    requires |heads| == |entries| && Covers(ws, root, StatusItems(js, input, heads, entries))
    ensures HasStatusIndexes(ws, root)
  {
    var items := StatusItems(js, input, heads, entries);
    forall i | 0 <= i < |STATUSES| ensures HasIndex(ws, root, "by-status", STATUSES[i], "index.json") {
      assert items[i] in items;
    }
  }

  lemma {:induction false} ScopeIndexesAreThere(
    js: Platform, root: Root, input: Input, ws: seq<Write>, heads: seq<Memory>, entries: seq<IndexEntry>)
    requires |heads| == |entries| && forall i :: 0 <= i < |heads| ==> entries[i].scopeId == heads[i].scopeId
    requires SnapshotKeys.AllHaveKeys(root, SortedScopes(heads))
    requires Covers(ws, root, ScopeItems(js, input, heads, entries, SortedScopes(heads)))
    ensures HasScopeIndexes(ws, root, entries)
  {
    var scopes := SortedScopes(heads);
    var items := ScopeItems(js, input, heads, entries, scopes);
    SnapshotKeys.ScopesAreDistinct(heads);
    forall i | 0 <= i < |entries| ensures HasScopeIndex(ws, root, entries[i].scopeId) {
      assert heads[i].scopeId in scopes;
      var k :| 0 <= k < |scopes| && scopes[k] == heads[i].scopeId;
      assert HasScopeKey(root, scopes[k]);
      assert items[k] in items && items[k].place == ScopePlace(scopes[k]);
    }
  }

  lemma {:induction false} ObjectsAreThere(js: Platform, root: Root, ws: seq<Write>, ms: seq<Memory>, t: ObjectType,
    i: nat)
    requires AllEncodable(ms) && i < |ms| && Covers(ws, root, ObjectItems(ObjectsOf(js, ms, t)))
    ensures HasKey(ws, Key(root, ObjectOf(js, ms[i], t).place))
  {
    var items := ObjectItems(ObjectsOf(js, ms, t));
    assert items[i] in items;
  }

  // ----- Entries refer to each other

  /** A head and its revision, wherever sorting put them. */
  predicate Agree(heads: seq<Memory>, revisions: seq<Memory>) {
    && DistinctMemories(heads) && DistinctMemories(revisions) && DistinctRevisions(revisions)
    && |heads| == |revisions|
    && AllHaveRevision(heads, revisions)
  }

  lemma {:induction false} SortedRevisionsDiffer(input: Input)
    requires DistinctRevisions(input.revisions)
    ensures DistinctRevisions(SortedRevisions(input))
  {
    var revisions := SortedRevisions(input);
    var key := (m: Memory) => m.revisionId;
    assert Ordering.DistinctBy(input.revisions, key);
    Ordering.SortKeepsDistinct(input.revisions, RevisionLess(), key);
    forall i, j | 0 <= i < j < |revisions| ensures revisions[i].revisionId != revisions[j].revisionId {
      assert key(revisions[i]) != key(revisions[j]);
    }
  }

  lemma {:induction false} HasRevisionAnywhere(head: Memory, revisions: seq<Memory>, sorted: seq<Memory>)
    requires HasRevision(head, revisions) && forall m :: m in revisions ==> m in sorted
    ensures HasRevision(head, sorted)
  {
    var j :| 0 <= j < |revisions| && revisions[j].revisionId == head.revisionId
      && Normalized(revisions[j]) == Normalized(head);
    assert revisions[j] in sorted;
    var n :| 0 <= n < |sorted| && sorted[n] == revisions[j];
  }

  lemma {:induction false} SortedHaveRevisions(input: Input)
    requires AllHaveRevision(input.heads, input.revisions)
    ensures AllHaveRevision(SortedHeads(input), SortedRevisions(input))
  {
    var heads, revisions := SortedHeads(input), SortedRevisions(input);
    Ordering.SortHas(input.heads, HeadLess());
    Ordering.SortHas(input.revisions, RevisionLess());
    forall i | 0 <= i < |heads| ensures HasRevision(heads[i], revisions) {
      assert heads[i] in input.heads;
      var k :| 0 <= k < |input.heads| && input.heads[k] == heads[i];
      HasRevisionAnywhere(input.heads[k], input.revisions, revisions);
    }
  }

  lemma {:induction false} SortedAgree(input: Input)
    requires Agree(input.heads, input.revisions)
    ensures Agree(SortedHeads(input), SortedRevisions(input))
  {
    SnapshotKeys.SortedAreDistinct(input.heads, HeadLess());
    SnapshotKeys.SortedAreDistinct(input.revisions, RevisionLess());
    SortedRevisionsDiffer(input);
    SortedHaveRevisions(input);
  }

  /** The revision a head's entry refers to. */
  lemma {:induction false} RevisionOfHead(heads: seq<Memory>, revisions: seq<Memory>, i: nat) returns (j: nat)
    requires Agree(heads, revisions) && i < |heads|
    ensures j < |revisions| && LastRevision(revisions, heads[i].revisionId) == Some(j)
    ensures LastRevision(revisions, revisions[j].revisionId) == Some(j)
    ensures Normalized(revisions[j]) == Normalized(heads[i]) && revisions[j].revisionId == heads[i].revisionId
  {
    assert HasRevision(heads[i], revisions);
    j :| 0 <= j < |revisions| && revisions[j].revisionId == heads[i].revisionId
      && Normalized(revisions[j]) == Normalized(heads[i]);
    LastRevisionIsFound(revisions, j);
  }

  lemma {:induction false} EntryHasRevision(
    js: Platform, root: Root, heads: seq<Memory>, revisions: seq<Memory>, i: nat)
    requires Agree(heads, revisions) && AllEncodable(heads) && AllEncodable(revisions)
    requires AllFound(heads, revisions) && AllFound(revisions, revisions) && i < |heads|
    ensures HasRevisionEntry(IndexEntries(js, root, heads, revisions)[i], RevisionEntries(js, root, revisions))
  {
    var j := RevisionOfHead(heads, revisions, i);
    var e, r := IndexEntries(js, root, heads, revisions)[i], RevisionEntries(js, root, revisions)[j];
    assert Normalized(revisions[j]).memoryId == Normalized(heads[i]).memoryId;
    assert r.memoryId == e.memoryId && r.revisionId == e.revisionId && r.revisionKey == e.revisionKey;
  }

  lemma {:induction false} MemoriesAreThere(
    js: Platform, root: Root, ws: seq<Write>, heads: seq<Memory>, revisions: seq<Memory>)
    requires Agree(heads, revisions) && AllEncodable(heads) && AllEncodable(revisions)
    requires AllFound(heads, revisions) && AllFound(revisions, revisions)
    requires Covers(ws, root, ObjectItems(ObjectsOf(js, heads, HeadObject)))
    requires Covers(ws, root, ObjectItems(ObjectsOf(js, revisions, RevisionObject)))
    ensures MemoriesAreSound(ws, IndexEntries(js, root, heads, revisions), RevisionEntries(js, root, revisions))
  {
    var entries := IndexEntries(js, root, heads, revisions);
    forall i | 0 <= i < |entries| ensures EntryIsSound(ws, entries[i], RevisionEntries(js, root, revisions)) {
      EntryHasRevision(js, root, heads, revisions, i);
      ObjectsAreThere(js, root, ws, heads, HeadObject, i);
      ObjectsAreThere(js, root, ws, revisions, RevisionObject, LastRevision(revisions, heads[i].revisionId).value);
    }
  }

  lemma {:induction false} RevisionsAreThere(js: Platform, root: Root, ws: seq<Write>, revisions: seq<Memory>)
    requires DistinctRevisions(revisions) && AllEncodable(revisions) && AllFound(revisions, revisions)
    requires Covers(ws, root, ObjectItems(ObjectsOf(js, revisions, RevisionObject)))
    ensures RevisionsAreSound(ws, RevisionEntries(js, root, revisions))
  {
    var entries := RevisionEntries(js, root, revisions);
    forall i | 0 <= i < |entries| ensures HasKey(ws, entries[i].revisionKey) {
      ObjectsAreThere(js, root, ws, revisions, RevisionObject, LastRevision(revisions, revisions[i].revisionId).value);
    }
  }

  // ----- Everything but the objects is always valid

  lemma {:induction false} WrittenIsSound(js: Platform, root: Root, items: seq<Item>, last: Item)
    ensures WritesAreSound(js, Prefix(root), PlanWrites(js, root, items, last))
  {
    var ws := PlanWrites(js, root, items, last);
    forall i | 0 <= i < |ws| ensures WriteIsSound(js, Prefix(root), ws[i]) {
      var item := WrittenIsItem(js, root, items, last, ws[i]);
      KeyStartsWithPrefix(root, item.place);
    }
  }

  lemma {:induction false} ManifestIsFound(js: Platform, root: Root, items: seq<Item>, last: Item)
    requires WellFormedRoot(root) && IsPlanOf(items, last)
    ensures FirstWith(PlanWrites(js, root, items, last), Key(root, Manifest)) == Some(WriteOf(js, root, last))
  {
    var ws := PlanWrites(js, root, items, last);
    ItemIsWritten(js, root, items, last, last);
    PlanKeysAreInOrder(js, root, items, last);
    var found := FirstWith(ws, Key(root, Manifest));
    var i :| 0 <= i < |ws| && ws[i] == WriteOf(js, root, last);
    var j :| 0 <= j < |ws| && ws[j] == found.value;
    assert i == j;
  }

  lemma {:induction false} FilesAreListed(js: Platform, root: Root, items: seq<Item>, last: Item)
    requires WellFormedRoot(root) && IsPlanOf(items, last)
    ensures SnapshotKeys.Others(PlanWrites(js, root, items, last), Key(root, Manifest))
      == SortedWrites(WritesOf(js, root, items))
  {
    var files := SortedWrites(WritesOf(js, root, items));
    FilesAscend(js, root, items);
    forall i | 0 <= i < |files| ensures files[i].key != Key(root, Manifest) {
      assert files[i] in files;
    }
    SnapshotKeys.OthersAreTheFiles(files, WriteOf(js, root, last));
  }

  lemma {:induction false} IndexesAreThere(js: Platform, root: Root, input: Input, ws: seq<Write>)
    requires IsReady(root, input) && Covers(ws, root, Items(js, root, input))
    ensures HasRequiredIndexes(ws, root, Entries(js, root, input))
  {
    var heads, entries := SortedHeads(input), Entries(js, root, input);
    CoversGroups(js, root, input, ws);
    DualIndexesAreThere(js, root, input, ws, heads, entries, Kind, KINDS);
    DualIndexesAreThere(js, root, input, ws, heads, entries, Class, CLASSES);
    StatusIndexesAreThere(js, root, input, ws, heads, entries);
    ScopeIndexesAreThere(js, root, input, ws, heads, entries);
  }

  lemma {:induction false} EntriesAreThere(js: Platform, root: Root, input: Input, ws: seq<Write>)
    requires IsComplete(input) && Agree(input.heads, input.revisions) && Covers(ws, root, Items(js, root, input))
    ensures var revisions := RevisionEntries(js, root, SortedRevisions(input));
      && MemoriesAreSound(ws, Entries(js, root, input), revisions) && RevisionsAreSound(ws, revisions)
      && HasKey(ws, Key(root, Readme)) && |Entries(js, root, input)| == |revisions|
  {
    CoversGroups(js, root, input, ws);
    SortedAgree(input);
    MemoriesAreThere(js, root, ws, SortedHeads(input), SortedRevisions(input));
    RevisionsAreThere(js, root, ws, SortedRevisions(input));
    var readme := ReadmeItem(input, |SortedHeads(input)|, |SortedRevisions(input)|);
    assert readme in [readme];
  }

  lemma {:induction false} BuiltManifestIsSound(js: Platform, root: Root, input: Input, files: seq<Write>, plan: Plan)
    requires IsReady(root, input) && Agree(input.heads, input.revisions)
    requires Covers(plan.writes, root, Items(js, root, input))
    requires files == SnapshotKeys.Others(plan.writes, plan.manifestKey)
    requires plan.projectId == input.projectId && plan.projectVersion == input.projectVersion
      && plan.snapshotId == input.snapshotId
    ensures ManifestIsSound(plan, root, ManifestOf(js, root, input, files))
  {
    IndexesAreThere(js, root, input, plan.writes);
    EntriesAreThere(js, root, input, plan.writes);
  }

  lemma {:induction false} PlanIsSound(js: Platform, root: Root, items: seq<Item>, last: Item, plan: Plan)
    requires WellFormedRoot(root) && IsPlanOf(items, last) && plan.writes == PlanWrites(js, root, items, last)
    ensures KeysAscend(plan.writes) && SnapshotCheck.KeysDiffer(plan.writes)
      && WritesAreSound(js, Prefix(root), plan.writes)
  {
    PlanKeysAreInOrder(js, root, items, last);
    WrittenIsSound(js, root, items, last);
  }

  lemma {:induction false} PlanIsPlan(js: Platform, root: Root, input: Input, files: seq<Write>, last: Item)
    requires IsReady(root, input) && files == SortedWrites(WritesOf(js, root, Items(js, root, input)))
    requires last == ManifestItem(js, ManifestOf(js, root, input, files))
    ensures IsPlanOf(Items(js, root, input), last)
    ensures PlanFrom(js, root, input, files).writes == PlanWrites(js, root, Items(js, root, input), last)
  {
    SnapshotKeys.ItemsInOrder(js, root, input);
  }

  lemma {:induction false} PlanIsInventoried(js: Platform, root: Root, input: Input, files: seq<Write>)
    requires IsLawful(js) && IsReady(root, input) && Agree(input.heads, input.revisions)
    requires files == SortedWrites(WritesOf(js, root, Items(js, root, input)))
    ensures PlanHasManifest(js, PlanFrom(js, root, input, files), root)
  {
    var items, plan := Items(js, root, input), PlanFrom(js, root, input, files);
    var d := ManifestOf(js, root, input, files);
    var last := ManifestItem(js, d);
    PlanIsPlan(js, root, input, files, last);
    ManifestIsFound(js, root, items, last);
    FilesAreListed(js, root, items, last);
    PlanCovers(js, root, items, last);
    BuiltManifestIsSound(js, root, input, files, plan);
    assert js.parse(js.stringify(d) + [NEWLINE]) == Some(d);
  }

  /** A plan the builder returns can only fail the check of its objects. */
  lemma {:induction false} OnlyObjectsCanFail(js: Platform, input: Input)
    requires IsLawful(js) && IsBuildable(input)
    ensures PlanIsValid(js, PlanOf(js, input)) <==> ObjectsAreSound(js, PlanOf(js, input).writes)
  {
    BuildableIsReady(input);
    var root, plan := InputRoot(input), PlanOf(js, input);
    var files := SortedWrites(WritesOf(js, root, Items(js, root, input)));
    var last := ManifestItem(js, ManifestOf(js, root, input, files));
    assert plan == PlanFrom(js, root, input, files);
    RevisionsAreOfDistinctMemories(input.heads, input.revisions);
    PlanIsPlan(js, root, input, files, last);
    PlanIsSound(js, root, Items(js, root, input), last, plan);
    PlanIsInventoried(js, root, input, files);
  }

  // ----- When the objects are valid

  predicate IsReservedWord(s: string) {
    s == "objects" || s == "revisions"
  }

  predicate IsReserved(id: Text) {
    id == Lit("objects") || id == Lit("revisions")
  }

  lemma {:induction false} ReservedIffWord(id: Text)
    requires Segment(id).Some?
    ensures IsReserved(id) <==> IsReservedWord(Segment(id).value)
  {
    WordSegment("objects");
    WordSegment("revisions");
    if Segment(id).value == "objects" {
      SegmentInjective(id, Lit("objects"));
    }
    if Segment(id).value == "revisions" {
      SegmentInjective(id, Lit("revisions"));
    }
  }

  /** Which keys are taken for those of memory objects. */
  lemma {:induction false} LooksLikeObjectIff(root: Root, p: Place)
    requires WellFormedRoot(root) && IsPlace(p)
    ensures LooksLikeObject(Key(root, p)) <==>
      || p.Head? || p.Revision? || IsReservedWord(root.project) || IsReservedWord(root.snapshot)
      || (p.Index? && IsReservedWord(p.value))
  {
    KeyIncludes(root, p, "objects");
    KeyIncludes(root, p, "revisions");
  }

  predicate HeadIsHonest(js: Platform, m: Memory)
    requires IsEncodable(m)
  {
    IsHonest(js.sha256, MemoryFields(m, Segment(m.projectId).value, Segment(m.memoryId).value), m.content)
  }

  lemma {:induction false} ObjectIsSoundIffHonest(js: Platform, m: Memory, t: ObjectType)
    requires IsEncodable(m)
    ensures EnvelopeIsValid(js.sha256, ObjectOf(js, m, t).body) <==> HeadIsHonest(js, m)
    ensures Opened(ObjectOf(js, m, t).body).Some? && Opened(ObjectOf(js, m, t).body).value.content == m.content
  {
    var fs := MemoryFields(m, Segment(m.projectId).value, Segment(m.memoryId).value);
    MemoryFieldsAreGood(m, Segment(m.projectId).value, Segment(m.memoryId).value);
    ObjectReadsBack(js.sha256, fs, t, m.content);
  }

  lemma {:induction false} NoEnvelope(js: Platform, body: Text)
    requires body != [] && body[0] != DASH
    ensures !EnvelopeIsValid(js.sha256, body)
  {
    if |body| >= |START| {
      assert body[..|START|][0] != START[0];
    }
  }

  /** What a caller can check before the plan is built. */
  predicate IsUnambiguous(js: Platform, input: Input)
    requires AllEncodable(input.heads)
  {
    && !IsReserved(input.projectId) && !IsReserved(input.snapshotId)
    && forall i :: 0 <= i < |input.heads| ==> !IsReserved(input.heads[i].scopeId) && HeadIsHonest(js, input.heads[i])
  }

  // An ambiguous input gives an invalid plan.

  ghost predicate ItemsAreSound(js: Platform, root: Root, items: seq<Item>) {
    forall item :: item in items && LooksLikeObject(Key(root, item.place)) ==> EnvelopeIsValid(js.sha256, item.body)
  }

  lemma {:induction false} WritesSoundIffItems(js: Platform, root: Root, items: seq<Item>, last: Item)
    ensures ObjectsAreSound(js, PlanWrites(js, root, items, last)) <==> ItemsAreSound(js, root, items + [last])
  {
    var ws := PlanWrites(js, root, items, last);
    if ObjectsAreSound(js, ws) {
      forall item | item in items + [last] && LooksLikeObject(Key(root, item.place))
        ensures EnvelopeIsValid(js.sha256, item.body)
      {
        ItemIsWritten(js, root, items, last, item);
        var k :| 0 <= k < |ws| && ws[k] == WriteOf(js, root, item);
        assert LooksLikeObject(ws[k].key);
      }
    }
    if ItemsAreSound(js, root, items + [last]) {
      forall k | 0 <= k < |ws| && LooksLikeObject(ws[k].key) ensures EnvelopeIsValid(js.sha256, ws[k].body) {
        var item := WrittenIsItem(js, root, items, last, ws[k]);
        assert item in items + [last];
      }
    }
  }

  lemma {:induction false} ReadmeTellsReserved(js: Platform, root: Root, input: Input, items: seq<Item>)
    requires WellFormedRoot(root) && ItemsAreSound(js, root, items)
    requires ReadmeItem(input, |input.heads|, |input.revisions|) in items
    ensures !IsReservedWord(root.project) && !IsReservedWord(root.snapshot)
  {
    var readme := ReadmeItem(input, |input.heads|, |input.revisions|);
    LooksLikeObjectIff(root, Readme);
    NoEnvelope(js, readme.body);
  }

  lemma {:induction false} ScopeTellsReserved(
    js: Platform, root: Root, input: Input, heads: seq<Memory>, entries: seq<IndexEntry>, scope: Text, items: seq<Item>)
    requires IsLawful(js) && WellFormedRoot(root) && ItemsAreSound(js, root, items)
    requires |heads| == |entries| && HasScopeKey(root, scope) && ScopeItem(js, input, heads, entries, scope) in items
    ensures !IsReserved(scope)
  {
    var item := ScopeItem(js, input, heads, entries, scope);
    LooksLikeObjectIff(root, item.place);
    ReservedIffWord(scope);
    NoEnvelope(js, item.body);
  }

  lemma {:induction false} HeadTellsHonest(js: Platform, root: Root, heads: seq<Memory>, i: nat, items: seq<Item>)
    requires WellFormedRoot(root) && ItemsAreSound(js, root, items) && AllEncodable(heads) && i < |heads|
    requires ObjectItems(ObjectsOf(js, heads, HeadObject))[i] in items
    ensures HeadIsHonest(js, heads[i])
  {
    SnapshotKeys.ObjectPlace(js, heads[i], HeadObject);
    LooksLikeObjectIff(root, ObjectOf(js, heads[i], HeadObject).place);
    ObjectIsSoundIffHonest(js, heads[i], HeadObject);
  }

  ghost predicate Has(items: seq<Item>, part: seq<Item>) {
    forall item :: item in part ==> item in items
  }

  lemma {:induction false} HasGroups(js: Platform, root: Root, input: Input)
    requires IsComplete(input)
    ensures var items, heads, entries := Items(js, root, input), SortedHeads(input), Entries(js, root, input);
      && Has(items, ObjectItems(ObjectsOf(js, heads, HeadObject)))
      && ReadmeItem(input, |input.heads|, |input.revisions|) in items
      && Has(items, ScopeItems(js, input, heads, entries, SortedScopes(heads)))
  {
  }

  /** What the objects of sound items say about their scopes and heads. */
  lemma {:induction false} SoundHead(
    js: Platform, root: Root, input: Input, heads: seq<Memory>, entries: seq<IndexEntry>, items: seq<Item>, k: nat)
    requires IsLawful(js) && WellFormedRoot(root) && ItemsAreSound(js, root, items)
    requires AllEncodable(heads) && |heads| == |entries| && k < |heads|
    requires SnapshotKeys.AllHaveKeys(root, SortedScopes(heads))
    requires Has(items, ObjectItems(ObjectsOf(js, heads, HeadObject)))
    requires Has(items, ScopeItems(js, input, heads, entries, SortedScopes(heads)))
    ensures !IsReserved(heads[k].scopeId) && HeadIsHonest(js, heads[k])
  {
    var scopes := SortedScopes(heads);
    SnapshotKeys.ScopesAreDistinct(heads);
    assert ObjectItems(ObjectsOf(js, heads, HeadObject))[k] in items;
    HeadTellsHonest(js, root, heads, k, items);
    assert heads[k].scopeId in scopes;
    var n :| 0 <= n < |scopes| && scopes[n] == heads[k].scopeId;
    assert HasScopeKey(root, scopes[n]);
    assert ScopeItems(js, input, heads, entries, scopes)[n] in items;
    ScopeTellsReserved(js, root, input, heads, entries, scopes[n], items);
  }

  lemma {:induction false} SoundRoot(js: Platform, input: Input, items: seq<Item>)
    requires Segment(input.projectId).Some? && Segment(input.snapshotId).Some?
    requires ItemsAreSound(js, InputRoot(input), items)
    requires ReadmeItem(input, |input.heads|, |input.revisions|) in items
    ensures !IsReserved(input.projectId) && !IsReserved(input.snapshotId)
  {
    ReadmeTellsReserved(js, InputRoot(input), input, items);
    ReservedIffWord(input.projectId);
    ReservedIffWord(input.snapshotId);
  }

  lemma {:induction false} SoundHeads(
    js: Platform, root: Root, input: Input, heads: seq<Memory>, entries: seq<IndexEntry>, items: seq<Item>)
    requires IsLawful(js) && WellFormedRoot(root) && ItemsAreSound(js, root, items)
    requires AllEncodable(heads) && |heads| == |entries| && SnapshotKeys.AllHaveKeys(root, SortedScopes(heads))
    requires Has(items, ObjectItems(ObjectsOf(js, heads, HeadObject)))
    requires Has(items, ScopeItems(js, input, heads, entries, SortedScopes(heads)))
    requires AllEncodable(input.heads) && forall m :: m in input.heads ==> m in heads
    ensures forall i :: 0 <= i < |input.heads| ==>
      !IsReserved(input.heads[i].scopeId) && HeadIsHonest(js, input.heads[i])
  {
    forall i | 0 <= i < |input.heads| ensures !IsReserved(input.heads[i].scopeId) && HeadIsHonest(js, input.heads[i]) {
      assert input.heads[i] in heads;
      var k :| 0 <= k < |heads| && heads[k] == input.heads[i];
      SoundHead(js, root, input, heads, entries, items, k);
    }
  }

  lemma {:induction false} SoundIsUnambiguous(js: Platform, input: Input)
    requires IsLawful(js) && IsBuildable(input) && IsReady(InputRoot(input), input)
    requires ItemsAreSound(js, InputRoot(input), Items(js, InputRoot(input), input))
    ensures IsUnambiguous(js, input)
  {
    var root := InputRoot(input);
    var items := Items(js, root, input);
    HasGroups(js, root, input);
    SoundRoot(js, input, items);
    Ordering.SortHas(input.heads, HeadLess());
    SoundHeads(js, root, input, SortedHeads(input), Entries(js, root, input), items);
  }

  // An unambiguous input gives a valid plan.

  lemma {:induction false} WordsAreNotReserved(s: string)
    requires s in KINDS || s in CLASSES || s in STATUSES
    ensures !IsReservedWord(s)
  {
  }

  lemma {:induction false} ObjectItemIsSound(js: Platform, ms: seq<Memory>, t: ObjectType, i: nat)
    requires AllEncodable(ms) && i < |ms| && HeadIsHonest(js, ms[i])
    ensures EnvelopeIsValid(js.sha256, ObjectItems(ObjectsOf(js, ms, t))[i].body)
  {
    ObjectIsSoundIffHonest(js, ms[i], t);
  }

  lemma {:induction false} ObjectItemsAreSound(js: Platform, root: Root, ms: seq<Memory>, t: ObjectType)
    requires AllEncodable(ms) && forall i :: 0 <= i < |ms| ==> HeadIsHonest(js, ms[i])
    ensures ItemsAreSound(js, root, ObjectItems(ObjectsOf(js, ms, t)))
  {
    var items := ObjectItems(ObjectsOf(js, ms, t));
    forall item | item in items ensures EnvelopeIsValid(js.sha256, item.body) {
      var i :| 0 <= i < |items| && items[i] == item;
      ObjectItemIsSound(js, ms, t, i);
    }
  }

  predicate IsOrdinary(root: Root) {
    WellFormedRoot(root) && !IsReservedWord(root.project) && !IsReservedWord(root.snapshot)
  }

  predicate IsNoObject(p: Place) {
    !p.Head? && !p.Revision? && (p.Index? ==> !IsReservedWord(p.value))
  }

  lemma {:induction false} OrdinaryItemsAreSound(js: Platform, root: Root, items: seq<Item>)
    requires IsOrdinary(root)
    requires forall i :: 0 <= i < |items| ==> IsPlace(items[i].place) && IsNoObject(items[i].place)
    ensures ItemsAreSound(js, root, items)
  {
    forall item | item in items ensures !LooksLikeObject(Key(root, item.place)) {
      var i :| 0 <= i < |items| && items[i] == item;
      LooksLikeObjectIff(root, items[i].place);
    }
  }

  lemma {:induction false} DualItemsAreSound(
    js: Platform, root: Root, input: Input, heads: seq<Memory>, entries: seq<IndexEntry>, d: Dimension,
      names: seq<string>)
    requires IsOrdinary(root) && |heads| == |entries|
    requires forall i :: 0 <= i < |names| ==> IsWord(names[i]) && !IsReservedWord(names[i])
    ensures ItemsAreSound(js, root, DualItems(js, input, heads, entries, d, names))
  {
    var items := DualItems(js, input, heads, entries, d, names);
    forall i | 0 <= i < |items|
      ensures items[i].place == Index(Directory(d), names[i / 2], if i % 2 == 0 then "index.json" else "index.md")
      ensures IsPlace(items[i].place)
    {
      SnapshotKeys.WordIsSegment(names[i / 2]);
    }
    OrdinaryItemsAreSound(js, root, items);
  }

  lemma {:induction false} StatusItemsAreSound(
    js: Platform, root: Root, input: Input, heads: seq<Memory>, entries: seq<IndexEntry>)
    requires IsOrdinary(root) && |heads| == |entries|
    ensures ItemsAreSound(js, root, StatusItems(js, input, heads, entries))
  {
    var items := StatusItems(js, input, heads, entries);
    OtherWords();
    forall i | 0 <= i < |items|
      ensures items[i].place == Index("by-status", STATUSES[i], "index.json") && IsPlace(items[i].place)
      ensures !IsReservedWord(STATUSES[i])
    {
      SnapshotKeys.WordIsSegment(STATUSES[i]);
      WordsAreNotReserved(STATUSES[i]);
    }
    OrdinaryItemsAreSound(js, root, items);
  }

  lemma {:induction false} IndexItemsAreSound(
    js: Platform, root: Root, input: Input, heads: seq<Memory>, entries: seq<IndexEntry>)
    requires IsOrdinary(root) && |heads| == |entries|
    ensures ItemsAreSound(js, root, IndexItems(js, input, heads, entries))
  {
    KindsAreWords();
    OtherWords();
    forall i | 0 <= i < |KINDS| ensures !IsReservedWord(KINDS[i]) {
      WordsAreNotReserved(KINDS[i]);
    }
    forall i | 0 <= i < |CLASSES| ensures !IsReservedWord(CLASSES[i]) {
      WordsAreNotReserved(CLASSES[i]);
    }
    DualItemsAreSound(js, root, input, heads, entries, Kind, KINDS);
    DualItemsAreSound(js, root, input, heads, entries, Class, CLASSES);
    StatusItemsAreSound(js, root, input, heads, entries);
  }

  lemma {:induction false} ScopeItemsAreSound(
    js: Platform, root: Root, input: Input, heads: seq<Memory>, entries: seq<IndexEntry>, scopes: seq<Text>)
    requires IsOrdinary(root) && |heads| == |entries| && SnapshotKeys.AllHaveKeys(root, scopes)
    requires forall i :: 0 <= i < |scopes| ==> !IsReserved(scopes[i])
    ensures ItemsAreSound(js, root, ScopeItems(js, input, heads, entries, scopes))
  {
    var items := ScopeItems(js, input, heads, entries, scopes);
    forall i | 0 <= i < |items| ensures items[i].place == ScopePlace(scopes[i]) && IsPlace(items[i].place)
      ensures !IsReservedWord(items[i].place.value)
    {
      assert HasScopeKey(root, scopes[i]);
      ReservedIffWord(scopes[i]);
    }
    OrdinaryItemsAreSound(js, root, items);
  }

  lemma {:induction false} SoundParts(js: Platform, root: Root, a: seq<Item>, b: seq<Item>)
    requires ItemsAreSound(js, root, a) && ItemsAreSound(js, root, b)
    ensures ItemsAreSound(js, root, a + b)
  {
  }

  lemma {:induction false} GroupsAreSound(
    js: Platform, root: Root, input: Input, heads: seq<Memory>, revisions: seq<Memory>, entries: seq<IndexEntry>)
    requires IsOrdinary(root) && |heads| == |entries| && AllEncodable(heads) && AllEncodable(revisions)
    requires SnapshotKeys.AllHaveKeys(root, SortedScopes(heads))
    requires forall i :: 0 <= i < |heads| ==> HeadIsHonest(js, heads[i]) && !IsReserved(heads[i].scopeId)
    requires forall i :: 0 <= i < |revisions| ==> HeadIsHonest(js, revisions[i])
    ensures ItemsAreSound(js, root,
      ObjectItems(ObjectsOf(js, heads, HeadObject)) + ObjectItems(ObjectsOf(js, revisions, RevisionObject))
      + [ReadmeItem(input, |heads|, |revisions|)] + IndexItems(js, input, heads, entries)
      + ScopeItems(js, input, heads, entries, SortedScopes(heads)))
  {
    var a := ObjectItems(ObjectsOf(js, heads, HeadObject));
    var b := ObjectItems(ObjectsOf(js, revisions, RevisionObject));
    var c := [ReadmeItem(input, |heads|, |revisions|)];
    var d := IndexItems(js, input, heads, entries);
    var scopes := SortedScopes(heads);
    ObjectItemsAreSound(js, root, heads, HeadObject);
    ObjectItemsAreSound(js, root, revisions, RevisionObject);
    OrdinaryItemsAreSound(js, root, c);
    IndexItemsAreSound(js, root, input, heads, entries);
    SnapshotKeys.ScopesAreDistinct(heads);
    forall i | 0 <= i < |scopes| ensures !IsReserved(scopes[i]) {
      assert scopes[i] in scopes;
    }
    ScopeItemsAreSound(js, root, input, heads, entries, scopes);
    SoundParts(js, root, a, b);
    SoundParts(js, root, a + b, c);
    SoundParts(js, root, a + b + c, d);
    SoundParts(js, root, a + b + c + d, ScopeItems(js, input, heads, entries, scopes));
  }

  /** A revision quotes the same identifiers as its head. */
  lemma {:induction false} SameFields(a: Memory, b: Memory)
    requires IsEncodable(a) && IsEncodable(b) && Normalized(a) == Normalized(b)
    ensures a.projectId == b.projectId && a.memoryId == b.memoryId && a.content == b.content
    ensures MemoryFields(a, Segment(a.projectId).value, Segment(a.memoryId).value)
      == MemoryFields(b, Segment(b.projectId).value, Segment(b.memoryId).value)
  {
    var x, y := Normalized(a), Normalized(b);
    assert x.projectId == y.projectId && x.memoryId == y.memoryId && x.content == y.content;
    assert x.projectVersion == y.projectVersion && x.revisionId == y.revisionId && x.memoryVersion == y.memoryVersion;
    assert x.kind == y.kind && x.memoryClass == y.memoryClass && x.scope == y.scope && x.scopeId == y.scopeId;
    assert x.status == y.status && x.validFrom == y.validFrom && x.validUntil == y.validUntil;
    assert x.evidenceIds == y.evidenceIds;
  }

  lemma {:induction false} RevisionsAreHonest(js: Platform, input: Input)
    requires ValidInput(input) && AllEncodable(input.heads) && AllEncodable(input.revisions)
    requires forall i :: 0 <= i < |input.heads| ==> HeadIsHonest(js, input.heads[i])
    ensures forall i :: 0 <= i < |input.revisions| ==> HeadIsHonest(js, input.revisions[i])
  {
    forall i | 0 <= i < |input.revisions| ensures HeadIsHonest(js, input.revisions[i]) {
      assert IsCurrent(input.revisions[i], input.heads);
      var k :| 0 <= k < |input.heads| && input.heads[k].memoryId == input.revisions[i].memoryId
        && input.heads[k].revisionId == input.revisions[i].revisionId;
      assert HasRevision(input.heads[k], input.revisions);
      var j :| 0 <= j < |input.revisions| && input.revisions[j].revisionId == input.heads[k].revisionId
        && Normalized(input.revisions[j]) == Normalized(input.heads[k]);
      assert j == i;
      SameFields(input.revisions[i], input.heads[k]);
    }
  }

  lemma {:induction false} SortedHeadsAreHonest(js: Platform, input: Input)
    requires AllEncodable(input.heads) && AllEncodable(SortedHeads(input)) && IsUnambiguous(js, input)
    ensures var heads := SortedHeads(input);
      forall i :: 0 <= i < |heads| ==> HeadIsHonest(js, heads[i]) && !IsReserved(heads[i].scopeId)
  {
    var heads := SortedHeads(input);
    Ordering.SortHas(input.heads, HeadLess());
    forall i | 0 <= i < |heads| ensures HeadIsHonest(js, heads[i]) && !IsReserved(heads[i].scopeId) {
      assert heads[i] in input.heads;
    }
  }

  lemma {:induction false} SortedRevisionsAreHonest(js: Platform, input: Input)
    requires ValidInput(input) && AllEncodable(input.heads) && AllEncodable(input.revisions)
    requires AllEncodable(SortedRevisions(input)) && IsUnambiguous(js, input)
    ensures var revisions := SortedRevisions(input); forall i :: 0 <= i < |revisions| ==> HeadIsHonest(js, revisions[i])
  {
    var revisions := SortedRevisions(input);
    RevisionsAreHonest(js, input);
    Ordering.SortHas(input.revisions, RevisionLess());
    forall i | 0 <= i < |revisions| ensures HeadIsHonest(js, revisions[i]) {
      assert revisions[i] in input.revisions;
    }
  }

  lemma {:induction false} UnambiguousIsSound(js: Platform, input: Input)
    requires IsBuildable(input) && IsReady(InputRoot(input), input) && IsUnambiguous(js, input)
    ensures ItemsAreSound(js, InputRoot(input), Items(js, InputRoot(input), input))
  {
    var root := InputRoot(input);
    ReservedIffWord(input.projectId);
    ReservedIffWord(input.snapshotId);
    SortedHeadsAreHonest(js, input);
    SortedRevisionsAreHonest(js, input);
    GroupsAreSound(js, root, input, SortedHeads(input), SortedRevisions(input), Entries(js, root, input));
  }

  function AllItems(js: Platform, input: Input): seq<Item>
    requires Segment(input.projectId).Some? && Segment(input.snapshotId).Some? && IsComplete(input)
  {
    var root := InputRoot(input);
    var files := SortedWrites(WritesOf(js, root, Items(js, root, input)));
    Items(js, root, input) + [ManifestItem(js, ManifestOf(js, root, input, files))]
  }

  lemma {:induction false} ValidIffItemsAreSound(js: Platform, input: Input)
    requires IsLawful(js) && IsBuildable(input) && IsReady(InputRoot(input), input)
    ensures PlanIsValid(js, PlanOf(js, input)) <==> ItemsAreSound(js, InputRoot(input), AllItems(js, input))
  {
    OnlyObjectsCanFail(js, input);
    var root := InputRoot(input);
    var items := Items(js, root, input);
    var files := SortedWrites(WritesOf(js, root, items));
    var last := ManifestItem(js, ManifestOf(js, root, input, files));
    PlanIsPlan(js, root, input, files, last);
    WritesSoundIffItems(js, root, items, last);
  }

  lemma {:induction false} ManifestIsNoObject(js: Platform, input: Input, d: Document)
    requires Segment(input.projectId).Some? && Segment(input.snapshotId).Some?
    requires !IsReserved(input.projectId) && !IsReserved(input.snapshotId)
    ensures ItemsAreSound(js, InputRoot(input), [ManifestItem(js, d)])
  {
    ReservedIffWord(input.projectId);
    ReservedIffWord(input.snapshotId);
    OrdinaryItemsAreSound(js, InputRoot(input), [ManifestItem(js, d)]);
  }

  /**
   * Main result: the plan built for an input passes the validator if and only if no project, snapshot or scope is named
   * like an object directory, and no quoted identifier holds a line that passes for another checksum.
   */
  lemma {:induction false} BuiltPlanIsValidIff(js: Platform, input: Input)
    requires IsLawful(js) && IsBuildable(input)
    ensures PlanIsValid(js, PlanOf(js, input)) <==> IsUnambiguous(js, input)
  {
    BuildableIsReady(input);
    ValidIffItemsAreSound(js, input);
    var root := InputRoot(input);
    var items, all := Items(js, root, input), AllItems(js, input);
    if IsUnambiguous(js, input) {
      UnambiguousIsSound(js, input);
      var files := SortedWrites(WritesOf(js, root, items));
      ManifestIsNoObject(js, input, ManifestOf(js, root, input, files));
      SoundParts(js, root, items, [ManifestItem(js, ManifestOf(js, root, input, files))]);
    }
    if ItemsAreSound(js, root, all) {
      SoundFront(js, root, items, all[|all| - 1]);
      SoundIsUnambiguous(js, input);
    }
  }

  lemma {:induction false} SoundFront(js: Platform, root: Root, items: seq<Item>, last: Item)
    requires ItemsAreSound(js, root, items + [last])
    ensures ItemsAreSound(js, root, items)
  {
    forall item | item in items && LooksLikeObject(Key(root, item.place))
      ensures EnvelopeIsValid(js.sha256, item.body) {
      assert item in items + [last];
    }
  }
}
