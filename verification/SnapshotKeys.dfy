/** Keys of a plan: every file has its own, in strict order, and their number is known beforehand. */
module SnapshotKeys {
  import opened Common
  import opened JsonText
  import opened ProjectionPaths
  import opened ProjectionEnvelope
  import opened SnapshotInput
  import opened SnapshotPlan
  import CanonicalJson
  import Ordering

  // ----- Every item has its own place

  /** The group in which an item is pushed. */
  function Group(p: Place): nat {
    match p
    case Head(_, _) => 0
    case Revision(_, _, _) => 1
    case Readme => 2
    case Index(dimension, _, _) =>
      if dimension == "by-kind" then 3 else if dimension == "by-class" then 4 else if dimension == "by-status" then 5
        else 6
    case Manifest => 7
  }

  predicate Within(items: seq<Item>, low: nat, high: nat) {
    forall i :: 0 <= i < |items| ==> IsPlace(items[i].place) && low <= Group(items[i].place) < high
  }

  predicate DistinctPlaces(items: seq<Item>) {
    forall i, j :: 0 <= i < j < |items| ==> items[i].place != items[j].place
  }

  predicate InOrder(items: seq<Item>, low: nat, high: nat) {
    Within(items, low, high) && DistinctPlaces(items)
  }

  lemma {:induction false} Appended(a: seq<Item>, b: seq<Item>, low: nat, middle: nat, high: nat)
    requires InOrder(a, low, middle) && InOrder(b, middle, high) && low <= middle <= high
    ensures InOrder(a + b, low, high)
  {
    var all := a + b;
    forall i, j | 0 <= i < j < |all| ensures all[i].place != all[j].place {
      if i < |a| <= j {
        assert all[i] == a[i] && all[j] == b[j - |a|];
        assert Group(a[i].place) < Group(b[j - |a|].place);
      }
    }
  }

  lemma {:induction false} HashOf(d: Digest)
    ensures IsHash(d[..2])
  {
  }

  lemma {:induction false} ObjectPlace(js: Platform, m: Memory, t: ObjectType)
    requires IsEncodable(m)
    ensures var p := ObjectOf(js, m, t).place;
      && IsPlace(p) && (t.HeadObject? ==> p.Head?) && (t.RevisionObject? ==> p.Revision?)
      && p == if t.HeadObject? then Head(p.hash, Segment(m.memoryId).value)
              else Revision(p.hash, Segment(m.memoryId).value, Segment(m.revisionId).value)
  {
    HashOf(js.sha256(m.memoryId));
  }

  lemma {:induction false} ObjectItemsInOrder(js: Platform, ms: seq<Memory>, t: ObjectType)
    requires AllEncodable(ms) && DistinctMemories(ms)
    ensures var g := if t.HeadObject? then 0 else 1; InOrder(ObjectItems(ObjectsOf(js, ms, t)), g, g + 1)
  {
    var items := ObjectItems(ObjectsOf(js, ms, t));
    forall i | 0 <= i < |items| ensures IsPlace(items[i].place) && Group(items[i].place) == if t.HeadObject? then 0
      else 1 {
      ObjectPlace(js, ms[i], t);
    }
    forall i, j | 0 <= i < j < |items| ensures items[i].place != items[j].place {
      ObjectPlace(js, ms[i], t);
      ObjectPlace(js, ms[j], t);
      if items[i].place == items[j].place {
        SegmentInjective(ms[i].memoryId, ms[j].memoryId);
      }
    }
  }

  predicate DistinctWords(names: seq<string>) {
    && (forall i :: 0 <= i < |names| ==> IsWord(names[i]))
    && (forall i, j :: 0 <= i < j < |names| ==> names[i] != names[j])
  }

  lemma {:induction false} KindsAreDistinct()
    ensures DistinctWords(KINDS)
  {
    KindsAreWords();
  }

  lemma {:induction false} OthersAreDistinct()
    ensures DistinctWords(CLASSES) && DistinctWords(STATUSES)
  {
    OtherWords();
  }

  lemma {:induction false} WordIsSegment(s: string)
    requires IsWord(s)
    ensures IsSegment(s)
  {
  }

  lemma {:induction false} DualItemsInOrder(
    js: Platform, input: Input, heads: seq<Memory>, entries: seq<IndexEntry>, d: Dimension, names: seq<string>)
    requires |heads| == |entries| && DistinctWords(names) && !d.Status?
    ensures var g := if d.Kind? then 3 else 4; InOrder(DualItems(js, input, heads, entries, d, names), g, g + 1)
  {
    var items := DualItems(js, input, heads, entries, d, names);
    forall i | 0 <= i < |items|
      ensures items[i].place == Index(Directory(d), names[i / 2], if i % 2 == 0 then "index.json" else "index.md")
      ensures IsPlace(items[i].place)
    {
      WordIsSegment(names[i / 2]);
    }
    forall i, j | 0 <= i < j < |items| ensures items[i].place != items[j].place {
      if i / 2 == j / 2 {
        assert i % 2 == 0 && j % 2 == 1;
        assert |"index.json"| != |"index.md"|;
      }
    }
  }

  lemma {:induction false} StatusItemsInOrder(js: Platform, input: Input, heads: seq<Memory>, entries: seq<IndexEntry>)
    requires |heads| == |entries|
    ensures InOrder(StatusItems(js, input, heads, entries), 5, 6)
  {
    OthersAreDistinct();
    var items := StatusItems(js, input, heads, entries);
    forall i | 0 <= i < |items| ensures items[i].place == Index("by-status", STATUSES[i], "index.json")
      && IsPlace(items[i].place) {
      WordIsSegment(STATUSES[i]);
    }
  }

  predicate AllHaveKeys(root: Root, scopes: seq<Text>) {
    forall i :: 0 <= i < |scopes| ==> HasScopeKey(root, scopes[i])
  }

  lemma {:induction false} ScopeItemsInOrder(
    js: Platform, root: Root, input: Input, heads: seq<Memory>, entries: seq<IndexEntry>, scopes: seq<Text>)
    requires |heads| == |entries| && AllHaveKeys(root, scopes)
    requires forall i, j :: 0 <= i < j < |scopes| ==> scopes[i] != scopes[j]
    ensures InOrder(ScopeItems(js, input, heads, entries, scopes), 6, 7)
  {
    var items := ScopeItems(js, input, heads, entries, scopes);
    forall i | 0 <= i < |items| ensures items[i].place == ScopePlace(scopes[i]) && IsPlace(items[i].place) {
      assert HasScopeKey(root, scopes[i]);
    }
    forall i, j | 0 <= i < j < |items| ensures items[i].place != items[j].place {
      assert HasScopeKey(root, scopes[i]) && HasScopeKey(root, scopes[j]);
      if items[i].place == items[j].place {
        SegmentInjective(scopes[i], scopes[j]);
      }
    }
  }

  lemma {:induction false} IndexItemsInOrder(js: Platform, input: Input, heads: seq<Memory>, entries: seq<IndexEntry>)
    requires |heads| == |entries|
    ensures InOrder(IndexItems(js, input, heads, entries), 3, 6)
  {
    KindsAreDistinct();
    OthersAreDistinct();
    var kinds := DualItems(js, input, heads, entries, Kind, KINDS);
    var classes := DualItems(js, input, heads, entries, Class, CLASSES);
    DualItemsInOrder(js, input, heads, entries, Kind, KINDS);
    DualItemsInOrder(js, input, heads, entries, Class, CLASSES);
    StatusItemsInOrder(js, input, heads, entries);
    Appended(kinds, classes, 3, 4, 5);
    Appended(kinds + classes, StatusItems(js, input, heads, entries), 3, 5, 6);
  }

  lemma {:induction false} DistinctIsDistinct(xs: seq<Text>)
    ensures Ordering.DistinctBy(Distinct(xs), (x: Text) => x)
  {
    if xs != [] {
      DistinctIsDistinct(xs[..|xs| - 1]);
    }
  }

  lemma {:induction false} ScopesAreDistinct(heads: seq<Memory>)
    ensures forall i, j :: 0 <= i < j < |SortedScopes(heads)| ==> SortedScopes(heads)[i] != SortedScopes(heads)[j]
    ensures forall s :: s in SortedScopes(heads) <==> exists i :: 0 <= i < |heads| && heads[i].scopeId == s
  {
    var scopes := ScopesOf(heads);
    DistinctIsDistinct(scopes);
    Ordering.SortKeepsDistinct(Distinct(scopes), TextLess(), (x: Text) => x);
    DistinctHas(scopes);
    Ordering.SortHas(Distinct(scopes), TextLess());
    forall s ensures s in SortedScopes(heads) <==> exists i :: 0 <= i < |heads| && heads[i].scopeId == s {
      if s in scopes {
        var i :| 0 <= i < |scopes| && scopes[i] == s;
        assert heads[i].scopeId == s;
      }
      if i :| 0 <= i < |heads| && heads[i].scopeId == s {
        assert scopes[i] == s;
      }
    }
  }

  lemma {:induction false} SortedAreDistinct(ms: seq<Memory>, less: (Memory, Memory) -> bool)
    requires DistinctMemories(ms)
    ensures DistinctMemories(Ordering.Sort(ms, less))
  {
    var key := (m: Memory) => m.memoryId;
    assert Ordering.DistinctBy(ms, key);
    Ordering.SortKeepsDistinct(ms, less, key);
    var sorted := Ordering.Sort(ms, less);
    forall i, j | 0 <= i < j < |sorted| ensures sorted[i].memoryId != sorted[j].memoryId {
      assert key(sorted[i]) != key(sorted[j]);
    }
  }

  lemma {:induction false} ScopesHaveKeys(root: Root, input: Input)
    requires forall i :: 0 <= i < |input.heads| ==> HasScopeKey(root, input.heads[i].scopeId)
    ensures AllHaveKeys(root, SortedScopes(SortedHeads(input)))
  {
    var scopes := SortedScopes(SortedHeads(input));
    ScopesAreDistinct(SortedHeads(input));
    Ordering.SortHas(input.heads, HeadLess());
    forall i | 0 <= i < |scopes| ensures HasScopeKey(root, scopes[i]) {
      assert scopes[i] in scopes;
      var k :| 0 <= k < |SortedHeads(input)| && SortedHeads(input)[k].scopeId == scopes[i];
      assert SortedHeads(input)[k] in input.heads;
    }
  }

  /** No two items of a plan are for the same place, and none is the manifest. */
  lemma {:induction false} ItemsInOrder(js: Platform, root: Root, input: Input)
    requires IsComplete(input) && DistinctMemories(input.heads) && DistinctMemories(input.revisions)
    requires AllHaveKeys(root, SortedScopes(SortedHeads(input)))
    ensures InOrder(Items(js, root, input), 0, 7)
  {
    var heads, revisions, entries := SortedHeads(input), SortedRevisions(input), Entries(js, root, input);
    SortedAreDistinct(input.heads, HeadLess());
    SortedAreDistinct(input.revisions, RevisionLess());
    var a := ObjectItems(ObjectsOf(js, heads, HeadObject));
    var b := ObjectItems(ObjectsOf(js, revisions, RevisionObject));
    var c := [ReadmeItem(input, |heads|, |revisions|)];
    var d := IndexItems(js, input, heads, entries);
    ObjectItemsInOrder(js, heads, HeadObject);
    ObjectItemsInOrder(js, revisions, RevisionObject);
    IndexItemsInOrder(js, input, heads, entries);
    ScopesAreDistinct(heads);
    ScopeItemsInOrder(js, root, input, heads, entries, SortedScopes(heads));
    Appended(a, b, 0, 1, 2);
    Appended(a + b, c, 0, 2, 3);
    Appended(a + b + c, d, 0, 3, 6);
    Appended(a + b + c + d, ScopeItems(js, input, heads, entries, SortedScopes(heads)), 0, 6, 7);
  }

  // ----- Keys are in strict order

  predicate IsAscii(s: string) {
    forall k :: 0 <= k < |s| ==> s[k] as int < 0x80
  }

  lemma {:induction false} LitInjective(a: string, b: string)
    requires IsAscii(a) && IsAscii(b) && Lit(a) == Lit(b)
    ensures a == b
  {
    assert |a| == |b|;
    forall k | 0 <= k < |a| ensures a[k] == b[k] {
      assert Lit(a)[k] == Lit(b)[k];
    }
  }

  lemma {:induction false} PathIsAscii(cs: seq<string>)
    requires |cs| > 0 && forall i :: 0 <= i < |cs| ==> IsAscii(cs[i])
    ensures IsAscii(Path(cs))
  {
    if |cs| > 1 {
      PathIsAscii(cs[1..]);
    }
  }

  lemma {:induction false} PartsAreAscii(p: Place)
    requires IsPlace(p)
    ensures forall i :: 0 <= i < |Parts(p)| ==> IsAscii(Parts(p)[i])
  {
    match p
    case Readme => assert IsAscii("README.md");
    case Manifest => assert IsAscii("manifest.json");
    case Head(_, _) => assert IsAscii("objects") && IsAscii(".md");
    case Revision(_, _, _) => assert IsAscii("revisions") && IsAscii(".md");
    case Index(_, _, _) => assert IsAscii("indexes");
  }

  lemma {:induction false} KeyIsAscii(root: Root, p: Place)
    requires WellFormedRoot(root) && IsPlace(p)
    ensures IsAscii(Key(root, p))
  {
    PartsAreAscii(p);
    assert IsAscii("projects") && IsAscii("projections");
    PathIsAscii(PrefixParts(root) + Parts(p));
  }

  lemma {:induction false} WriteLessIsTransitive()
    ensures Ordering.Transitive(WriteLess())
  {
    var less := WriteLess();
    forall a, b, c | less(a, b) && less(b, c) ensures less(a, c) {
      CanonicalJson.LessIsTransitive(Lit(a.key), Lit(b.key), Lit(c.key));
    }
  }

  lemma {:induction false} PlacesAreComparable(js: Platform, root: Root, a: Item, b: Item)
    requires WellFormedRoot(root) && IsPlace(a.place) && IsPlace(b.place) && a.place != b.place
    ensures var v, w := WriteOf(js, root, a), WriteOf(js, root, b);
      v.key != w.key && (WriteLess()(v, w) || WriteLess()(w, v))
  {
    var v, w := WriteOf(js, root, a), WriteOf(js, root, b);
    KeysDiffer(root, a.place, b.place);
    KeyIsAscii(root, a.place);
    KeyIsAscii(root, b.place);
    if Lit(v.key) == Lit(w.key) {
      LitInjective(v.key, w.key);
    }
    CanonicalJson.LessIsTotal(Lit(v.key), Lit(w.key));
  }

  ghost predicate Ascend(ws: seq<Write>) {
    Ordering.Increasing(ws, WriteLess())
  }

  lemma {:induction false} SortedAscend(js: Platform, root: Root, items: seq<Item>)
    requires WellFormedRoot(root) && InOrder(items, 0, 8)
    ensures Ascend(SortedWrites(WritesOf(js, root, items)))
  {
    var ws := WritesOf(js, root, items);
    forall i, j | 0 <= i < j < |ws| ensures WriteLess()(ws[i], ws[j]) || WriteLess()(ws[j], ws[i]) {
      PlacesAreComparable(js, root, items[i], items[j]);
    }
    WriteLessIsTransitive();
    Ordering.SortSorts(ws, WriteLess());
  }

  lemma {:induction false} AscendingKeysDiffer(ws: seq<Write>, i: nat, j: nat)
    requires Ascend(ws) && i < j < |ws|
    ensures ws[i].key != ws[j].key && !WriteLess()(ws[j], ws[i])
  {
    assert WriteLess()(ws[i], ws[j]);
    CanonicalJson.LessIsTotal(Lit(ws[i].key), Lit(ws[j].key));
  }

  lemma {:induction false} AscendingStaysSorted(ws: seq<Write>)
    requires Ascend(ws)
    ensures SortedWrites(ws) == ws
  {
    forall i | 0 < i < |ws| ensures !WriteLess()(ws[i], ws[i - 1]) {
      AscendingKeysDiffer(ws, i - 1, i);
    }
    Ordering.SortOfSorted(ws, WriteLess());
  }

  /** The writes whose key is another one. */
  function Others(ws: seq<Write>, key: string): seq<Write> {
    if ws == [] then []
    else Others(ws[..|ws| - 1], key) + if ws[|ws| - 1].key != key then [ws[|ws| - 1]] else []
  }

  lemma {:induction false} OthersOfInserted(ws: seq<Write>, w: Write)
    requires forall i :: 0 <= i < |ws| ==> ws[i].key != w.key
    ensures Others(Ordering.Insert(ws, w, WriteLess()), w.key) == ws
    ensures Others(ws, w.key) == ws
  {
    var n := |ws|;
    if n > 0 {
      OthersOfInserted(ws[..n - 1], w);
      assert ws == ws[..n - 1] + [ws[n - 1]];
    }
    assert (ws + [w])[..n] == ws;
    var inserted := Ordering.Insert(ws, w, WriteLess());
    if n > 0 && WriteLess()(w, ws[n - 1]) {
      assert inserted[..|inserted| - 1] == Ordering.Insert(ws[..n - 1], w, WriteLess());
    }
  }

  /** Sorted in, the manifest is the only difference between the plan and its files. */
  lemma {:induction false} OthersAreTheFiles(files: seq<Write>, manifest: Write)
    requires Ascend(files) && forall i :: 0 <= i < |files| ==> files[i].key != manifest.key
    ensures Others(SortedWrites(files + [manifest]), manifest.key) == files
  {
    AscendingStaysSorted(files);
    var all := files + [manifest];
    assert all[..|all| - 1] == files && all[|all| - 1] == manifest;
    assert SortedWrites(all) == Ordering.Insert(SortedWrites(files), manifest, WriteLess());
    OthersOfInserted(files, manifest);
  }
}
