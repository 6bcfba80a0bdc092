/** The builder itself: it pushes writes in the order of the source and is proved equal to the specified plan. */
module SnapshotBuilder {
  import opened Common
  import opened JsonText
  import opened ProjectionPaths
  import opened ProjectionEnvelope
  import opened SnapshotInput
  import opened SnapshotPlan
  import SnapshotCheck
  import SnapshotKeys
  import SnapshotResults
  import SnapshotIndexes
  import Ordering

  /** `Promise.all(xs.map(f))` */
  method TryAll<T, U>(xs: seq<T>, f: T -> Result<U>) returns (r: Result<seq<U>>)
    ensures r.Success? <==> forall i :: 0 <= i < |xs| ==> f(xs[i]).Success?
    ensures r.Success? ==> |r.value| == |xs| && forall i :: 0 <= i < |xs| ==> f(xs[i]) == Success(r.value[i])
  {
    var done: seq<U> := [];
    var i := 0;
    while i < |xs|
      invariant 0 <= i <= |xs| && |done| == i
      invariant forall k :: 0 <= k < i ==> f(xs[k]) == Success(done[k])
    {
      var one := f(xs[i]);
      if one.Failure? {
        return Failure;
      }
      done := done + [one.value];
      i := i + 1;
    }
    return Success(done);
  }

  method BuildObjects(js: Platform, ms: seq<Memory>, t: ObjectType) returns (r: Result<seq<MemoryWrite>>)
    ensures r.Success? <==> AllBuild(js, ms, t)
    ensures r.Success? && AllEncodable(ms) ==> r.value == ObjectsOf(js, ms, t)
  {
    var build := (m: Memory) => BuildObject(js.sha256, m, t);
    r := TryAll(ms, build);
    assert AllBuild(js, ms, t) <==> forall i :: 0 <= i < |ms| ==> build(ms[i]).Success?;
    if r.Success? && AllEncodable(ms) {
      forall i | 0 <= i < |ms| ensures r.value[i] == ObjectOf(js, ms[i], t) {
        assert build(ms[i]) == Success(r.value[i]);
      }
    }
  }

  lemma {:induction false} BuildsIffEncodable(js: Platform, m: Memory, t: ObjectType)
    ensures IsEncodable(m) ==> BuildObject(js.sha256, m, t).Success?
    ensures BuildObject(js.sha256, m, t).Success? && Segment(m.revisionId).Some? ==> IsEncodable(m)
    ensures BuildObject(js.sha256, m, RevisionObject).Success? ==> IsEncodable(m)
  {
  }

  predicate AllBuild(js: Platform, ms: seq<Memory>, t: ObjectType) {
    forall i :: 0 <= i < |ms| ==> BuildObject(js.sha256, ms[i], t).Success?
  }

  lemma {:induction false} SortedBuild(js: Platform, ms: seq<Memory>, less: (Memory, Memory) -> bool, t: ObjectType)
    ensures AllBuild(js, Ordering.Sort(ms, less), t) <==> AllBuild(js, ms, t)
  {
    var sorted := Ordering.Sort(ms, less);
    Ordering.SortHas(ms, less);
    if AllBuild(js, sorted, t) {
      forall i | 0 <= i < |ms| ensures BuildObject(js.sha256, ms[i], t).Success? {
        assert ms[i] in sorted;
      }
    }
    if AllBuild(js, ms, t) {
      forall i | 0 <= i < |sorted| ensures BuildObject(js.sha256, sorted[i], t).Success? {
        assert sorted[i] in ms;
      }
    }
  }

  /** Everything can be built exactly if every memory can be encoded. */
  lemma {:induction false} BuildIffEncodable(js: Platform, input: Input)
    requires AllHaveRevision(input.heads, input.revisions)
    ensures AllBuild(js, SortedHeads(input), HeadObject) && AllBuild(js, SortedRevisions(input), RevisionObject)
      <==> AllEncodable(input.heads) && AllEncodable(input.revisions)
  {
    SortedBuild(js, input.heads, HeadLess(), HeadObject);
    SortedBuild(js, input.revisions, RevisionLess(), RevisionObject);
    forall i | 0 <= i < |input.revisions|
      ensures BuildObject(js.sha256, input.revisions[i], RevisionObject).Success? <==> IsEncodable(input.revisions[i])
    {
      BuildsIffEncodable(js, input.revisions[i], RevisionObject);
    }
    if AllEncodable(input.heads) {
      forall i | 0 <= i < |input.heads| ensures BuildObject(js.sha256, input.heads[i], HeadObject).Success? {
        BuildsIffEncodable(js, input.heads[i], HeadObject);
      }
    }
    if AllBuild(js, input.heads, HeadObject) && AllEncodable(input.revisions) {
      forall i | 0 <= i < |input.heads| ensures IsEncodable(input.heads[i]) {
        assert HasRevision(input.heads[i], input.revisions);
        var k :| 0 <= k < |input.revisions| && input.revisions[k].revisionId == input.heads[i].revisionId;
        assert IsEncodable(input.revisions[k]);
        BuildsIffEncodable(js, input.heads[i], HeadObject);
      }
    }
  }

  // ----- Pushing writes

  lemma {:induction false} MoreWrites(js: Platform, root: Root, items: seq<Item>, more: seq<Item>)
    ensures WritesOf(js, root, items + more) == WritesOf(js, root, items) + WritesOf(js, root, more)
  {
  }

  lemma {:induction false} NextTwo(all: seq<Write>, i: nat)
    requires i + 2 <= |all|
    ensures all[..i + 2] == all[..i] + [all[i], all[i + 1]]
  {
  }

  lemma {:induction false} PairAt(js: Platform, root: Root, names: seq<string>, item: (string, bool) -> Item, i: nat)
    requires i < |names|
    ensures var all := WritesOf(js, root, Pairs(names, item));
      all[2 * i] == WriteOf(js, root, item(names[i], true))
        && all[2 * i + 1] == WriteOf(js, root, item(names[i], false))
  {
    var j, k := 2 * i, 2 * i + 1;
    assert j / 2 == i && j % 2 == 0 && k / 2 == i && k % 2 == 1;
  }

  /** `appendDualIndex` for each name. */
  method AppendPairs(js: Platform, root: Root, names: seq<string>, item: (string, bool) -> Item, writes: seq<Write>)
    returns (more: seq<Write>)
    ensures more == writes + WritesOf(js, root, Pairs(names, item))
  {
    more := writes;
    ghost var all := WritesOf(js, root, Pairs(names, item));
    var i := 0;
    while i < |names|
      invariant 0 <= i <= |names| && more == writes + all[..2 * i]
    {
      PairAt(js, root, names, item, i);
      NextTwo(all, 2 * i);
      more := more + [WriteOf(js, root, item(names[i], true)), WriteOf(js, root, item(names[i], false))];
      i := i + 1;
    }
    assert all[..2 * i] == all;
  }

  method AppendEach(js: Platform, root: Root, names: seq<string>, item: string -> Item, writes: seq<Write>)
    returns (more: seq<Write>)
    ensures more == writes + WritesOf(js, root, Each(names, item))
  {
    more := writes;
    ghost var all := WritesOf(js, root, Each(names, item));
    var i := 0;
    while i < |names|
      invariant 0 <= i <= |names| && more == writes + all[..i]
    {
      assert all[..i + 1] == all[..i] + [all[i]];
      more := more + [WriteOf(js, root, item(names[i]))];
      i := i + 1;
    }
    assert all[..i] == all;
  }

  /** `appendTaxonomyIndexes` */
  method AppendTaxonomyIndexes(
    js: Platform, root: Root, input: Input, heads: seq<Memory>, entries: seq<IndexEntry>, writes: seq<Write>)
    returns (more: seq<Write>)
    requires |heads| == |entries|
    ensures more == writes + WritesOf(js, root, IndexItems(js, input, heads, entries))
  {
    var dual := (d: Dimension) => (value: string, json: bool) => DualItem(js, input, heads, entries, d, value, json);
    more := AppendPairs(js, root, KINDS, dual(Kind), writes);
    more := AppendPairs(js, root, CLASSES, dual(Class), more);
    more := AppendEach(js, root, STATUSES, value => JsonItem(js, input, heads, entries, Status, value), more);
    ThreeMore(js, root, writes, DualItems(js, input, heads, entries, Kind, KINDS),
      DualItems(js, input, heads, entries, Class, CLASSES), StatusItems(js, input, heads, entries));
  }

  lemma {:induction false} ThreeMore(
    js: Platform, root: Root, writes: seq<Write>, a: seq<Item>, b: seq<Item>, c: seq<Item>)
    ensures writes + WritesOf(js, root, a) + WritesOf(js, root, b) + WritesOf(js, root, c)
      == writes + WritesOf(js, root, a + b + c)
  {
    MoreWrites(js, root, a, b);
    MoreWrites(js, root, a + b, c);
  }

  /** `appendScopeIndexes`; a scope without a key fails the whole plan. */
  method AppendScopes(
    js: Platform, root: Root, scopes: seq<Text>, hasKey: Text -> bool, item: Text -> Item, writes: seq<Write>)
    returns (r: Result<seq<Write>>)
    ensures r.Success? <==> forall i :: 0 <= i < |scopes| ==> hasKey(scopes[i])
    ensures r.Success? ==> r.value == writes + WritesOf(js, root, Each(scopes, item))
  {
    var more := writes;
    ghost var all := WritesOf(js, root, Each(scopes, item));
    var i := 0;
    while i < |scopes|
      invariant 0 <= i <= |scopes| && more == writes + all[..i]
      invariant forall k :: 0 <= k < i ==> hasKey(scopes[k])
    {
      if !hasKey(scopes[i]) {
        return Failure;
      }
      assert all[..i + 1] == all[..i] + [all[i]];
      more := more + [WriteOf(js, root, item(scopes[i]))];
      i := i + 1;
    }
    assert all[..i] == all;
    return Success(more);
  }

  /** `assertUniqueWriteKeys` */
  method HasUniqueKeys(ws: seq<Write>) returns (ok: bool)
    ensures ok <==> SnapshotCheck.KeysDiffer(ws)
  {
    var seen: set<string> := {};
    var i := 0;
    while i < |ws|
      invariant 0 <= i <= |ws|
      invariant forall key :: key in seen <==> exists k :: 0 <= k < i && ws[k].key == key
      invariant forall j, k :: 0 <= j < k < i ==> ws[j].key != ws[k].key
    {
      if ws[i].key in seen {
        return false;
      }
      seen := seen + {ws[i].key};
      i := i + 1;
    }
    return true;
  }

  // ----- The whole builder

  lemma {:induction false} FilesHaveUniqueKeys(js: Platform, root: Root, items: seq<Item>)
    requires WellFormedRoot(root) && SnapshotKeys.InOrder(items, 0, 7)
    ensures SnapshotCheck.KeysDiffer(SortedWrites(WritesOf(js, root, items)))
  {
    var files := SortedWrites(WritesOf(js, root, items));
    SnapshotKeys.SortedAscend(js, root, items);
    forall i, j | 0 <= i < j < |files| ensures files[i].key != files[j].key {
      SnapshotKeys.AscendingKeysDiffer(files, i, j);
    }
  }

  lemma {:induction false} ScopeKeysOfInput(root: Root, input: Input)
    ensures SnapshotKeys.AllHaveKeys(root, SortedScopes(SortedHeads(input))) <==>
      forall i :: 0 <= i < |input.heads| ==> HasScopeKey(root, input.heads[i].scopeId)
  {
    var heads := SortedHeads(input);
    var scopes := SortedScopes(heads);
    SnapshotKeys.ScopesAreDistinct(heads);
    Ordering.SortHas(input.heads, HeadLess());
    if SnapshotKeys.AllHaveKeys(root, scopes) {
      forall i | 0 <= i < |input.heads| ensures HasScopeKey(root, input.heads[i].scopeId) {
        assert input.heads[i] in heads;
        var k :| 0 <= k < |heads| && heads[k] == input.heads[i];
        assert heads[k].scopeId in scopes;
        var n :| 0 <= n < |scopes| && scopes[n] == heads[k].scopeId;
      }
    }
    if forall i :: 0 <= i < |input.heads| ==> HasScopeKey(root, input.heads[i].scopeId) {
      SnapshotKeys.ScopesHaveKeys(root, input);
    }
  }

  /** The writes before sorting, in the order in which they are pushed. */
  method PushWrites(
    js: Platform, root: Root, input: Input, headObjects: seq<MemoryWrite>, revisionObjects: seq<MemoryWrite>)
    returns (r: Result<seq<Write>>)
    requires IsComplete(input)
    requires headObjects == ObjectsOf(js, SortedHeads(input), HeadObject)
    requires revisionObjects == ObjectsOf(js, SortedRevisions(input), RevisionObject)
    ensures r.Success? <==> SnapshotKeys.AllHaveKeys(root, SortedScopes(SortedHeads(input)))
    ensures r.Success? ==> r.value == WritesOf(js, root, Items(js, root, input))
  {
    var heads, revisions := SortedHeads(input), SortedRevisions(input);
    var entries := IndexEntries(js, root, heads, revisions);
    var a := ObjectItems(headObjects);
    var b := ObjectItems(revisionObjects);
    var c := [ReadmeItem(input, |heads|, |revisions|)];
    var writes := WritesOf(js, root, a) + WritesOf(js, root, b);
    writes := writes + WritesOf(js, root, c);
    writes := AppendTaxonomyIndexes(js, root, input, heads, entries, writes);
    var hasKey := (scope: Text) => HasScopeKey(root, scope);
    r := AppendScopes(js, root, SortedScopes(heads), hasKey, scope => ScopeItem(js, input, heads, entries, scope),
      writes);
    assert SnapshotKeys.AllHaveKeys(root, SortedScopes(heads)) <==>
      forall i :: 0 <= i < |SortedScopes(heads)| ==> hasKey(SortedScopes(heads)[i]);
    ghost var d := IndexItems(js, input, heads, entries);
    MoreWrites(js, root, a, b);
    MoreWrites(js, root, a + b, c);
    MoreWrites(js, root, a + b + c, d);
    MoreWrites(js, root, a + b + c + d, ScopeItems(js, input, heads, entries, SortedScopes(heads)));
  }

  /** `buildProjectionSnapshotPlan` fails exactly for inputs that cannot be built; keys are never found twice. */
  method BuildSnapshotPlan(js: Platform, input: Input) returns (r: Result<Plan>)
    ensures r.Success? <==> IsBuildable(input)
    ensures r.Success? ==> r.value == PlanOf(js, input)
    ensures r.Success? && IsLawful(js) ==>
      SnapshotIndexes.SortMemories(js, InputRoot(input), input, r.value.writes)
  {
    var valid := ValidateSnapshotInput(input);
    if !valid {
      return Failure;
    }
    var root := InputRoot(input);
    BuildIffEncodable(js, input);
    var revisions := BuildObjects(js, SortedRevisions(input), RevisionObject);
    if revisions.Failure? {
      return Failure;
    }
    var heads := BuildObjects(js, SortedHeads(input), HeadObject);
    if heads.Failure? {
      return Failure;
    }
    EverythingIsFound(input);
    ScopeKeysOfInput(root, input);
    var writes := PushWrites(js, root, input, heads.value, revisions.value);
    if writes.Failure? {
      return Failure;
    }
    SnapshotResults.BuildableIsReady(input);
    var files := SortedWrites(writes.value);
    var unique := HasUniqueKeys(files);
    if !unique {
      SnapshotKeys.ItemsInOrder(js, root, input);
      FilesHaveUniqueKeys(js, root, Items(js, root, input));
      assert false;
    }
    if IsLawful(js) {
      SnapshotIndexes.PlanSortsMemories(js, input);
    }
    return Success(PlanFrom(js, root, input, files));
  }
}
