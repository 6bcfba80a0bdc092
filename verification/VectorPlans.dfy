/**
 The planned filters together mean what the hard filter means (src/search/vector-filtering.ts,
 src/search/planning.ts).
 */
module VectorPlans {
  import opened Common
  import opened JsonText
  import opened VectorFilters
  import CanonicalJson

  datatype Dimension = Dimension(field: FieldName, values: seq<Text>)

  /** At most the two optional fields, each once. */
  predicate GoodDimensions(ds: seq<Dimension>) {
    |ds| <= 2 && (|ds| == 2 ==> ds[0].field != ds[1].field)
  }

  function EmptyDimensions(base: Filter, ds: seq<Dimension>): Filter {
    if ds == [] then base else SetField(EmptyDimensions(base, ds[..|ds| - 1]), ds[|ds| - 1].field, OneOf([]))
  }

  function Available(base: Filter, ds: seq<Dimension>): int {
    MAX_FILTER_BYTES - 1 - FilterBytes(EmptyDimensions(base, ds))
  }

  lemma {:induction false} ShareIsNatural(available: int, count: nat, index: nat)
    requires count > 0 && available >= count
    ensures Share(available, count, index) >= 0
  {
  }

  function Share(available: int, count: nat, index: nat): int
    requires count > 0
  {
    available / count + (if index < available % count then 1 else 0)
  }

  function Budget(base: Filter, ds: seq<Dimension>, index: nat): nat
    requires ds != [] && Available(base, ds) >= |ds|
  {
    ShareIsNatural(Available(base, ds), |ds|, index);
    Share(Available(base, ds), |ds|, index)
  }

  /** Every partial filter with every batch. */
  function Expand(planned: seq<Filter>, field: FieldName, batches: seq<seq<Text>>): seq<Filter> {
    if planned == [] then []
    else Expand(planned[..|planned| - 1], field, batches) + WithBatches(planned[|planned| - 1], field, batches)
  }

  function WithBatches(f: Filter, field: FieldName, batches: seq<seq<Text>>): seq<Filter> {
    if batches == [] then []
    else WithBatches(f, field, batches[..|batches| - 1]) + [SetField(f, field, Compact(batches[|batches| - 1]))]
  }

  function Budgets(base: Filter, ds: seq<Dimension>): (r: seq<nat>)
    requires ds != [] ==> Available(base, ds) >= |ds|
    ensures |r| == |ds| && forall i :: 0 <= i < |r| ==> r[i] == Budget(base, ds, i)
  {
    seq(|ds|, i requires 0 <= i < |ds| => Budget(base, ds, i))
  }

  function PlannedWith(base: Filter, ds: seq<Dimension>, budgets: seq<nat>, n: nat): seq<Filter>
    requires n <= |ds| == |budgets|
  {
    if n == 0 then [base]
    else Expand(PlannedWith(base, ds, budgets, n - 1), ds[n - 1].field, Batches(ds[n - 1].values, budgets[n - 1]))
  }

  predicate DimensionsFit(ds: seq<Dimension>, budgets: seq<nat>)
    requires |ds| == |budgets|
  {
    forall i :: 0 <= i < |ds| ==> AllFit(ds[i].values, budgets[i])
  }

  function Planned(base: Filter, ds: seq<Dimension>): seq<Filter>
    requires ds != [] ==> Available(base, ds) >= |ds|
  {
    PlannedWith(base, ds, Budgets(base, ds), |ds|)
  }

  /** When `planFilterDimensionProduct` succeeds. */
  predicate CanPlan(base: Filter, ds: seq<Dimension>) {
    if ds == [] then FilterBytes(base) < MAX_FILTER_BYTES
    else
      && (forall i :: 0 <= i < |ds| ==> ds[i].values != [])
      && Available(base, ds) >= |ds|
      && DimensionsFit(ds, Budgets(base, ds))
  }

  lemma {:induction false} WithBatchesHas(f: Filter, field: FieldName, batches: seq<seq<Text>>, g: Filter)
    ensures g in WithBatches(f, field, batches) <==>
      exists i :: 0 <= i < |batches| && g == SetField(f, field, Compact(batches[i]))
  {
    if batches != [] {
      var front := batches[..|batches| - 1];
      WithBatchesHas(f, field, front, g);
      if i :| 0 <= i < |batches| && g == SetField(f, field, Compact(batches[i])) {
        if i < |front| {
          assert front[i] == batches[i];
        }
      }
    }
  }

  lemma {:induction false} ExpandHas(planned: seq<Filter>, field: FieldName, batches: seq<seq<Text>>, g: Filter)
    ensures g in Expand(planned, field, batches) <==>
      exists f, i :: f in planned && 0 <= i < |batches| && g == SetField(f, field, Compact(batches[i]))
  {
    if planned != [] {
      var front, last := planned[..|planned| - 1], planned[|planned| - 1];
      ExpandHas(front, field, batches, g);
      WithBatchesHas(last, field, batches, g);
      SplitLast(planned);
      assert forall f :: f in planned <==> f in front || f == last;
      if i :| 0 <= i < |batches| && g == SetField(last, field, Compact(batches[i])) {
        assert last in planned;
      }
    }
  }

  // ----- Meaning

  ghost predicate MatchesAny(m: Metadata, fs: seq<Filter>) {
    exists f :: f in fs && Matches(m, f)
  }

  lemma {:induction false} CompactMatches(v: Text, batch: seq<Text>)
    requires batch != []
    ensures MatchesStrings(v, Compact(batch)) <==> v in batch
  {
  }

  predicate Free(f: Filter, field: FieldName) {
    match field case Partition => f.partition == None case ScopeKey => f.scopeKey == None
  }

  lemma {:induction false} SetMatches(m: Metadata, f: Filter, field: FieldName, batch: seq<Text>)
    requires Free(f, field) && batch != []
    ensures Matches(m, SetField(f, field, Compact(batch))) <==> Matches(m, f) && FieldOf(m, field) in batch
  {
    CompactMatches(FieldOf(m, field), batch);
  }

  /** Splitting a dimension's values among filters means the same as testing for any of the values. */
  lemma {:induction false} ExpandMatches(m: Metadata, planned: seq<Filter>, field: FieldName, values: seq<Text>,
    budget: nat)
    requires (forall f :: f in planned ==> Free(f, field)) && AllFit(values, budget)
    ensures MatchesAny(m, Expand(planned, field, Batches(values, budget))) <==>
      MatchesAny(m, planned) && FieldOf(m, field) in values
  {
    var batches := Batches(values, budget);
    BatchesWork(values, budget);
    FlattenHas(batches, FieldOf(m, field));
    var grown := Expand(planned, field, batches);
    if MatchesAny(m, grown) {
      var g :| g in grown && Matches(m, g);
      ExpandHas(planned, field, batches, g);
      var f, i :| f in planned && 0 <= i < |batches| && g == SetField(f, field, Compact(batches[i]));
      SetMatches(m, f, field, batches[i]);
    }
    if MatchesAny(m, planned) && FieldOf(m, field) in values {
      var f :| f in planned && Matches(m, f);
      var i :| 0 <= i < |batches| && FieldOf(m, field) in batches[i];
      SetMatches(m, f, field, batches[i]);
      var g := SetField(f, field, Compact(batches[i]));
      ExpandHas(planned, field, batches, g);
    }
  }

  lemma {:induction false} ExpandStaysFree(planned: seq<Filter>, field: FieldName, batches: seq<seq<Text>>,
    other: FieldName)
    requires other != field && forall f :: f in planned ==> Free(f, other)
    ensures forall g :: g in Expand(planned, field, batches) ==> Free(g, other)
  {
    forall g | g in Expand(planned, field, batches) ensures Free(g, other) {
      ExpandHas(planned, field, batches, g);
    }
  }

  ghost predicate InDimensions(m: Metadata, ds: seq<Dimension>) {
    forall i :: 0 <= i < |ds| ==> FieldOf(m, ds[i].field) in ds[i].values
  }

  function ExpandOne(base: Filter, one: Dimension, p: nat): seq<Filter> {
    Expand([base], one.field, Batches(one.values, p))
  }

  function ExpandTwo(base: Filter, one: Dimension, p: nat, two: Dimension, q: nat): seq<Filter> {
    Expand(ExpandOne(base, one, p), two.field, Batches(two.values, q))
  }

  lemma {:induction false} PlannedUnfolds(base: Filter, ds: seq<Dimension>, budgets: seq<nat>)
    requires |ds| == |budgets|
    ensures |ds| == 1 ==> PlannedWith(base, ds, budgets, 1) == ExpandOne(base, ds[0], budgets[0])
    ensures |ds| == 2 ==> PlannedWith(base, ds, budgets, 2) == ExpandTwo(base, ds[0], budgets[0], ds[1], budgets[1])
  {
    if |ds| >= 1 {
      assert PlannedWith(base, ds, budgets, 1) ==
        Expand(PlannedWith(base, ds, budgets, 0), ds[0].field, Batches(ds[0].values, budgets[0]));
    }
  }

  lemma {:induction false} InEach(m: Metadata, ds: seq<Dimension>)
    ensures |ds| == 1 ==> (InDimensions(m, ds) <==> FieldOf(m, ds[0].field) in ds[0].values)
    ensures |ds| == 2 ==>
      (InDimensions(m, ds) <==> FieldOf(m, ds[0].field) in ds[0].values && FieldOf(m, ds[1].field) in ds[1].values)
  {
  }

  lemma {:induction false} PlannedWithMatches(m: Metadata, base: Filter, ds: seq<Dimension>, budgets: seq<nat>)
    requires GoodDimensions(ds) && ds != [] && |budgets| == |ds| && DimensionsFit(ds, budgets)
    requires forall i :: 0 <= i < |ds| ==> Free(base, ds[i].field)
    ensures MatchesAny(m, PlannedWith(base, ds, budgets, |ds|)) <==> Matches(m, base) && InDimensions(m, ds)
  {
    PlannedUnfolds(base, ds, budgets);
    InEach(m, ds);
    assert AllFit(ds[0].values, budgets[0]) && Free(base, ds[0].field);
    if |ds| == 1 {
      BaseMatches(m, base);
      ExpandMatches(m, [base], ds[0].field, ds[0].values, budgets[0]);
    } else {
      assert AllFit(ds[1].values, budgets[1]) && Free(base, ds[1].field);
      TwoMatch(m, base, ds[0], budgets[0], ds[1], budgets[1]);
    }
  }

  /** The planned filters together match exactly what the base and all dimensions match. */
  lemma {:induction false} PlannedMatches(m: Metadata, base: Filter, ds: seq<Dimension>)
    requires GoodDimensions(ds) && CanPlan(base, ds) && forall i :: 0 <= i < |ds| ==> Free(base, ds[i].field)
    ensures MatchesAny(m, Planned(base, ds)) <==> Matches(m, base) && InDimensions(m, ds)
  {
    if ds == [] {
      BaseMatches(m, base);
      assert Planned(base, ds) == [base];
    } else {
      PlannedWithMatches(m, base, ds, Budgets(base, ds));
    }
  }

  lemma {:induction false} BaseMatches(m: Metadata, base: Filter)
    ensures MatchesAny(m, [base]) <==> Matches(m, base)
  {
    assert base in [base];
  }

  lemma {:induction false} TwoMatch(m: Metadata, base: Filter, one: Dimension, p: nat, two: Dimension, q: nat)
    requires one.field != two.field && Free(base, one.field) && Free(base, two.field)
    requires AllFit(one.values, p) && AllFit(two.values, q)
    ensures MatchesAny(m, ExpandTwo(base, one, p, two, q)) <==>
      Matches(m, base) && FieldOf(m, one.field) in one.values && FieldOf(m, two.field) in two.values
  {
    BaseMatches(m, base);
    ExpandMatches(m, [base], one.field, one.values, p);
    ExpandStaysFree([base], one.field, Batches(one.values, p), two.field);
    ExpandMatches(m, Expand([base], one.field, Batches(one.values, p)), two.field, two.values, q);
  }

  // ----- Size

  lemma {:induction false} SetBytes(f: Filter, field: FieldName, batch: seq<Text>, budget: nat)
    requires batch != [] && Contribution(batch) <= budget
    ensures FilterBytes(SetField(f, field, Compact(batch))) <= FilterBytes(SetField(f, field, OneOf([]))) + budget
  {
    if |batch| == 1 {
      SingleContribution(batch[0]);
      assert batch == [batch[0]];
    }
  }

  lemma {:induction false} EmptyOne(base: Filter, ds: seq<Dimension>)
    requires |ds| == 1
    ensures EmptyDimensions(base, ds) == SetField(base, ds[0].field, OneOf([]))
  {
    assert ds[..0] == [];
  }

  lemma {:induction false} EmptyTwo(base: Filter, ds: seq<Dimension>)
    requires |ds| == 2
    ensures EmptyDimensions(base, ds) == SetField(SetField(base, ds[0].field, OneOf([])), ds[1].field, OneOf([]))
  {
    EmptyOne(base, ds[..1]);
  }

  lemma {:induction false} SharesAddUp(available: int)
    ensures Share(available, 1, 0) == available
    ensures Share(available, 2, 0) + Share(available, 2, 1) == available
  {
  }

  /** After a successful split no planned filter can be too long, so the final size check never fails. */
  lemma {:induction false} PlannedFits(base: Filter, ds: seq<Dimension>, g: Filter)
    requires GoodDimensions(ds) && CanPlan(base, ds) && g in Planned(base, ds)
    ensures FilterBytes(g) < MAX_FILTER_BYTES
  {
    if ds == [] {
      assert Planned(base, ds) == [base];
    } else {
      var budgets := Budgets(base, ds);
      WithinBudgets(base, ds, budgets, g);
      SharesAddUp(Available(base, ds));
      assert |ds| == 1 ==> budgets[0] == Available(base, ds);
      assert |ds| == 2 ==> budgets[0] + budgets[1] == Available(base, ds);
    }
  }

  lemma {:induction false} ExpandPick(planned: seq<Filter>, field: FieldName, values: seq<Text>, budget: nat, g: Filter)
    returns (f: Filter, batch: seq<Text>)
    requires AllFit(values, budget) && g in Expand(planned, field, Batches(values, budget))
    ensures f in planned && batch != [] && Contribution(batch) <= budget && g == SetField(f, field, Compact(batch))
  {
    var batches := Batches(values, budget);
    BatchesWork(values, budget);
    ExpandHas(planned, field, batches, g);
    var h, i :| h in planned && 0 <= i < |batches| && g == SetField(h, field, Compact(batches[i]));
    f, batch := h, batches[i];
  }

  lemma {:induction false} WithinOne(base: Filter, one: Dimension, p: nat, g: Filter)
    requires AllFit(one.values, p) && g in ExpandOne(base, one, p)
    ensures FilterBytes(g) <= FilterBytes(SetField(base, one.field, OneOf([]))) + p
  {
    var b, batch := ExpandPick([base], one.field, one.values, p, g);
    SetBytes(base, one.field, batch, p);
  }

  lemma {:induction false} WithinTwo(base: Filter, one: Dimension, p: nat, two: Dimension, q: nat, g: Filter)
    requires one.field != two.field && AllFit(one.values, p) && AllFit(two.values, q)
      && g in ExpandTwo(base, one, p, two, q)
    ensures FilterBytes(g) <= FilterBytes(SetField(SetField(base, one.field, OneOf([])), two.field, OneOf([]))) + p + q
  {
    var f, second := ExpandPick(ExpandOne(base, one, p), two.field, two.values, q, g);
    var b, first := ExpandPick([base], one.field, one.values, p, f);
    TwoSets(base, one.field, first, p, two.field, second, q);
  }

  lemma {:induction false} WithinBudgets(base: Filter, ds: seq<Dimension>, budgets: seq<nat>, g: Filter)
    requires GoodDimensions(ds) && ds != [] && |budgets| == |ds| && DimensionsFit(ds, budgets)
    requires g in PlannedWith(base, ds, budgets, |ds|)
    ensures FilterBytes(g) <= FilterBytes(EmptyDimensions(base, ds)) + budgets[0]
      + (if |ds| == 2 then budgets[1] else 0)
  {
    PlannedUnfolds(base, ds, budgets);
    assert AllFit(ds[0].values, budgets[0]);
    if |ds| == 1 {
      WithinOne(base, ds[0], budgets[0], g);
      EmptyOne(base, ds);
    } else {
      assert AllFit(ds[1].values, budgets[1]);
      WithinTwo(base, ds[0], budgets[0], ds[1], budgets[1], g);
      EmptyTwo(base, ds);
    }
  }

  lemma {:induction false} TwoSets(base: Filter, one: FieldName, p: seq<Text>, m: nat, two: FieldName, q: seq<Text>,
    n: nat)
    requires one != two && p != [] && q != [] && Contribution(p) <= m && Contribution(q) <= n
    ensures FilterBytes(SetField(SetField(base, one, Compact(p)), two, Compact(q))) <=
      FilterBytes(SetField(SetField(base, one, OneOf([])), two, OneOf([]))) + m + n
  {
    SetBytes(SetField(base, one, Compact(p)), two, q, n);
    SetBytes(SetField(base, two, OneOf([])), one, p, m);
    assert SetField(SetField(base, one, Compact(p)), two, OneOf([])) ==
      SetField(SetField(base, two, OneOf([])), one, Compact(p));
    assert SetField(SetField(base, two, OneOf([])), one, OneOf([])) ==
      SetField(SetField(base, one, OneOf([])), two, OneOf([]));
  }

  // ----- The loops of `planFilterDimensionProduct`

  function Product(base: Filter, ds: seq<Dimension>): Result<seq<Filter>> {
    if CanPlan(base, ds) then Success(Planned(base, ds)) else Failure
  }

  method ExpandPlanned(planned: seq<Filter>, field: FieldName, batches: seq<seq<Text>>) returns (grown: seq<Filter>)
    ensures grown == Expand(planned, field, batches)
  {
    grown := [];
    for i := 0 to |planned|
      invariant grown == Expand(planned[..i], field, batches)
    {
      assert planned[..i + 1][..i] == planned[..i];
      var part: seq<Filter> := [];
      for j := 0 to |batches|
        invariant part == WithBatches(planned[i], field, batches[..j])
      {
        assert batches[..j + 1][..j] == batches[..j];
        part := part + [SetField(planned[i], field, Compact(batches[j]))];
      }
      assert batches[..|batches|] == batches;
      grown := grown + part;
    }
    assert planned[..|planned|] == planned;
  }

  method PlanProduct(base: Filter, ds: seq<Dimension>) returns (r: Result<seq<Filter>>)
    requires GoodDimensions(ds)
    ensures r == Product(base, ds)
  {
    if ds == [] {
      return if FilterBytes(base) < MAX_FILTER_BYTES then Success([base]) else Failure;
    }
    var empty := base;
    for i := 0 to |ds|
      invariant empty == EmptyDimensions(base, ds[..i])
      invariant forall k :: 0 <= k < i ==> ds[k].values != []
    {
      if ds[i].values == [] {
        return Failure;
      }
      assert ds[..i + 1][..i] == ds[..i];
      empty := SetField(empty, ds[i].field, OneOf([]));
    }
    assert ds[..|ds|] == ds;
    var available := MAX_FILTER_BYTES - 1 - FilterBytes(empty);
    if available < |ds| {
      return Failure;
    }
    r := PlanWithin(base, ds);
  }

  function BatchedTo(ds: seq<Dimension>, budgets: seq<nat>, n: nat): (r: seq<seq<seq<Text>>>)
    requires n <= |ds| == |budgets|
    ensures |r| == n
  {
    if n == 0 then [] else BatchedTo(ds, budgets, n - 1) + [Batches(ds[n - 1].values, budgets[n - 1])]
  }

  predicate FitTo(ds: seq<Dimension>, budgets: seq<nat>, n: nat)
    requires n <= |ds| == |budgets|
  {
    n == 0 || (FitTo(ds, budgets, n - 1) && AllFit(ds[n - 1].values, budgets[n - 1]))
  }

  lemma {:induction false} FitToMeans(ds: seq<Dimension>, budgets: seq<nat>, n: nat)
    requires n <= |ds| == |budgets|
    ensures FitTo(ds, budgets, n) <==> forall i :: 0 <= i < n ==> AllFit(ds[i].values, budgets[i])
  {
    if n > 0 {
      FitToMeans(ds, budgets, n - 1);
    }
  }

  lemma {:induction false} FitToAll(ds: seq<Dimension>, budgets: seq<nat>, n: nat, m: nat)
    requires n <= m <= |ds| == |budgets| && !FitTo(ds, budgets, n)
    ensures !FitTo(ds, budgets, m)
  {
    if n < m {
      FitToAll(ds, budgets, n, m - 1);
    }
  }

  method BatchDimensions(ds: seq<Dimension>, budgets: seq<nat>) returns (r: Result<seq<seq<seq<Text>>>>)
    requires |budgets| == |ds|
    ensures r == if FitTo(ds, budgets, |ds|) then Success(BatchedTo(ds, budgets, |ds|)) else Failure
  {
    var batched: seq<seq<seq<Text>>> := [];
    for i := 0 to |ds|
      invariant FitTo(ds, budgets, i) && batched == BatchedTo(ds, budgets, i)
    {
      var b := BatchStringValues(ds[i].values, budgets[i]);
      if b == Failure {
        FitToAll(ds, budgets, i + 1, |ds|);
        return Failure;
      }
      batched := batched + [b.value];
    }
    r := Success(batched);
  }

  predicate IsSmall(f: Filter) {
    FilterBytes(f) < MAX_FILTER_BYTES
  }

  predicate AllSmall(fs: seq<Filter>, n: nat)
    requires n <= |fs|
  {
    n == 0 || (AllSmall(fs, n - 1) && IsSmall(fs[n - 1]))
  }

  lemma {:induction false} SmallTo(fs: seq<Filter>, n: nat)
    requires n <= |fs| && forall f :: f in fs ==> IsSmall(f)
    ensures AllSmall(fs, n)
  {
    if n > 0 {
      SmallTo(fs, n - 1);
    }
  }

  lemma {:induction false} PlannedAllSmall(base: Filter, ds: seq<Dimension>)
    requires GoodDimensions(ds) && CanPlan(base, ds)
    ensures AllSmall(Planned(base, ds), |Planned(base, ds)|)
  {
    forall f | f in Planned(base, ds) ensures IsSmall(f) {
      PlannedFits(base, ds, f);
    }
    SmallTo(Planned(base, ds), |Planned(base, ds)|);
  }

  /** `requireVectorizeFilterSize` on every planned filter. */
  method RequireSizes(planned: seq<Filter>) returns (ok: bool)
    ensures ok == AllSmall(planned, |planned|)
  {
    ok := true;
    for i := 0 to |planned|
      invariant ok == AllSmall(planned, i)
    {
      var small := IsSmall(planned[i]);
      ok := ok && small;
    }
  }

  lemma {:induction false} PlannedNext(base: Filter, ds: seq<Dimension>, budgets: seq<nat>, n: nat)
    requires n < |ds| == |budgets|
    ensures PlannedWith(base, ds, budgets, n + 1) ==
      Expand(PlannedWith(base, ds, budgets, n), ds[n].field, Batches(ds[n].values, budgets[n]))
  {
  }

  method ExpandDimension(base: Filter, ds: seq<Dimension>, budgets: seq<nat>, n: nat, planned: seq<Filter>)
    returns (grown: seq<Filter>)
    requires n < |ds| == |budgets| && planned == PlannedWith(base, ds, budgets, n)
    ensures grown == PlannedWith(base, ds, budgets, n + 1)
  {
    grown := ExpandPlanned(planned, ds[n].field, Batches(ds[n].values, budgets[n]));
    PlannedNext(base, ds, budgets, n);
  }

  method ExpandAll(base: Filter, ds: seq<Dimension>, budgets: seq<nat>) returns (planned: seq<Filter>)
    requires |budgets| == |ds|
    ensures planned == PlannedWith(base, ds, budgets, |ds|)
  {
    planned := [base];
    for i := 0 to |ds|
      invariant planned == PlannedWith(base, ds, budgets, i)
    {
      planned := ExpandDimension(base, ds, budgets, i, planned);
    }
  }

  method PlanWithin(base: Filter, ds: seq<Dimension>) returns (r: Result<seq<Filter>>)
    requires GoodDimensions(ds) && ds != [] && Available(base, ds) >= |ds|
    requires forall i :: 0 <= i < |ds| ==> ds[i].values != []
    ensures r == Product(base, ds)
  {
    var budgets := Budgets(base, ds);
    var batched := BatchDimensions(ds, budgets);
    FitToMeans(ds, budgets, |ds|);
    if batched == Failure {
      return Failure;
    }
    var planned := ExpandAll(base, ds, budgets);
    var ok := RequireSizes(planned);
    PlannedAllSmall(base, ds);
    r := if ok then Success(planned) else Failure;
  }

  // ----- The hard filter

  const STAR: Text := [0x2A]

  datatype Scope = Scope(kind: Text, ids: seq<Text>)

  datatype HardFilter = HardFilter(
    project: Text, generation: Text, statuses: seq<Text>, kinds: Option<seq<Text>>, memoryClasses: Option<seq<Text>>,
    scope: Option<Scope>, repositories: Option<seq<Text>>, validAt: Epoch)

  datatype Candidate = Candidate(
    project: Text, generation: Text, status: Text, kind: Text, memoryClass: Text, scope: Text, scopeId: Text,
    validFrom: Option<Epoch>, validUntil: Option<Epoch>)

  datatype ScopeId = ScopeId(kind: Text, id: Text)

  predicate InOptional(v: Text, vs: Option<seq<Text>>) {
    vs.Some? ==> v in vs.value
  }

  /** `passesHardFilters` */
  predicate Passes(c: Candidate, f: HardFilter) {
    && c.project == f.project && c.generation == f.generation && c.status in f.statuses
    && InOptional(c.kind, f.kinds) && InOptional(c.memoryClass, f.memoryClasses)
    && (f.scope.Some? ==> c.scope == f.scope.value.kind && c.scopeId in f.scope.value.ids)
    && (c.validFrom.Some? ==> c.validFrom.value <= f.validAt)
    && (c.validUntil.Some? ==> c.validUntil.value > f.validAt)
  }

  predicate Authorized(partition: Text, f: HardFilter) {
    f.repositories.Some? ==> partition == STAR || partition in f.repositories.value
  }

  /** What indexing stores of a candidate; missing bounds become the extreme safe integers. */
  function Encode(c: Candidate, partition: Text, sha: ScopeId -> Text): Metadata {
    Metadata(c.generation, c.status, c.kind, c.memoryClass,
             if c.validFrom.Some? then c.validFrom.value else MIN_SAFE_INTEGER,
             if c.validUntil.Some? then c.validUntil.value else MAX_SAFE_INTEGER,
             partition, sha(ScopeId(c.scope, c.scopeId)))
  }

  predicate Compactable(f: HardFilter) {
    f.statuses != [] && (f.kinds.Some? ==> f.kinds.value != [])
      && (f.memoryClasses.Some? ==> f.memoryClasses.value != [])
  }

  function CompactOptional(vs: Option<seq<Text>>): Option<Strings> {
    if vs.Some? then Some(Compact(vs.value)) else None
  }

  function Base(f: HardFilter): Filter {
    Filter(f.generation, Compact(f.statuses), CompactOptional(f.kinds), CompactOptional(f.memoryClasses), f.validAt,
      None, None)
  }

  /** `[...new Set(values)].sort()` */
  function SortedSet(values: seq<Text>): seq<Text> {
    if values == [] then [] else InsertNew(SortedSet(values[..|values| - 1]), values[|values| - 1])
  }

  function InsertNew(sorted: seq<Text>, v: Text): seq<Text> {
    if sorted == [] || CanonicalJson.Less(sorted[|sorted| - 1], v) then sorted + [v]
    else if sorted[|sorted| - 1] == v then sorted
    else InsertNew(sorted[..|sorted| - 1], v) + [sorted[|sorted| - 1]]
  }

  lemma {:induction false} InsertNewHas(sorted: seq<Text>, v: Text, w: Text)
    ensures w in InsertNew(sorted, v) <==> w in sorted || w == v
  {
    if sorted != [] {
      SplitLast(sorted);
      if !CanonicalJson.Less(sorted[|sorted| - 1], v) && sorted[|sorted| - 1] != v {
        InsertNewHas(sorted[..|sorted| - 1], v, w);
      }
    }
  }

  lemma {:induction false} SortedSetHas(values: seq<Text>, w: Text)
    ensures w in SortedSet(values) <==> w in values
  {
    if values != [] {
      SplitLast(values);
      SortedSetHas(values[..|values| - 1], w);
      InsertNewHas(SortedSet(values[..|values| - 1]), values[|values| - 1], w);
    }
  }

  function Keys(s: Scope, sha: ScopeId -> Text): seq<Text> {
    SortedSet(seq(|s.ids|, i requires 0 <= i < |s.ids| => sha(ScopeId(s.kind, s.ids[i]))))
  }

  function ScopeDimensions(f: HardFilter, sha: ScopeId -> Text): seq<Dimension> {
    if f.scope.Some? then [Dimension(ScopeKey, Keys(f.scope.value, sha))] else []
  }

  function PartitionDimension(f: HardFilter): Dimension
    requires f.repositories.Some?
  {
    Dimension(Partition, SortedSet(f.repositories.value))
  }

  function ProjectBase(f: HardFilter): Filter {
    Base(f).(partition := Some(Exactly(STAR)))
  }

  function SemanticFilters(f: HardFilter, sha: ScopeId -> Text): Result<seq<Filter>> {
    if !Compactable(f) then Failure
    else if f.repositories == None then Product(Base(f), ScopeDimensions(f, sha))
    else
      var project := Product(ProjectBase(f), ScopeDimensions(f, sha));
      if project == Failure || f.repositories.value == [] then project
      else
        var others := Product(Base(f), [PartitionDimension(f)] + ScopeDimensions(f, sha));
        if others == Failure then Failure else Success(project.value + others.value)
  }

  ghost predicate Injective(sha: ScopeId -> Text) {
    forall a, b :: sha(a) == sha(b) ==> a == b
  }

  lemma {:induction false} KeyInScope(f: HardFilter, sha: ScopeId -> Text, c: Candidate)
    requires Injective(sha) && f.scope.Some?
    ensures sha(ScopeId(c.scope, c.scopeId)) in Keys(f.scope.value, sha) <==>
      (f.scope.value.ids != [] && c.scope == f.scope.value.kind && c.scopeId in f.scope.value.ids)
  {
    var s := f.scope.value;
    var key := sha(ScopeId(c.scope, c.scopeId));
    var hashed := seq(|s.ids|, i requires 0 <= i < |s.ids| => sha(ScopeId(s.kind, s.ids[i])));
    SortedSetHas(hashed, key);
    if key in hashed {
      var i :| 0 <= i < |hashed| && hashed[i] == key;
      assert ScopeId(s.kind, s.ids[i]) == ScopeId(c.scope, c.scopeId);
    }
    if c.scope == s.kind && c.scopeId in s.ids {
      var i :| 0 <= i < |s.ids| && s.ids[i] == c.scopeId;
      assert hashed[i] == key;
    }
  }

  lemma {:induction false} BaseMeans(c: Candidate, partition: Text, f: HardFilter, sha: ScopeId -> Text)
    requires Compactable(f)
    ensures Matches(Encode(c, partition, sha), Base(f)) <==>
      && c.generation == f.generation && c.status in f.statuses
      && InOptional(c.kind, f.kinds) && InOptional(c.memoryClass, f.memoryClasses)
      && (c.validFrom.Some? ==> c.validFrom.value <= f.validAt)
      && (c.validUntil.Some? ==> c.validUntil.value > f.validAt)
  {
  }

  lemma {:induction false} ScopeMeans(c: Candidate, partition: Text, f: HardFilter, sha: ScopeId -> Text)
    requires Injective(sha)
    ensures InDimensions(Encode(c, partition, sha), ScopeDimensions(f, sha)) <==>
      (f.scope.Some? ==> c.scope == f.scope.value.kind && c.scopeId in f.scope.value.ids)
  {
    InEach(Encode(c, partition, sha), ScopeDimensions(f, sha));
    if f.scope.Some? {
      KeyInScope(f, sha, c);
    }
  }

  lemma {:induction false} ProductMeans(c: Candidate, partition: Text, f: HardFilter, sha: ScopeId -> Text)
    requires Injective(sha) && Compactable(f) && c.project == f.project && CanPlan(Base(f), ScopeDimensions(f, sha))
    ensures MatchesAny(Encode(c, partition, sha), Planned(Base(f), ScopeDimensions(f, sha))) <==> Passes(c, f)
  {
    PlannedMatches(Encode(c, partition, sha), Base(f), ScopeDimensions(f, sha));
    BaseMeans(c, partition, f, sha);
    ScopeMeans(c, partition, f, sha);
  }

  lemma {:induction false} ProjectMeans(c: Candidate, partition: Text, f: HardFilter, sha: ScopeId -> Text)
    requires Injective(sha) && Compactable(f) && c.project == f.project
      && CanPlan(ProjectBase(f), ScopeDimensions(f, sha))
    ensures MatchesAny(Encode(c, partition, sha), Planned(ProjectBase(f), ScopeDimensions(f, sha))) <==>
      Passes(c, f) && partition == STAR
  {
    var m := Encode(c, partition, sha);
    PlannedMatches(m, ProjectBase(f), ScopeDimensions(f, sha));
    assert Matches(m, ProjectBase(f)) <==> Matches(m, Base(f)) && partition == STAR;
    BaseMeans(c, partition, f, sha);
    ScopeMeans(c, partition, f, sha);
  }

  lemma {:induction false} BothDimensions(m: Metadata, f: HardFilter, sha: ScopeId -> Text)
    requires f.repositories.Some?
    ensures InDimensions(m, [PartitionDimension(f)] + ScopeDimensions(f, sha)) <==>
      m.partition in SortedSet(f.repositories.value) && InDimensions(m, ScopeDimensions(f, sha))
  {
    InEach(m, [PartitionDimension(f)] + ScopeDimensions(f, sha));
    InEach(m, ScopeDimensions(f, sha));
  }

  lemma {:induction false} PartitionMeans(c: Candidate, partition: Text, f: HardFilter, sha: ScopeId -> Text)
    requires Injective(sha) && Compactable(f) && c.project == f.project && f.repositories.Some?
    requires CanPlan(Base(f), [PartitionDimension(f)] + ScopeDimensions(f, sha))
    ensures MatchesAny(Encode(c, partition, sha),
      Planned(Base(f), [PartitionDimension(f)] + ScopeDimensions(f, sha))) <==>
      Passes(c, f) && partition in f.repositories.value
  {
    var m, ds := Encode(c, partition, sha), [PartitionDimension(f)] + ScopeDimensions(f, sha);
    PlannedMatches(m, Base(f), ds);
    BothDimensions(m, f, sha);
    SortedSetHas(f.repositories.value, partition);
    BaseMeans(c, partition, f, sha);
    ScopeMeans(c, partition, f, sha);
  }

  lemma {:induction false} MatchesEither(m: Metadata, a: seq<Filter>, b: seq<Filter>)
    ensures MatchesAny(m, a + b) <==> MatchesAny(m, a) || MatchesAny(m, b)
  {
    if MatchesAny(m, a) {
      var f :| f in a && Matches(m, f);
      assert f in a + b;
    }
    if MatchesAny(m, b) {
      var f :| f in b && Matches(m, f);
      assert f in a + b;
    }
  }

  /**
   The planned filters mean the hard filter: an encoded candidate of the project matches one of them exactly when it
   passes and its partition is authorized, missing validity bounds included.
   */
  lemma {:induction false} FiltersMeanHardFilter(c: Candidate, partition: Text, f: HardFilter, sha: ScopeId -> Text)
    requires Injective(sha) && c.project == f.project && SemanticFilters(f, sha).Success?
    ensures MatchesAny(Encode(c, partition, sha), SemanticFilters(f, sha).value) <==>
      Passes(c, f) && Authorized(partition, f)
  {
    if f.repositories == None {
      ProductMeans(c, partition, f, sha);
    } else {
      ProjectMeans(c, partition, f, sha);
      if f.repositories.value != [] {
        PartitionMeans(c, partition, f, sha);
        MatchesEither(Encode(c, partition, sha), Planned(ProjectBase(f), ScopeDimensions(f, sha)),
                      Planned(Base(f), [PartitionDimension(f)] + ScopeDimensions(f, sha)));
      }
    }
  }

  /** And none of them is longer than the index accepts. */
  lemma {:induction false} FiltersFit(f: HardFilter, sha: ScopeId -> Text, g: Filter)
    requires SemanticFilters(f, sha).Success? && g in SemanticFilters(f, sha).value
    ensures FilterBytes(g) < MAX_FILTER_BYTES
  {
    if f.repositories == None {
      PlannedFits(Base(f), ScopeDimensions(f, sha), g);
    } else if g in Planned(ProjectBase(f), ScopeDimensions(f, sha)) {
      PlannedFits(ProjectBase(f), ScopeDimensions(f, sha), g);
    } else {
      PlannedFits(Base(f), [PartitionDimension(f)] + ScopeDimensions(f, sha), g);
    }
  }

  /** When the lists are nonempty and every value fits into its share of a filter. */
  predicate CanSplit(f: HardFilter, sha: ScopeId -> Text) {
    var scope := ScopeDimensions(f, sha);
    && Compactable(f)
    && match f.repositories
       case None => CanPlan(Base(f), scope)
       case Some(ids) =>
         CanPlan(ProjectBase(f), scope) && (ids == [] || CanPlan(Base(f), [PartitionDimension(f)] + scope))
  }

  /** The filters match exactly the encoded candidates that pass and whose partition is authorized. */
  ghost predicate MeansHardFilter(f: HardFilter, sha: ScopeId -> Text, planned: seq<Filter>) {
    forall c: Candidate, partition: Text | c.project == f.project ::
      MatchesAny(Encode(c, partition, sha), planned) <==> Passes(c, f) && Authorized(partition, f)
  }

  ghost predicate AllFitIndex(planned: seq<Filter>) {
    forall g :: g in planned ==> FilterBytes(g) < MAX_FILTER_BYTES
  }

  /**
   `planSemanticVectorFilters` fails exactly when a list is empty or a value does not fit; otherwise its filters are
   small enough and together mean the hard filter.
   */
  method PlanSemanticVectorFilters(f: HardFilter, sha: ScopeId -> Text) returns (r: Result<seq<Filter>>)
    ensures r.Success? <==> CanSplit(f, sha)
    ensures r.Success? ==> AllFitIndex(r.value)
    ensures r.Success? && Injective(sha) ==> MeansHardFilter(f, sha, r.value)
  {
    if !Compactable(f) {
      return Failure;
    }
    var scope := ScopeDimensions(f, sha);
    if f.repositories == None {
      r := PlanProduct(Base(f), scope);
      PlannedMeans(f, sha, r);
      return;
    }
    var project := PlanProduct(ProjectBase(f), scope);
    if project == Failure || f.repositories.value == [] {
      PlannedMeans(f, sha, project);
      return project;
    }
    var others := PlanProduct(Base(f), [PartitionDimension(f)] + scope);
    r := if others == Failure then Failure else Success(project.value + others.value);
    PlannedMeans(f, sha, r);
  }

  lemma {:induction false} PlannedMeans(f: HardFilter, sha: ScopeId -> Text, r: Result<seq<Filter>>)
    requires r == SemanticFilters(f, sha)
    ensures r.Success? <==> CanSplit(f, sha)
    ensures r.Success? ==> AllFitIndex(r.value)
    ensures r.Success? && Injective(sha) ==> MeansHardFilter(f, sha, r.value)
  {
    if r.Success? {
      forall g | g in r.value ensures FilterBytes(g) < MAX_FILTER_BYTES {
        FiltersFit(f, sha, g);
      }
      if Injective(sha) {
        forall c: Candidate, partition: Text | c.project == f.project
          ensures MatchesAny(Encode(c, partition, sha), r.value) <==> Passes(c, f) && Authorized(partition, f)
        {
          FiltersMeanHardFilter(c, partition, f, sha);
        }
      }
    }
  }
}
