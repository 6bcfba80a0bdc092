/** Exact recall split into statements of at most a hundred bindings (src/search/cloudflare.ts). */
module ExactRecall {
  import opened Common

  const MAX_BINDINGS: nat := 100

  datatype Kind = MemoryId | Symbol | FilePath | Sha

  datatype Reference = Reference(kind: Kind, value: nat)

  /** A row by its rank in the order of memory, revision and chunk identifiers. */
  type Hit = nat

  // ----- The first rows of a set in order

  function MinOf(s: set<Hit>): (m: Hit)
    requires s != {}
    ensures m in s && forall x :: x in s ==> m <= x
  {
    MinExists(s);
    var m :| m in s && forall x :: x in s ==> m <= x;
    m
  }

  lemma {:induction false} MinExists(s: set<Hit>)
    requires s != {}
    ensures exists m :: m in s && forall x :: x in s ==> m <= x
    decreases s
  {
    var a :| a in s;
    if s != {a} {
      var rest := s - {a};
      MinExists(rest);
      var m :| m in rest && forall x :: x in rest ==> m <= x;
      assert forall x :: x in s ==> x == a || x in rest;
      if a < m {
        assert a in s && forall x :: x in s ==> a <= x;
      } else {
        assert m in s && forall x :: x in s ==> m <= x;
      }
    }
  }

  /** `ORDER BY ... LIMIT n` */
  function Top(s: set<Hit>, n: nat): seq<Hit> {
    if n == 0 || s == {} then [] else [MinOf(s)] + Top(s - {MinOf(s)}, n - 1)
  }

  lemma {:induction false} TopIsSorted(s: set<Hit>, n: nat)
    ensures forall x :: x in Top(s, n) ==> x in s
    ensures forall i, j :: 0 <= i < j < |Top(s, n)| ==> Top(s, n)[i] < Top(s, n)[j]
    ensures |Top(s, n)| <= n
  {
    if n > 0 && s != {} {
      var m, rest := MinOf(s), Top(s - {MinOf(s)}, n - 1);
      TopIsSorted(s - {m}, n - 1);
      forall i | 0 <= i < |rest| ensures m < rest[i] {
        assert rest[i] in rest;
      }
    }
  }

  lemma {:induction false} TopPrefix(s: set<Hit>, m: nat, n: nat)
    requires m <= n
    ensures Top(s, m) == if m < |Top(s, n)| then Top(s, n)[..m] else Top(s, n)
  {
    if m > 0 && s != {} {
      TopPrefix(s - {MinOf(s)}, m - 1, n - 1);
    }
  }

  /** A row among the first of the whole is among the first of every part it belongs to. */
  lemma {:induction false} TopOfPart(whole: set<Hit>, part: set<Hit>, n: nat, x: Hit)
    requires part <= whole && x in part && x in Top(whole, n)
    ensures x in Top(part, n)
  {
    var m := MinOf(whole);
    if m in part {
      assert MinOf(part) == m;
      if x != m {
        TopOfPart(whole - {m}, part - {m}, n - 1, x);
      }
    } else {
      TopOfPart(whole - {m}, part, n - 1, x);
      TopPrefix(part, n - 1, n);
    }
  }

  /** Leaving out rows that are not among the first changes nothing. */
  lemma {:induction false} TopOfEnough(whole: set<Hit>, part: set<Hit>, n: nat)
    requires part <= whole && forall x :: x in Top(whole, n) ==> x in part
    ensures Top(part, n) == Top(whole, n)
  {
    if n > 0 && whole != {} {
      var m := MinOf(whole);
      assert m in Top(whole, n);
      assert MinOf(part) == m;
      TopIsSorted(whole - {m}, n - 1);
      forall x | x in Top(whole - {m}, n - 1) ensures x in part - {m} {
        assert x in Top(whole, n);
      }
      TopOfEnough(whole - {m}, part - {m}, n - 1);
    }
  }

  // ----- Bindings

  function ReferenceBindings(r: Reference): nat {
    match r.kind case MemoryId => 1 case Symbol => 2 case _ => 3
  }

  function BatchBindings(rs: seq<Reference>): nat {
    if rs == [] then 0 else BatchBindings(rs[..|rs| - 1]) + ReferenceBindings(rs[|rs| - 1])
  }

  /** Sizes of a hard filter's value lists; absent lists are `None`. */
  datatype Lists = Lists(statuses: nat, kinds: Option<nat>, classes: Option<nat>, repositories: Option<nat>,
    scopeIds: Option<nat>)

  function ListBindings(n: nat, compact: bool): nat {
    if compact then 1 else n
  }

  function OptionalBindings(n: Option<nat>, compact: bool): nat {
    if n.Some? then ListBindings(n.value, compact) else 0
  }

  /** Generation, project, the lists, the scope type and the two validity bounds. */
  function FilterBindings(l: Lists, compact: bool): nat {
    2 + ListBindings(l.statuses, compact) + OptionalBindings(l.kinds, compact) + OptionalBindings(l.classes, compact)
    + (if l.repositories.Some? then ListBindings(1 + l.repositories.value, compact) else 0)
    + (if l.scopeIds.Some? then 1 + ListBindings(l.scopeIds.value, compact) else 0)
    + 2
  }

  predicate NoEmptyList(l: Lists) {
    l.statuses > 0 && l.kinds != Some(0) && l.classes != Some(0) && l.scopeIds != Some(0)
  }

  function PlannedBindings(l: Lists, reserved: nat): Result<nat> {
    if !NoEmptyList(l) then Failure
    else if FilterBindings(l, false) + reserved <= MAX_BINDINGS then Success(FilterBindings(l, false))
    else if FilterBindings(l, true) + reserved <= MAX_BINDINGS then Success(FilterBindings(l, true))
    else Failure
  }

  function MaxReference(rs: seq<Reference>): nat {
    if rs == [] then 0 else Max(MaxReference(rs[..|rs| - 1]), ReferenceBindings(rs[|rs| - 1])) as nat
  }

  lemma {:induction false} MaxReferenceBounds(rs: seq<Reference>)
    ensures MaxReference(rs) <= 3 && forall i :: 0 <= i < |rs| ==> ReferenceBindings(rs[i]) <= MaxReference(rs)
  {
    if rs != [] {
      MaxReferenceBounds(rs[..|rs| - 1]);
    }
  }

  /** Compact lists always fit, so only an empty list makes the filters fail. */
  lemma {:induction false} FiltersAlwaysFit(l: Lists, rs: seq<Reference>)
    ensures PlannedBindings(l, MaxReference(rs) + 1).Success? <==>
      && l.statuses != 0 && (l.kinds.Some? ==> l.kinds.value != 0) && (l.classes.Some? ==> l.classes.value != 0)
      && (l.scopeIds.Some? ==> l.scopeIds.value != 0)
    ensures PlannedBindings(l, MaxReference(rs) + 1).Success? ==>
      PlannedBindings(l, MaxReference(rs) + 1).value + MaxReference(rs) + 1 <= MAX_BINDINGS
  {
    MaxReferenceBounds(rs);
  }

  // ----- Batches

  datatype Filling = Filling(done: seq<seq<Reference>>, batch: seq<Reference>)

  function AddReference(f: Filling, r: Reference, budget: nat): Filling {
    if f.batch != [] && BatchBindings(f.batch) + ReferenceBindings(r) > budget then Filling(f.done + [f.batch], [r])
    else Filling(f.done, f.batch + [r])
  }

  function FillingOf(rs: seq<Reference>, budget: nat): Filling {
    if rs == [] then Filling([], []) else AddReference(FillingOf(rs[..|rs| - 1], budget), rs[|rs| - 1], budget)
  }

  function Closed(f: Filling): seq<seq<Reference>> {
    if f.batch == [] then f.done else f.done + [f.batch]
  }

  function Batches(rs: seq<Reference>, budget: nat): seq<seq<Reference>> {
    Closed(FillingOf(rs, budget))
  }

  lemma {:induction false} BindingsOfMore(batch: seq<Reference>, r: Reference)
    ensures BatchBindings(batch + [r]) == BatchBindings(batch) + ReferenceBindings(r)
  {
    assert (batch + [r])[..|batch|] == batch;
  }

  lemma {:induction false} NextFilling(rs: seq<Reference>, n: nat, budget: nat)
    requires n < |rs|
    ensures FillingOf(rs[..n + 1], budget) == AddReference(FillingOf(rs[..n], budget), rs[n], budget)
    ensures BatchBindings(FillingOf(rs[..n], budget).batch + [rs[n]]) ==
      BatchBindings(FillingOf(rs[..n], budget).batch) + ReferenceBindings(rs[n])
    ensures BatchBindings([] + [rs[n]]) == ReferenceBindings(rs[n]) && [] + [rs[n]] == [rs[n]]
  {
    assert rs[..n + 1][..n] == rs[..n];
    BindingsOfMore(FillingOf(rs[..n], budget).batch, rs[n]);
    BindingsOfMore([], rs[n]);
  }

  /** `batchExactReferences`; with the budget the filters leave, its overflow error cannot happen. */
  method BatchExactReferences(rs: seq<Reference>, budget: nat) returns (r: Result<seq<seq<Reference>>>)
    ensures r.Success? <==> forall i :: 0 <= i < |rs| ==> ReferenceBindings(rs[i]) <= budget
    ensures r.Success? ==> r.value == Batches(rs, budget)
  {
    var f := Filling([], []);
    var used: nat := 0;
    for n := 0 to |rs|
      invariant f == FillingOf(rs[..n], budget) && used == BatchBindings(f.batch)
      invariant forall i :: 0 <= i < n ==> ReferenceBindings(rs[i]) <= budget
    {
      NextFilling(rs, n, budget);
      var required := ReferenceBindings(rs[n]);
      if required > budget {
        return Failure;
      }
      if f.batch != [] && used + required > budget {
        f := Filling(f.done + [f.batch], []);
        used := 0;
      }
      f := f.(batch := f.batch + [rs[n]]);
      used := used + required;
    }
    assert rs[..|rs|] == rs;
    r := Success(Closed(f));
  }

  lemma {:induction false} BatchesFit(rs: seq<Reference>, budget: nat)
    requires forall i :: 0 <= i < |rs| ==> ReferenceBindings(rs[i]) <= budget
    ensures var f := FillingOf(rs, budget);
      BatchBindings(f.batch) <= budget && forall i :: 0 <= i < |f.done| ==> BatchBindings(f.done[i]) <= budget
  {
    if rs != [] {
      BatchesFit(rs[..|rs| - 1], budget);
      BindingsOfMore(FillingOf(rs[..|rs| - 1], budget).batch, rs[|rs| - 1]);
      BindingsOfMore([], rs[|rs| - 1]);
      assert [] + [rs[|rs| - 1]] == [rs[|rs| - 1]];
    }
  }

  /** Every statement stays within the binding limit: filters, references and the limit itself. */
  lemma {:induction false} StatementsFit(l: Lists, rs: seq<Reference>)
    requires NoEmptyList(l)
    ensures var hard := PlannedBindings(l, MaxReference(rs) + 1);
      && hard.Success? && hard.value < MAX_BINDINGS
      && var batches := Batches(rs, MAX_BINDINGS - hard.value - 1);
         forall i :: 0 <= i < |batches| ==> hard.value + BatchBindings(batches[i]) + 1 <= MAX_BINDINGS
  {
    FiltersAlwaysFit(l, rs);
    MaxReferenceBounds(rs);
    BatchesFit(rs, MAX_BINDINGS - PlannedBindings(l, MaxReference(rs) + 1).value - 1);
  }

  // ----- The split query

  /** The rows a list of references finds, given what each finds under the hard filters. */
  function Found(found: Reference -> set<Hit>, rs: seq<Reference>): set<Hit> {
    if rs == [] then {} else Found(found, rs[..|rs| - 1]) + found(rs[|rs| - 1])
  }

  function FoundByAll(found: Reference -> set<Hit>, batches: seq<seq<Reference>>): set<Hit> {
    if batches == [] then {} else FoundByAll(found, batches[..|batches| - 1]) + Found(found, batches[|batches| - 1])
  }

  lemma {:induction false} FoundByMore(found: Reference -> set<Hit>, rs: seq<Reference>, r: Reference)
    ensures Found(found, rs + [r]) == Found(found, rs) + found(r)
  {
    assert (rs + [r])[..|rs|] == rs;
  }

  lemma {:induction false} FoundByMoreBatches(found: Reference -> set<Hit>, batches: seq<seq<Reference>>,
    b: seq<Reference>)
    ensures FoundByAll(found, batches + [b]) == FoundByAll(found, batches) + Found(found, b)
  {
    assert (batches + [b])[..|batches|] == batches;
  }

  /** Splitting loses no reference. */
  lemma {:induction false} BatchesFindAll(found: Reference -> set<Hit>, rs: seq<Reference>, budget: nat)
    ensures var f := FillingOf(rs, budget); FoundByAll(found, f.done) + Found(found, f.batch) == Found(found, rs)
  {
    if rs != [] {
      var front, r := rs[..|rs| - 1], rs[|rs| - 1];
      BatchesFindAll(found, front, budget);
      var f := FillingOf(front, budget);
      FoundByMore(found, f.batch, r);
      FoundByMore(found, [], r);
      assert [] + [r] == [r];
      FoundByMoreBatches(found, f.done, f.batch);
    }
  }

  /** The hits of all statements together, each cut at the limit. */
  function Collected(found: Reference -> set<Hit>, batches: seq<seq<Reference>>, limit: nat): seq<Hit> {
    if batches == [] then []
    else Collected(found, batches[..|batches| - 1], limit) + Top(Found(found, batches[|batches| - 1]), limit)
  }

  lemma {:induction false} CollectedHolds(found: Reference -> set<Hit>, batches: seq<seq<Reference>>, limit: nat,
    x: Hit)
    ensures x in Collected(found, batches, limit) ==> x in FoundByAll(found, batches)
    ensures forall whole: set<Hit> ::
      FoundByAll(found, batches) <= whole && x in FoundByAll(found, batches) && x in Top(whole, limit) ==>
        x in Collected(found, batches, limit)
  {
    if batches != [] {
      var last := Found(found, batches[|batches| - 1]);
      CollectedHolds(found, batches[..|batches| - 1], limit, x);
      TopIsSorted(last, limit);
      forall whole: set<Hit> | FoundByAll(found, batches) <= whole && x in FoundByAll(found, batches)
        && x in Top(whole, limit)
        ensures x in Collected(found, batches, limit)
      {
        if x in last {
          TopOfPart(whole, last, limit, x);
        }
      }
    }
  }

  function SetOf(hits: seq<Hit>): set<Hit> {
    set i | 0 <= i < |hits| :: hits[i]
  }

  /** `deduplicateAndSortRecallHits` and the final cut. */
  method DeduplicateAndSort(hits: seq<Hit>, limit: nat) returns (r: seq<Hit>)
    ensures r == Top(SetOf(hits), limit)
  {
    var unique: set<Hit> := {};
    for n := 0 to |hits|
      invariant unique == SetOf(hits[..n])
    {
      assert hits[..n + 1] == hits[..n] + [hits[n]];
      if hits[n] !in unique {
        unique := unique + {hits[n]};
      }
    }
    assert hits[..|hits|] == hits;
    var sorted := Top(unique, Max(limit, |unique|) as nat);
    TopPrefix(unique, limit, Max(limit, |unique|) as nat);
    r := if limit < |sorted| then sorted[..limit] else sorted;
  }

  method QueryBatches(found: Reference -> set<Hit>, batches: seq<seq<Reference>>, limit: nat) returns (hits: seq<Hit>)
    ensures hits == Collected(found, batches, limit)
  {
    hits := [];
    for n := 0 to |batches|
      invariant hits == Collected(found, batches[..n], limit)
    {
      assert batches[..n + 1][..n] == batches[..n];
      hits := hits + Top(Found(found, batches[n]), limit);
    }
    assert batches[..|batches|] == batches;
  }

  /** The split query, deduplicated, sorted and cut, is the unsplit one. */
  lemma {:induction false} SplitIsUnsplit(found: Reference -> set<Hit>, rs: seq<Reference>, budget: nat, limit: nat)
    ensures Top(SetOf(Collected(found, Batches(rs, budget), limit)), limit) == Top(Found(found, rs), limit)
  {
    var whole := Found(found, rs);
    var batches := Batches(rs, budget);
    var collected := Collected(found, batches, limit);
    BatchesFindAll(found, rs, budget);
    FoundByMoreBatches(found, FillingOf(rs, budget).done, FillingOf(rs, budget).batch);
    assert FoundByAll(found, batches) == whole;
    TopIsSorted(whole, limit);
    forall x ensures x in SetOf(collected) ==> x in whole {
      CollectedHolds(found, batches, limit, x);
    }
    forall x | x in Top(whole, limit) ensures x in SetOf(collected) {
      CollectedHolds(found, batches, limit, x);
    }
    TopOfEnough(whole, SetOf(collected), limit);
  }

  lemma {:induction false} OneBatchIsEnough(found: Reference -> set<Hit>, batches: seq<seq<Reference>>, limit: nat)
    requires |batches| == 1
    ensures Top(SetOf(Collected(found, batches, limit)), limit) == Collected(found, batches, limit)
  {
    var s := Found(found, batches[0]);
    assert batches[..0] == [];
    assert Collected(found, batches, limit) == Top(s, limit);
    TopIsSorted(s, limit);
    assert forall x :: x in Top(s, limit) <==> x in SetOf(Top(s, limit));
    TopOfEnough(s, SetOf(Top(s, limit)), limit);
  }

  /** `SearchDbExactRecallProvider.recall` finds what a single query without any binding limit would find. */
  method Recall(found: Reference -> set<Hit>, rs: seq<Reference>, l: Lists, limit: nat) returns (r: Result<seq<Hit>>)
    ensures r == if rs == [] then Success([]) else if NoEmptyList(l) then Success(Top(Found(found, rs), limit))
      else Failure
  {
    if rs == [] {
      return Success([]);
    }
    FiltersAlwaysFit(l, rs);
    MaxReferenceBounds(rs);
    var hard := PlannedBindings(l, MaxReference(rs) + 1);
    if hard == Failure {
      return Failure;
    }
    var budget := MAX_BINDINGS - hard.value - 1;
    var batches := BatchExactReferences(rs, budget);
    if batches == Failure {
      return Failure;
    }
    SplitIsUnsplit(found, rs, budget, limit);
    var hits := QueryBatches(found, batches.value, limit);
    if |batches.value| == 1 {
      OneBatchIsEnough(found, batches.value, limit);
      return Success(hits);
    }
    var sorted := DeduplicateAndSort(hits, limit);
    r := Success(sorted);
  }
}
