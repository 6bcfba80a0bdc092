/**
 Splitting one hard filter into vector index filters of bounded size
 (src/search/vector-filtering.ts, src/search/vector-metadata.ts, src/search/planning.ts).
 */
module VectorFilters {
  import opened Common
  import opened JsonText
  import Decimal

  const MAX_FILTER_BYTES: nat := 2_048
  const MIN_SAFE_INTEGER: int := -0x1F_FFFF_FFFF_FFFF

  /** What `Date.parse` can return. */
  type Epoch = t: int | -8_640_000_000_000_000 <= t <= 8_640_000_000_000_000 witness 0

  // ----- Sizes

  /** UTF-8 bytes of a unit of well-formed text: a surrogate is half of a four-byte pair. */
  function UnitBytes(c: Unit): nat {
    if c < 0x80 then 1 else if c < 0x800 || IsHigh(c) || IsLow(c) then 2 else 3
  }

  function ByteLength(t: Text): nat {
    if t == [] then 0 else ByteLength(t[..|t| - 1]) + UnitBytes(t[|t| - 1])
  }

  /** Bytes of `JSON.stringify` of a string. */
  function JsonBytes(v: Text): (n: nat)
    ensures n >= 1
  {
    ByteLength(Quoted(v))
  }

  function Contribution(values: seq<Text>): nat {
    if values == [] then 0
    else Contribution(values[..|values| - 1]) + (if |values| > 1 then 1 else 0) + JsonBytes(values[|values| - 1])
  }

  // ----- Filters

  datatype Strings = Exactly(value: Text) | OneOf(values: seq<Text>)

  datatype FieldName = Partition | ScopeKey

  datatype Filter = Filter(
    generation: Text, status: Strings, kind: Option<Strings>, memoryClass: Option<Strings>, validAt: Epoch,
    partition: Option<Strings>, scopeKey: Option<Strings>)

  datatype Metadata = Metadata(
    generation: Text, status: Text, kind: Text, memoryClass: Text, validFrom: int, validUntil: int,
    partition: Text, scopeKey: Text)

  /** `compactStringFilter` of a nonempty list. */
  function Compact(values: seq<Text>): Strings {
    if |values| == 1 then Exactly(values[0]) else OneOf(values)
  }

  predicate MatchesStrings(v: Text, c: Strings) {
    match c case Exactly(w) => v == w case OneOf(ws) => v in ws
  }

  predicate MatchesOptional(v: Text, c: Option<Strings>) {
    c.Some? ==> MatchesStrings(v, c.value)
  }

  predicate Matches(m: Metadata, f: Filter) {
    && m.generation == f.generation && MatchesStrings(m.status, f.status)
    && MatchesOptional(m.kind, f.kind) && MatchesOptional(m.memoryClass, f.memoryClass)
    && m.validFrom <= f.validAt < m.validUntil
    && MatchesOptional(m.partition, f.partition) && MatchesOptional(m.scopeKey, f.scopeKey)
  }

  function StringsBytes(c: Strings): nat {
    match c case Exactly(v) => JsonBytes(v) case OneOf(vs) => |"{\"$in\":[]}"| + Contribution(vs)
  }

  function MemberBytes(name: string, value: nat): nat {
    |name| + 3 + value
  }

  function OptionalBytes(name: string, c: Option<Strings>): nat {
    if c.Some? then 1 + MemberBytes(name, StringsBytes(c.value)) else 0
  }

  function IntegerBytes(n: int): nat {
    if n < 0 then 1 + |Decimal.Print(-n)| else |Decimal.Print(n)|
  }

  /** The members every planned filter shares. */
  function CoreBytes(f: Filter): nat {
    2 + MemberBytes("model_generation", JsonBytes(f.generation))
    + 1 + MemberBytes("status", StringsBytes(f.status))
    + OptionalBytes("kind", f.kind) + OptionalBytes("memory_class", f.memoryClass)
    + 1 + MemberBytes("valid_from_epoch_ms", |"{\"$lte\":}"| + IntegerBytes(f.validAt))
    + 1 + MemberBytes("valid_until_epoch_ms", |"{\"$gt\":}"| + IntegerBytes(f.validAt))
  }

  /** `vectorizeFilterByteLength` */
  function FilterBytes(f: Filter): nat {
    CoreBytes(f) + OptionalBytes("repository_partition", f.partition) + OptionalBytes("scope_key", f.scopeKey)
  }

  function SetField(f: Filter, name: FieldName, c: Strings): Filter {
    match name case Partition => f.(partition := Some(c)) case ScopeKey => f.(scopeKey := Some(c))
  }

  function FieldOf(m: Metadata, name: FieldName): Text {
    match name case Partition => m.partition case ScopeKey => m.scopeKey
  }

  // ----- Batching one dimension

  /** The finished batches and the one being filled. */
  datatype Filling = Filling(done: seq<seq<Text>>, batch: seq<Text>)

  function Add(f: Filling, value: Text, budget: nat): Filling {
    if Contribution(f.batch + [value]) <= budget then Filling(f.done, f.batch + [value])
    else Filling(f.done + [f.batch], [value])
  }

  function BatchesSoFar(values: seq<Text>, budget: nat): Filling {
    if values == [] then Filling([], [])
    else Add(BatchesSoFar(values[..|values| - 1], budget), values[|values| - 1], budget)
  }

  function Batches(values: seq<Text>, budget: nat): seq<seq<Text>> {
    var f := BatchesSoFar(values, budget);
    if f.batch == [] then f.done else f.done + [f.batch]
  }

  predicate AllFit(values: seq<Text>, budget: nat) {
    forall i :: 0 <= i < |values| ==> JsonBytes(values[i]) <= budget
  }

  function Flatten(batches: seq<seq<Text>>): seq<Text> {
    if batches == [] then [] else Flatten(batches[..|batches| - 1]) + batches[|batches| - 1]
  }

  predicate GoodBatches(batches: seq<seq<Text>>, budget: nat) {
    forall i :: 0 <= i < |batches| ==> batches[i] != [] && Contribution(batches[i]) <= budget
  }

  lemma {:induction false} SplitLast<T>(s: seq<T>)
    requires s != []
    ensures s == s[..|s| - 1] + [s[|s| - 1]]
  {
  }

  lemma {:induction false} AllFitNext(values: seq<Text>, n: nat, budget: nat)
    requires n < |values|
    ensures AllFit(values[..n + 1], budget) <==> AllFit(values[..n], budget) && JsonBytes(values[n]) <= budget
  {
    assert values[..n + 1] == values[..n] + [values[n]];
    if AllFit(values[..n + 1], budget) {
      forall i | 0 <= i < n ensures JsonBytes(values[..n][i]) <= budget {
        assert values[..n + 1][i] == values[..n][i];
      }
      assert values[..n + 1][n] == values[n];
    }
  }

  lemma {:induction false} SomeDoesNotFit(values: seq<Text>, n: nat, budget: nat)
    requires n < |values| && JsonBytes(values[n]) > budget
    ensures !AllFit(values, budget)
  {
  }

  predicate FillingOk(f: Filling, values: seq<Text>, budget: nat) {
    && Flatten(f.done) + f.batch == values && GoodBatches(f.done, budget) && Contribution(f.batch) <= budget
    && (values != [] ==> f.batch != [])
  }

  lemma {:induction false} AddWorks(f: Filling, values: seq<Text>, value: Text, budget: nat)
    requires FillingOk(f, values, budget) && JsonBytes(value) <= budget
    ensures FillingOk(Add(f, value, budget), values + [value], budget)
  {
    SingleContribution(value);
    assert (f.done + [f.batch])[..|f.done|] == f.done;
    if f.batch == [] {
      assert f.batch + [value] == [value];
    }
  }

  lemma {:induction false} BatchesSoFarWork(values: seq<Text>, budget: nat)
    requires AllFit(values, budget)
    ensures FillingOk(BatchesSoFar(values, budget), values, budget)
  {
    if values != [] {
      var front := values[..|values| - 1];
      SplitLast(values);
      BatchesSoFarWork(front, budget);
      AddWorks(BatchesSoFar(front, budget), front, values[|values| - 1], budget);
    }
  }

  /** Batching loses nothing, keeps the order, and fills no batch beyond its budget. */
  lemma {:induction false} BatchesWork(values: seq<Text>, budget: nat)
    requires AllFit(values, budget)
    ensures Flatten(Batches(values, budget)) == values && GoodBatches(Batches(values, budget), budget)
  {
    BatchesSoFarWork(values, budget);
    var f := BatchesSoFar(values, budget);
    assert (f.done + [f.batch])[..|f.done|] == f.done;
  }

  lemma {:induction false} FlattenHas(batches: seq<seq<Text>>, v: Text)
    ensures v in Flatten(batches) <==> exists i :: 0 <= i < |batches| && v in batches[i]
  {
    if batches != [] {
      FlattenHas(batches[..|batches| - 1], v);
      if i :| 0 <= i < |batches| && v in batches[i] {
        if i < |batches| - 1 {
          assert v in batches[..|batches| - 1][i];
        }
      }
    }
  }

  /** `batchStringValues`: it fails exactly when one value alone is over the budget. */
  method BatchStringValues(values: seq<Text>, budget: nat) returns (r: Result<seq<seq<Text>>>)
    ensures r == if AllFit(values, budget) then Success(Batches(values, budget)) else Failure
  {
    var f := Filling([], []);
    for n := 0 to |values|
      invariant AllFit(values[..n], budget)
      invariant f == BatchesSoFar(values[..n], budget) && (f.batch == [] <==> n == 0)
    {
      var value := values[n];
      NextBatches(values, n, budget);
      AllFitNext(values, n, budget);
      if Contribution(f.batch + [value]) <= budget {
        f := Filling(f.done, f.batch + [value]);
        continue;
      }
      if f.batch == [] {
        SomeDoesNotFit(values, n, budget);
        return Failure;
      }
      f := Filling(f.done + [f.batch], [value]);
      if Contribution(f.batch) > budget {
        SomeDoesNotFit(values, n, budget);
        return Failure;
      }
    }
    assert values[..|values|] == values;
    r := Success(if f.batch == [] then f.done else f.done + [f.batch]);
  }

  lemma {:induction false} NextBatches(values: seq<Text>, n: nat, budget: nat)
    requires n < |values|
    ensures BatchesSoFar(values[..n + 1], budget) == Add(BatchesSoFar(values[..n], budget), values[n], budget)
    ensures var f := BatchesSoFar(values[..n], budget);
      && Contribution(f.batch + [values[n]]) >= JsonBytes(values[n])
      && Contribution([values[n]]) == JsonBytes(values[n])
      && (f.batch == [] ==> Contribution(f.batch + [values[n]]) == JsonBytes(values[n]))
  {
    assert values[..n + 1][..n] == values[..n];
    var f := BatchesSoFar(values[..n], budget);
    SingleContribution(values[n]);
    LongerContribution(f.batch, values[n]);
    if f.batch == [] {
      assert f.batch + [values[n]] == [values[n]];
    }
  }

  lemma {:induction false} SingleContribution(v: Text)
    ensures Contribution([v]) == JsonBytes(v)
  {
    assert [v][..0] == [];
  }

  lemma {:induction false} LongerContribution(batch: seq<Text>, v: Text)
    ensures Contribution(batch + [v]) >= JsonBytes(v)
  {
  }
}
