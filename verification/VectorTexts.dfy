/** The sizes the planner counts are those of the JSON texts that are sent. */
module VectorTexts {
  import opened Common
  import opened JsonText
  import opened VectorFilters
  import VectorPlans
  import ProjectionPaths
  import JsonStrings
  import CanonicalJson
  import Decimal

  // ----- Texts

  function Lit(s: string): Text {
    ProjectionPaths.Lit(s)
  }

  /** The items of an array, with commas between them. */
  function ListText(values: seq<Text>): Text {
    if values == [] then []
    else if |values| == 1 then Quoted(values[0])
    else ListText(values[..|values| - 1]) + [CanonicalJson.COMMA] + Quoted(values[|values| - 1])
  }

  function ArrayText(values: seq<Text>): Text {
    Lit("[") + ListText(values) + Lit("]")
  }

  function StringsText(c: Strings): Text {
    match c
    case Exactly(v) => Quoted(v)
    case OneOf(vs) => Lit("{\"$in\":") + ArrayText(vs) + Lit("}")
  }

  function IntegerText(n: int): Text {
    if n < 0 then Lit("-") + Lit(Decimal.Print(-n)) else Lit(Decimal.Print(n))
  }

  function Member(name: string, value: Text): Text {
    [QUOTE] + Lit(name) + [QUOTE] + [CanonicalJson.COLON] + value
  }

  function OptionalMember(name: string, c: Option<Strings>): Text {
    if c.Some? then Lit(",") + Member(name, StringsText(c.value)) else []
  }

  function CoreText(f: Filter): Text {
    Lit("{") + Member("model_generation", Quoted(f.generation))
    + (Lit(",") + Member("status", StringsText(f.status)))
    + OptionalMember("kind", f.kind) + OptionalMember("memory_class", f.memoryClass)
    + (Lit(",") + Member("valid_from_epoch_ms", Lit("{\"$lte\":") + IntegerText(f.validAt) + Lit("}")))
    + (Lit(",") + Member("valid_until_epoch_ms", Lit("{\"$gt\":") + IntegerText(f.validAt) + Lit("}")))
  }

  /** `JSON.stringify` of a filter, its members in the order in which they were set. */
  function FilterText(f: Filter): Text {
    CoreText(f) + OptionalMember("repository_partition", f.partition) + OptionalMember("scope_key", f.scopeKey)
      + Lit("}")
  }

  // ----- Their sizes

  lemma {:induction false} BytesOfBoth(a: Text, b: Text)
    ensures ByteLength(a + b) == ByteLength(a) + ByteLength(b)
  {
    if b == [] {
      assert a + b == a;
    } else {
      var n := |b| - 1;
      BytesOfBoth(a, b[..n]);
      assert (a + b)[..|a + b| - 1] == a + b[..n];
    }
  }

  lemma {:induction false} BytesOfAscii(t: Text)
    requires forall k :: 0 <= k < |t| ==> t[k] < 0x80
    ensures ByteLength(t) == |t|
  {
    if t != [] {
      BytesOfAscii(t[..|t| - 1]);
    }
  }

  predicate IsAscii(s: string) {
    forall k :: 0 <= k < |s| ==> s[k] as int < 0x80
  }

  lemma {:induction false} BytesOfLit(s: string)
    requires IsAscii(s)
    ensures ByteLength(Lit(s)) == |s|
  {
    BytesOfAscii(Lit(s));
  }

  lemma {:induction false} BytesOfList(values: seq<Text>)
    ensures ByteLength(ListText(values)) == Contribution(values)
  {
    if |values| > 1 {
      var front, last := values[..|values| - 1], Quoted(values[|values| - 1]);
      BytesOfList(front);
      BytesOfBoth(ListText(front) + [CanonicalJson.COMMA], last);
      BytesOfBoth(ListText(front), [CanonicalJson.COMMA]);
      BytesOfAscii([CanonicalJson.COMMA]);
    } else if |values| == 1 {
      assert values[..0] == [] && Contribution([]) == 0;
    }
  }

  /** What a batch adds to a filter is its array without the brackets. */
  lemma {:induction false} ContributionIsArray(values: seq<Text>)
    ensures Contribution(values) == ByteLength(ArrayText(values)) - 2
  {
    BytesOfList(values);
    BytesOfLit("[");
    BytesOfLit("]");
    BytesOfBoth(Lit("[") + ListText(values), Lit("]"));
    BytesOfBoth(Lit("["), ListText(values));
  }

  lemma {:induction false} BytesOfStrings(c: Strings)
    ensures ByteLength(StringsText(c)) == StringsBytes(c)
  {
    if c.OneOf? {
      var list := ArrayText(c.values);
      ContributionIsArray(c.values);
      BytesOfLit("{\"$in\":");
      BytesOfLit("}");
      BytesOfBoth(Lit("{\"$in\":") + list, Lit("}"));
      BytesOfBoth(Lit("{\"$in\":"), list);
    }
  }

  lemma {:induction false} BytesOfInteger(n: int)
    ensures ByteLength(IntegerText(n)) == IntegerBytes(n)
  {
    var m := if n < 0 then -n else n;
    Decimal.PrintIsCanonical(m);
    forall k | 0 <= k < |Decimal.Print(m)| ensures Decimal.Print(m)[k] as int < 0x80 {
      assert Decimal.IsDigit(Decimal.Print(m)[k]);
    }
    BytesOfLit(Decimal.Print(m));
    BytesOfLit("-");
    BytesOfBoth(Lit("-"), Lit(Decimal.Print(m)));
  }

  lemma {:induction false} BytesOfMember(name: string, value: Text)
    requires IsAscii(name)
    ensures ByteLength(Member(name, value)) == MemberBytes(name, ByteLength(value))
  {
    var front := [QUOTE] + Lit(name) + [QUOTE] + [CanonicalJson.COLON];
    BytesOfBoth(front, value);
    BytesOfAscii(front);
  }

  lemma {:induction false} BytesOfOptional(name: string, c: Option<Strings>)
    requires IsAscii(name)
    ensures ByteLength(OptionalMember(name, c)) == OptionalBytes(name, c)
  {
    if c.Some? {
      var member := Member(name, StringsText(c.value));
      BytesOfMember(name, StringsText(c.value));
      BytesOfStrings(c.value);
      BytesOfLit(",");
      BytesOfBoth(Lit(","), member);
    }
  }

  lemma {:induction false} BytesOfNext(name: string, value: Text)
    requires IsAscii(name)
    ensures ByteLength(Lit(",") + Member(name, value)) == 1 + MemberBytes(name, ByteLength(value))
  {
    BytesOfMember(name, value);
    BytesOfLit(",");
    BytesOfBoth(Lit(","), Member(name, value));
  }

  lemma {:induction false} BytesOfBound(before: string, n: int)
    requires IsAscii(before)
    ensures ByteLength(Lit(before) + IntegerText(n) + Lit("}")) == |before| + 1 + IntegerBytes(n)
  {
    BytesOfInteger(n);
    BytesOfLit(before);
    BytesOfLit("}");
    BytesOfBoth(Lit(before) + IntegerText(n), Lit("}"));
    BytesOfBoth(Lit(before), IntegerText(n));
  }

  lemma {:induction false} BytesOfSix(a: Text, b: Text, c: Text, d: Text, e: Text, g: Text)
    ensures ByteLength(a + b + c + d + e + g) ==
      ByteLength(a) + ByteLength(b) + ByteLength(c) + ByteLength(d) + ByteLength(e) + ByteLength(g)
  {
    BytesOfBoth(a + b + c + d + e, g);
    BytesOfBoth(a + b + c + d, e);
    BytesOfBoth(a + b + c, d);
    BytesOfBoth(a + b, c);
    BytesOfBoth(a, b);
  }

  lemma {:induction false} NamesAreAscii()
    ensures IsAscii("model_generation") && IsAscii("status") && IsAscii("kind") && IsAscii("memory_class")
    ensures IsAscii("repository_partition") && IsAscii("scope_key")
  {
  }

  lemma {:induction false} BoundsAreAscii()
    ensures IsAscii("valid_from_epoch_ms") && IsAscii("valid_until_epoch_ms")
    ensures IsAscii("{\"$lte\":") && IsAscii("{\"$gt\":")
  {
  }

  lemma {:induction false} BytesOfCore(f: Filter)
    ensures ByteLength(CoreText(f)) + 1 == CoreBytes(f)
  {
    NamesAreAscii();
    BoundsAreAscii();
    var from, until := Lit("{\"$lte\":") + IntegerText(f.validAt) + Lit("}"), Lit("{\"$gt\":") + IntegerText(f.validAt)
      + Lit("}");
    var generation := Lit("{") + Member("model_generation", Quoted(f.generation));
    BytesOfLit("{");
    BytesOfBoth(Lit("{"), Member("model_generation", Quoted(f.generation)));
    BytesOfMember("model_generation", Quoted(f.generation));
    BytesOfStrings(f.status);
    BytesOfNext("status", StringsText(f.status));
    BytesOfOptional("kind", f.kind);
    BytesOfOptional("memory_class", f.memoryClass);
    BytesOfBound("{\"$lte\":", f.validAt);
    BytesOfBound("{\"$gt\":", f.validAt);
    BytesOfNext("valid_from_epoch_ms", from);
    BytesOfNext("valid_until_epoch_ms", until);
    BytesOfSix(generation, Lit(",") + Member("status", StringsText(f.status)), OptionalMember("kind", f.kind),
      OptionalMember("memory_class", f.memoryClass), Lit(",") + Member("valid_from_epoch_ms", from),
      Lit(",") + Member("valid_until_epoch_ms", until));
  }

  /** The size of a filter is that of its text. */
  lemma {:induction false} FilterBytesAreText(f: Filter)
    ensures FilterBytes(f) == ByteLength(FilterText(f))
  {
    NamesAreAscii();
    BytesOfCore(f);
    var a, b := OptionalMember("repository_partition", f.partition), OptionalMember("scope_key", f.scopeKey);
    BytesOfOptional("repository_partition", f.partition);
    BytesOfOptional("scope_key", f.scopeKey);
    BytesOfLit("}");
    BytesOfBoth(CoreText(f) + a + b, Lit("}"));
    BytesOfBoth(CoreText(f) + a, b);
    BytesOfBoth(CoreText(f), a);
  }

  // ----- Bytes are those of UTF-8

  function Utf8Bytes(s: Text, i: nat): nat
    requires i <= |s|
    decreases |s| - i
  {
    if i == |s| then 0
    else |ProjectionPaths.Utf8(ProjectionPaths.PointAt(s, i))| + Utf8Bytes(s, i + ProjectionPaths.PointLength(s, i))
  }

  lemma {:induction false} BytesOfUnit(c: Unit)
    ensures ByteLength([c]) == UnitBytes(c)
  {
    assert [c][..0] == [] && ByteLength([]) == 0;
  }

  lemma {:induction false} PointBytes(s: Text, i: nat)
    requires i < |s| && (ProjectionPaths.PointLength(s, i) == 2 || !(IsHigh(s[i]) || IsLow(s[i])))
    ensures |ProjectionPaths.Utf8(ProjectionPaths.PointAt(s, i))| ==
      ByteLength(s[i..i + ProjectionPaths.PointLength(s, i)])
  {
    if ProjectionPaths.PointLength(s, i) == 2 {
      assert s[i..i + 2] == [s[i]] + [s[i + 1]];
      BytesOfBoth([s[i]], [s[i + 1]]);
      BytesOfUnit(s[i]);
      BytesOfUnit(s[i + 1]);
    } else {
      assert s[i..i + 1] == [s[i]];
      BytesOfUnit(s[i]);
    }
  }

  /** A text without lone surrogates has as many bytes as its code points have in UTF-8. */
  lemma {:induction false} BytesAreUtf8(s: Text, i: nat)
    requires i <= |s| && ProjectionPaths.EncodableFrom(s, i)
    ensures ByteLength(s[i..]) == Utf8Bytes(s, i)
    decreases |s| - i
  {
    if i < |s| {
      var n := i + ProjectionPaths.PointLength(s, i);
      BytesAreUtf8(s, n);
      PointBytes(s, i);
      assert s[i..] == s[i..n] + s[n..];
      BytesOfBoth(s[i..n], s[n..]);
    }
  }

  lemma {:induction false} LitIsPaired(s: string)
    requires IsAscii(s)
    ensures JsonStrings.IsPaired(Lit(s))
  {
    JsonStrings.PlainIsPaired(Lit(s), 0);
  }

  lemma {:induction false} ListIsPaired(values: seq<Text>)
    ensures JsonStrings.IsPaired(ListText(values))
  {
    if |values| == 1 {
      JsonStrings.QuotedIsPaired(values[0]);
    } else if |values| > 1 {
      var front, last := ListText(values[..|values| - 1]), Quoted(values[|values| - 1]);
      ListIsPaired(values[..|values| - 1]);
      JsonStrings.QuotedIsPaired(values[|values| - 1]);
      JsonStrings.PlainIsPaired([CanonicalJson.COMMA], 0);
      JsonStrings.PairedConcat(front, [CanonicalJson.COMMA]);
      JsonStrings.PairedConcat(front + [CanonicalJson.COMMA], last);
    }
  }

  lemma {:induction false} AroundIsPaired(before: string, t: Text, after: string)
    requires IsAscii(before) && IsAscii(after) && JsonStrings.IsPaired(t)
    ensures JsonStrings.IsPaired(Lit(before) + t + Lit(after)) && JsonStrings.IsPaired(Lit(before) + t)
  {
    LitIsPaired(before);
    LitIsPaired(after);
    JsonStrings.PairedConcat(Lit(before), t);
    JsonStrings.PairedConcat(Lit(before) + t, Lit(after));
  }

  lemma {:induction false} StringsArePaired(c: Strings)
    ensures JsonStrings.IsPaired(StringsText(c))
  {
    match c
    case Exactly(v) => JsonStrings.QuotedIsPaired(v);
    case OneOf(vs) =>
      ListIsPaired(vs);
      AroundIsPaired("[", ListText(vs), "]");
      AroundIsPaired("{\"$in\":", ArrayText(vs), "}");
  }

  lemma {:induction false} MemberIsPaired(name: string, value: Text)
    requires IsAscii(name) && JsonStrings.IsPaired(value)
    ensures JsonStrings.IsPaired(Member(name, value)) && JsonStrings.IsPaired(Lit(",") + Member(name, value))
  {
    var front := [QUOTE] + Lit(name) + [QUOTE] + [CanonicalJson.COLON];
    JsonStrings.PlainIsPaired(front, 0);
    JsonStrings.PairedConcat(front, value);
    AroundIsPaired(",", Member(name, value), ",");
  }

  lemma {:induction false} OptionalIsPaired(name: string, c: Option<Strings>)
    requires IsAscii(name)
    ensures JsonStrings.IsPaired(OptionalMember(name, c))
  {
    if c.Some? {
      StringsArePaired(c.value);
      MemberIsPaired(name, StringsText(c.value));
    } else {
      JsonStrings.PlainIsPaired([], 0);
    }
  }

  lemma {:induction false} BoundIsPaired(before: string, n: int)
    requires IsAscii(before)
    ensures JsonStrings.IsPaired(Lit(before) + IntegerText(n) + Lit("}"))
  {
    var m := if n < 0 then -n else n;
    Decimal.PrintIsCanonical(m);
    forall k | 0 <= k < |Decimal.Print(m)| ensures Decimal.Print(m)[k] as int < 0x80 {
      assert Decimal.IsDigit(Decimal.Print(m)[k]);
    }
    LitIsPaired(Decimal.Print(m));
    AroundIsPaired("-", Lit(Decimal.Print(m)), "");
    AroundIsPaired(before, IntegerText(n), "}");
  }

  lemma {:induction false} SixArePaired(a: Text, b: Text, c: Text, d: Text, e: Text, g: Text)
    requires JsonStrings.IsPaired(a) && JsonStrings.IsPaired(b) && JsonStrings.IsPaired(c)
    requires JsonStrings.IsPaired(d) && JsonStrings.IsPaired(e) && JsonStrings.IsPaired(g)
    ensures JsonStrings.IsPaired(a + b + c + d + e + g)
  {
    JsonStrings.PairedConcat(a, b);
    JsonStrings.PairedConcat(a + b, c);
    JsonStrings.PairedConcat(a + b + c, d);
    JsonStrings.PairedConcat(a + b + c + d, e);
    JsonStrings.PairedConcat(a + b + c + d + e, g);
  }

  lemma {:induction false} CoreIsPaired(f: Filter)
    ensures JsonStrings.IsPaired(CoreText(f))
  {
    NamesAreAscii();
    BoundsAreAscii();
    var from, until := Lit("{\"$lte\":") + IntegerText(f.validAt) + Lit("}"), Lit("{\"$gt\":") + IntegerText(f.validAt)
      + Lit("}");
    JsonStrings.QuotedIsPaired(f.generation);
    MemberIsPaired("model_generation", Quoted(f.generation));
    AroundIsPaired("{", Member("model_generation", Quoted(f.generation)), "");
    StringsArePaired(f.status);
    MemberIsPaired("status", StringsText(f.status));
    OptionalIsPaired("kind", f.kind);
    OptionalIsPaired("memory_class", f.memoryClass);
    BoundIsPaired("{\"$lte\":", f.validAt);
    BoundIsPaired("{\"$gt\":", f.validAt);
    MemberIsPaired("valid_from_epoch_ms", from);
    MemberIsPaired("valid_until_epoch_ms", until);
    SixArePaired(Lit("{") + Member("model_generation", Quoted(f.generation)),
      Lit(",") + Member("status", StringsText(f.status)), OptionalMember("kind", f.kind),
      OptionalMember("memory_class", f.memoryClass), Lit(",") + Member("valid_from_epoch_ms", from),
      Lit(",") + Member("valid_until_epoch_ms", until));
  }

  /** The size counted for a filter is the number of bytes its text has in UTF-8. */
  lemma {:induction false} FilterBytesAreUtf8(f: Filter)
    ensures JsonStrings.IsPaired(FilterText(f)) && FilterBytes(f) == Utf8Bytes(FilterText(f), 0)
  {
    NamesAreAscii();
    CoreIsPaired(f);
    var a, b := OptionalMember("repository_partition", f.partition), OptionalMember("scope_key", f.scopeKey);
    OptionalIsPaired("repository_partition", f.partition);
    OptionalIsPaired("scope_key", f.scopeKey);
    LitIsPaired("}");
    JsonStrings.PairedConcat(CoreText(f), a);
    JsonStrings.PairedConcat(CoreText(f) + a, b);
    JsonStrings.PairedConcat(CoreText(f) + a + b, Lit("}"));
    FilterBytesAreText(f);
    BytesAreUtf8(FilterText(f), 0);
    assert FilterText(f)[0..] == FilterText(f);
  }

  /** No text that is sent as a filter reaches the limit. */
  lemma {:induction false} TextsFit(f: VectorPlans.HardFilter, sha: VectorPlans.ScopeId -> Text, g: Filter)
    requires VectorPlans.SemanticFilters(f, sha).Success? && g in VectorPlans.SemanticFilters(f, sha).value
    ensures Utf8Bytes(FilterText(g), 0) < 2_048
  {
    VectorPlans.FiltersFit(f, sha, g);
    FilterBytesAreUtf8(g);
  }
}
