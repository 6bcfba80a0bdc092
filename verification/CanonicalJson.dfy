/** Canonical JSON (src/security/canonical-json.ts): keys in code unit order as in section 3.2.3 of RFC 8785. */
module CanonicalJson {
  import opened Common
  import opened JsonText

  datatype Entry = Entry(key: Text, value: Json)

  /**
   What a caller may pass: JSON, and two kinds of value that are refused. An object lists its entries in any order.
   */
  datatype Json =
    | Null
    | Bool(b: bool)
    | Num(n: Number)
    | Str(s: Text)
    | Arr(items: seq<Json>)
    | Obj(entries: seq<Entry>)
    | NonFinite
    | Unsupported

  predicate DistinctKeys(es: seq<Entry>) {
    forall i, j :: 0 <= i < j < |es| ==> es[i].key != es[j].key
  }

  /**
   What can be serialized. That keys are distinct and numbers are their shortest digits holds of every value there
   is.
   */
  predicate Clean(v: Json) {
    match v
    case Num(n) => WellFormed(n)
    case Arr(items) => forall i :: 0 <= i < |items| ==> Clean(items[i])
    case Obj(entries) => DistinctKeys(entries) && forall i :: 0 <= i < |entries| ==> Clean(entries[i].value)
    case NonFinite => false
    case Unsupported => false
    case _ => true
  }

  // ----- Sorting

  predicate Less(a: Text, b: Text) {
    if b == [] then false
    else if a == [] then true
    else if a[0] != b[0] then a[0] < b[0]
    else Less(a[1..], b[1..])
  }

  lemma {:induction false} LessIsTotal(a: Text, b: Text)
    ensures a == b || Less(a, b) || Less(b, a)
    ensures !(Less(a, b) && Less(b, a)) && !Less(a, a)
  {
    if a != [] && b != [] && a[0] == b[0] {
      LessIsTotal(a[1..], b[1..]);
      assert a == [a[0]] + a[1..] && b == [b[0]] + b[1..];
    }
    if a != [] {
      LessIsTotal(a[1..], a[1..]);
    }
  }

  lemma {:induction false} LessIsTransitive(a: Text, b: Text, c: Text)
    requires Less(a, b) && Less(b, c)
    ensures Less(a, c)
  {
    if a != [] && a[0] == b[0] && b[0] == c[0] {
      LessIsTransitive(a[1..], b[1..], c[1..]);
    }
  }

  /** A key and the text of its value. */
  datatype Field = Field(key: Text, text: Text)

  function Insert(fs: seq<Field>, f: Field): (r: seq<Field>)
    ensures |r| == |fs| + 1
  {
    if fs == [] || Less(fs[|fs| - 1].key, f.key) then fs + [f]
    else Insert(fs[..|fs| - 1], f) + [fs[|fs| - 1]]
  }

  function Sorted(fs: seq<Field>): (r: seq<Field>)
    ensures |r| == |fs|
  {
    if fs == [] then [] else Insert(Sorted(fs[..|fs| - 1]), fs[|fs| - 1])
  }

  ghost predicate StrictlySorted(fs: seq<Field>) {
    forall i, j :: 0 <= i < j < |fs| ==> Less(fs[i].key, fs[j].key)
  }

  lemma {:induction false} InsertHas(fs: seq<Field>, f: Field)
    ensures forall g :: g in Insert(fs, f) <==> g == f || g in fs
  {
    if !(fs == [] || Less(fs[|fs| - 1].key, f.key)) {
      InsertHas(fs[..|fs| - 1], f);
      assert fs == fs[..|fs| - 1] + [fs[|fs| - 1]];
    }
  }

  lemma {:induction false} InsertSorts(fs: seq<Field>, f: Field)
    requires StrictlySorted(fs) && forall g :: g in fs ==> g.key != f.key
    ensures StrictlySorted(Insert(fs, f))
  {
    if fs == [] {
    } else if Less(fs[|fs| - 1].key, f.key) {
      forall i | 0 <= i < |fs| ensures Less(fs[i].key, f.key) {
        if i < |fs| - 1 {
          LessIsTransitive(fs[i].key, fs[|fs| - 1].key, f.key);
        }
      }
    } else {
      var front, last := fs[..|fs| - 1], fs[|fs| - 1];
      assert forall g :: g in front ==> g in fs;
      InsertSorts(front, f);
      InsertHas(front, f);
      assert last in fs;
      LessIsTotal(last.key, f.key);
      forall i | 0 <= i < |front| + 1 ensures Less(Insert(front, f)[i].key, last.key) {
        assert Insert(front, f)[i] in Insert(front, f);
      }
    }
  }

  ghost predicate DistinctFields(fs: seq<Field>) {
    forall i, j :: 0 <= i < j < |fs| ==> fs[i].key != fs[j].key
  }

  lemma {:induction false} SortedSorts(fs: seq<Field>)
    requires DistinctFields(fs)
    ensures StrictlySorted(Sorted(fs)) && forall g :: g in Sorted(fs) <==> g in fs
  {
    if fs != [] {
      var front, last := fs[..|fs| - 1], fs[|fs| - 1];
      SortedSorts(front);
      InsertHas(Sorted(front), last);
      forall g | g in Sorted(front) ensures g.key != last.key {
        assert g in front;
      }
      InsertSorts(Sorted(front), last);
      assert fs == front + [last];
    }
  }

  /** There is only one way to put distinct keys in order. */
  lemma {:induction false} OneOrder(fs: seq<Field>, gs: seq<Field>)
    requires StrictlySorted(fs) && StrictlySorted(gs) && forall f :: f in fs <==> f in gs
    ensures fs == gs
  {
    if fs == [] {
      assert forall i :: 0 <= i < |gs| ==> gs[i] in fs;
    } else {
      assert fs[|fs| - 1] in gs;
      var last := fs[|fs| - 1];
      var end := gs[|gs| - 1];
      assert end in gs && end in fs;
      assert end == last by {
        LessIsTotal(end.key, last.key);
      }
      var f, g := fs[..|fs| - 1], gs[..|gs| - 1];
      assert fs == f + [last] && gs == g + [last];
      LessIsTotal(last.key, last.key);
      forall x | x in f ensures x != last {
      }
      forall x | x in g ensures x != last {
      }
      forall x | x in f ensures x in g {
        assert x in fs;
      }
      forall x | x in g ensures x in f {
        assert x in gs;
      }
      OneOrder(f, g);
    }
  }

  // ----- Serializing

  const COMMA: Unit := 0x2C
  const COLON: Unit := 0x3A
  const OPEN_ARRAY: Unit := 0x5B
  const CLOSE_ARRAY: Unit := 0x5D
  const OPEN_OBJECT: Unit := 0x7B
  const CLOSE_OBJECT: Unit := 0x7D

  const NULL_TEXT: Text := [0x6E, 0x75, 0x6C, 0x6C]
  const TRUE_TEXT: Text := [0x74, 0x72, 0x75, 0x65]
  const FALSE_TEXT: Text := [0x66, 0x61, 0x6C, 0x73, 0x65]

  /** `texts.join(",")` and the closing bracket, from one element on. */
  function ItemsFrom(texts: seq<Text>, i: nat): Text
    requires i <= |texts|
    decreases |texts| - i
  {
    if i == |texts| then [CLOSE_ARRAY] else (if i > 0 then [COMMA] else []) + texts[i] + ItemsFrom(texts, i + 1)
  }

  function FieldText(f: Field): Text {
    Quoted(f.key) + [COLON] + f.text
  }

  function FieldsFrom(fs: seq<Field>, i: nat): Text
    requires i <= |fs|
    decreases |fs| - i
  {
    if i == |fs| then [CLOSE_OBJECT] else (if i > 0 then [COMMA] else []) + FieldText(fs[i]) + FieldsFrom(fs, i + 1)
  }

  function Texts(items: seq<Json>): (r: seq<Text>)
    requires forall i :: 0 <= i < |items| ==> Clean(items[i])
    ensures |r| == |items|
    ensures forall i :: 0 <= i < |items| ==> r[i] == Serialized(items[i])
  {
    if items == [] then [] else Texts(items[..|items| - 1]) + [Serialized(items[|items| - 1])]
  }

  function Fields(entries: seq<Entry>): (r: seq<Field>)
    requires forall i :: 0 <= i < |entries| ==> Clean(entries[i].value)
    ensures |r| == |entries|
    ensures forall i :: 0 <= i < |entries| ==> r[i] == Field(entries[i].key, Serialized(entries[i].value))
  {
    if entries == [] then []
    else
      var e := entries[|entries| - 1];
      Fields(entries[..|entries| - 1]) + [Field(e.key, Serialized(e.value))]
  }

  function Serialized(v: Json): Text
    requires Clean(v)
  {
    match v
    case Null => NULL_TEXT
    case Bool(b) => if b then TRUE_TEXT else FALSE_TEXT
    case Num(n) => NumberText(n)
    case Str(s) => Quoted(s)
    case Arr(items) => [OPEN_ARRAY] + ItemsFrom(Texts(items), 0)
    case Obj(entries) => [OPEN_OBJECT] + FieldsFrom(Sorted(Fields(entries)), 0)
  }

  function CanonicalText(v: Json): Result<Text>
  {
    if Clean(v) then Success(Serialized(v)) else Failure
  }

  // ----- The same JSON value, up to key order and the sign of zero

  predicate Same(a: Json, b: Json) {
    match a
    case Num(n) => b.Num? && SameNumber(n, b.n)
    case Arr(items) => b.Arr? && |items| == |b.items| && forall i :: 0 <= i < |items| ==> Same(items[i], b.items[i])
    case Obj(entries) =>
      && b.Obj?
      && (forall i :: 0 <= i < |entries| ==> HasSame(entries[i], b.entries))
      && (forall j :: 0 <= j < |b.entries| ==> HasKey(entries, b.entries[j].key))
    case _ => a == b
  }

  predicate HasSame(e: Entry, others: seq<Entry>) {
    exists j :: 0 <= j < |others| && SameEntry(e, others[j])
  }

  predicate SameEntry(e: Entry, f: Entry) {
    e.key == f.key && Same(e.value, f.value)
  }

  predicate HasKey(entries: seq<Entry>, key: Text) {
    exists i :: 0 <= i < |entries| && entries[i].key == key
  }

  function FieldOf(e: Entry): Field
    requires Clean(e.value)
  {
    Field(e.key, Serialized(e.value))
  }

  lemma {:induction false} FieldsAt(entries: seq<Entry>)
    requires Clean(Obj(entries))
    ensures forall i :: 0 <= i < |entries| ==> Clean(entries[i].value) && Fields(entries)[i] == FieldOf(entries[i])
    ensures DistinctFields(Fields(entries))
    ensures Serialized(Obj(entries)) == [OPEN_OBJECT] + FieldsFrom(Sorted(Fields(entries)), 0)
  {
  }

  lemma {:induction false} EqualKeysMeet(entries: seq<Entry>, i: nat, j: nat)
    requires Clean(Obj(entries)) && i < |entries| && j < |entries| && entries[i].key == entries[j].key
    ensures i == j
  {
  }

  /** Two lists of fields with one set of elements are sorted alike. */
  lemma {:induction false} SameElementsSortAlike(f: seq<Field>, g: seq<Field>)
    requires DistinctFields(f) && DistinctFields(g)
    requires (forall i :: 0 <= i < |f| ==> f[i] in g) && (forall j :: 0 <= j < |g| ==> g[j] in f)
    ensures Sorted(f) == Sorted(g)
  {
    SortedSorts(f);
    SortedSorts(g);
    forall x ensures x in Sorted(f) <==> x in Sorted(g) {
    }
    OneOrder(Sorted(f), Sorted(g));
  }

  lemma {:induction false} SameArrays(a: Json, b: Json)
    requires Clean(a) && Clean(b) && Same(a, b) && a.Arr?
    ensures Serialized(a) == Serialized(b)
    decreases a, 0, 0
  {
    forall i | 0 <= i < |a.items| ensures Texts(a.items)[i] == Texts(b.items)[i] {
      SameValuesSameText(a.items[i], b.items[i]);
    }
    assert Texts(a.items) == Texts(b.items);
  }

  /** The entry of b that stands for a's entry i. */
  lemma {:induction false} Partner(a: Json, b: Json, i: nat) returns (j: nat)
    requires Clean(a) && Clean(b) && Same(a, b) && a.Obj? && i < |a.entries|
    ensures b.Obj? && j < |b.entries| && b.entries[j].key == a.entries[i].key
    ensures Clean(a.entries[i].value) && Clean(b.entries[j].value) && FieldOf(b.entries[j]) == FieldOf(a.entries[i])
    decreases a, 0, 0
  {
    assert HasSame(a.entries[i], b.entries);
    j :| 0 <= j < |b.entries| && SameEntry(a.entries[i], b.entries[j]);
    SameValuesSameText(a.entries[i].value, b.entries[j].value);
  }

  lemma {:induction false} SameObjects(a: Json, b: Json)
    requires Clean(a) && Clean(b) && Same(a, b) && a.Obj?
    ensures Serialized(a) == Serialized(b)
    decreases a, 1, 0
  {
    var f, g := Fields(a.entries), Fields(b.entries);
    FieldsAt(a.entries);
    FieldsAt(b.entries);
    forall i | 0 <= i < |f| ensures f[i] in g {
      var j := Partner(a, b, i);
      assert g[j] == f[i];
    }
    forall j | 0 <= j < |g| ensures g[j] in f {
      assert HasKey(a.entries, b.entries[j].key);
      var i :| 0 <= i < |a.entries| && a.entries[i].key == b.entries[j].key;
      var k := Partner(a, b, i);
      EqualKeysMeet(b.entries, k, j);
      assert f[i] == g[j];
    }
    SameElementsSortAlike(f, g);
  }

  lemma {:induction false} SameValuesSameText(a: Json, b: Json)
    requires Clean(a) && Clean(b) && Same(a, b)
    ensures Serialized(a) == Serialized(b)
    decreases a, 2, 0
  {
    match a
    case Num(n) => NumberTextInjective(n, b.n);
    case Arr(_) => SameArrays(a, b);
    case Obj(_) => SameObjects(a, b);
    case _ =>
  }

  // ----- Reading back

  /** What can follow a value: nothing, or a comma or closing bracket. */
  predicate Delimited(x: Text) {
    x == [] || x[0] == COMMA || x[0] == CLOSE_ARRAY || x[0] == CLOSE_OBJECT
  }

  datatype Class = Literal | Numeral | Quote | Array | Object

  function ClassOf(v: Json): Class
    requires Clean(v)
  {
    match v
    case Null => Literal
    case Bool(_) => Literal
    case Num(_) => Numeral
    case Str(_) => Quote
    case Arr(_) => Array
    case Obj(_) => Object
  }

  lemma {:induction false} FirstUnit(v: Json)
    requires Clean(v)
    ensures Serialized(v) != []
    ensures var c := Serialized(v)[0];
      match ClassOf(v)
      case Literal => c == 0x6E || c == 0x74 || c == 0x66
      case Numeral => IsDigit(c) || c == MINUS
      case Quote => c == QUOTE
      case Array => c == OPEN_ARRAY
      case Object => c == OPEN_OBJECT
  {
    if v.Num? {
      NumberUnits(v.n);
    }
  }

  lemma {:induction false} SameClass(a: Json, b: Json, x: Text, y: Text)
    requires Clean(a) && Clean(b) && Serialized(a) + x == Serialized(b) + y
    ensures ClassOf(a) == ClassOf(b)
  {
    FirstUnit(a);
    FirstUnit(b);
    assert (Serialized(a) + x)[0] == Serialized(a)[0] && (Serialized(b) + y)[0] == Serialized(b)[0];
  }

  lemma {:induction false} LiteralIsReadable(a: Json, b: Json, x: Text, y: Text)
    requires Clean(a) && Clean(b) && ClassOf(a) == Literal == ClassOf(b)
    requires Serialized(a) + x == Serialized(b) + y
    ensures a == b && x == y
  {
    var s, t := Serialized(a), Serialized(b);
    assert (s + x)[0] == s[0] && (t + y)[0] == t[0];
    assert x == (s + x)[|s|..] && y == (t + y)[|t|..];
  }

  /** Splitting off a prefix of known length. */
  lemma {:induction false} SameSuffix(a: Text, b: Text, x: Text, y: Text)
    requires a + x == b + y && x == y
    ensures a == b
  {
    assert |a| == |b|;
    assert a == (a + x)[..|a|] && b == (b + y)[..|b|];
  }

  ghost predicate ItemTexts(texts: seq<Text>) {
    forall k :: 0 <= k < |texts| ==> texts[k] != [] && texts[k][0] != CLOSE_ARRAY && texts[k][0] != COMMA
  }

  lemma {:induction false} ItemsStart(texts: seq<Text>, i: nat, x: Text)
    requires i <= |texts| && ItemTexts(texts)
    ensures ItemsFrom(texts, i) + x != [] && ((ItemsFrom(texts, i) + x)[0] == CLOSE_ARRAY <==> i == |texts|)
    ensures i > 0 ==> Delimited(ItemsFrom(texts, i) + x)
  {
    if i < |texts| {
      assert ItemsFrom(texts, i)[0] == (if i > 0 then COMMA else texts[i][0]);
    }
  }

  /** Two equal array texts are at their end together, or show the same next element. */
  ghost predicate ItemsMeet(s: seq<Text>, t: seq<Text>, i: nat, x: Text, y: Text)
    requires i <= |s| && i <= |t|
  {
    && (i == |s| <==> i == |t|)
    && (i == |s| ==> x == y)
    && (i < |s| ==>
          && s[i] + (ItemsFrom(s, i + 1) + x) == t[i] + (ItemsFrom(t, i + 1) + y)
          && Delimited(ItemsFrom(s, i + 1) + x) && Delimited(ItemsFrom(t, i + 1) + y))
  }

  lemma {:induction false} ItemStep(s: seq<Text>, t: seq<Text>, i: nat, x: Text, y: Text)
    requires i <= |s| && i <= |t| && ItemTexts(s) && ItemTexts(t)
    requires ItemsFrom(s, i) + x == ItemsFrom(t, i) + y
    ensures ItemsMeet(s, t, i, x, y)
  {
    ItemsStart(s, i, x);
    ItemsStart(t, i, y);
    if i == |s| {
      assert x == ([CLOSE_ARRAY] + x)[1..] && y == ([CLOSE_ARRAY] + y)[1..];
    } else {
      ItemNext(s, i, x);
      ItemNext(t, i, y);
      ItemsStart(s, i + 1, x);
      ItemsStart(t, i + 1, y);
    }
  }

  lemma {:induction false} TextsStart(items: seq<Json>)
    requires Clean(Arr(items))
    ensures ItemTexts(Texts(items)) && |Texts(items)| == |items|
    ensures forall k :: 0 <= k < |items| ==> Clean(items[k]) && Texts(items)[k] == Serialized(items[k])
  {
    forall k | 0 <= k < |items|
      ensures Texts(items)[k] != [] && Texts(items)[k][0] != CLOSE_ARRAY && Texts(items)[k][0] != COMMA
    {
      FirstUnit(items[k]);
    }
  }

  lemma {:induction false} ItemNext(texts: seq<Text>, i: nat, x: Text)
    requires i < |texts|
    ensures (ItemsFrom(texts, i) + x)[if i > 0 then 1 else 0..] == texts[i] + (ItemsFrom(texts, i + 1) + x)
  {
  }

  lemma {:induction false} ItemReadable(a: Json, b: Json, i: nat, x: Text, y: Text)
    requires Clean(a) && Clean(b) && a.Arr? && b.Arr? && i < |a.items| && i < |b.items| && Delimited(x) && Delimited(y)
    requires Texts(a.items)[i] + x == Texts(b.items)[i] + y
    ensures Same(a.items[i], b.items[i]) && x == y
    decreases a, 0, 0
  {
    Readable(a.items[i], b.items[i], x, y);
  }

  lemma {:induction false} NextItemReadable(a: Json, b: Json, s: seq<Text>, t: seq<Text>, i: nat, x: Text, y: Text)
    requires Clean(a) && Clean(b) && a.Arr? && b.Arr? && s == Texts(a.items) && t == Texts(b.items)
    requires ItemTexts(s) && ItemTexts(t) && i < |s| && i < |t| && ItemsMeet(s, t, i, x, y)
    ensures Same(a.items[i], b.items[i]) && ItemsMeet(s, t, i + 1, x, y)
    decreases a, 1, 0
  {
    ItemReadable(a, b, i, ItemsFrom(s, i + 1) + x, ItemsFrom(t, i + 1) + y);
    ItemStep(s, t, i + 1, x, y);
  }

  lemma {:induction false} ItemsMeetAt(a: Json, b: Json, s: seq<Text>, t: seq<Text>, k: nat, x: Text, y: Text)
    requires Clean(a) && Clean(b) && a.Arr? && b.Arr? && s == Texts(a.items) && t == Texts(b.items)
    requires ItemTexts(s) && ItemTexts(t) && ItemsMeet(s, t, 0, x, y) && k <= |s|
    ensures k <= |t| && ItemsMeet(s, t, k, x, y)
    decreases a, 2, k
  {
    if k > 0 {
      ItemsMeetAt(a, b, s, t, k - 1, x, y);
      NextItemReadable(a, b, s, t, k - 1, x, y);
    }
  }

  lemma {:induction false} FieldsStart(fs: seq<Field>, i: nat, x: Text)
    requires i <= |fs|
    ensures FieldsFrom(fs, i) + x != [] && ((FieldsFrom(fs, i) + x)[0] == CLOSE_OBJECT <==> i == |fs|)
    ensures i > 0 ==> Delimited(FieldsFrom(fs, i) + x)
  {
    if i < |fs| {
      assert FieldText(fs[i])[0] == QUOTE;
      assert FieldsFrom(fs, i)[0] == (if i > 0 then COMMA else QUOTE);
    }
  }

  function FieldRest(fs: seq<Field>, i: nat, x: Text): Text
    requires i < |fs|
  {
    fs[i].text + (FieldsFrom(fs, i + 1) + x)
  }

  lemma {:induction false} FieldNext(fs: seq<Field>, i: nat, x: Text)
    requires i < |fs|
    ensures FieldsFrom(fs, i) + x ==
      (if i > 0 then [COMMA] else []) + (Quoted(fs[i].key) + ([COLON] + FieldRest(fs, i, x)))
  {
    Reassociate(if i > 0 then [COMMA] else [], Quoted(fs[i].key), [COLON], fs[i].text, FieldsFrom(fs, i + 1), x);
  }

  lemma {:induction false} Reassociate(c: Text, q: Text, colon: Text, t: Text, rest: Text, x: Text)
    ensures c + (q + colon + t) + rest + x == c + (q + (colon + (t + (rest + x))))
  {
  }

  /** Two equal object texts are at their end together, or show the same next key and then its value. */
  ghost predicate FieldsMeet(f: seq<Field>, g: seq<Field>, i: nat, x: Text, y: Text)
    requires i <= |f| && i <= |g|
  {
    && (i == |f| <==> i == |g|)
    && (i == |f| ==> x == y)
    && (i < |f| ==>
          && f[i].key == g[i].key && FieldRest(f, i, x) == FieldRest(g, i, y)
          && Delimited(FieldsFrom(f, i + 1) + x) && Delimited(FieldsFrom(g, i + 1) + y))
  }

  lemma {:induction false} FieldStep(f: seq<Field>, g: seq<Field>, i: nat, x: Text, y: Text)
    requires i <= |f| && i <= |g| && FieldsFrom(f, i) + x == FieldsFrom(g, i) + y
    ensures FieldsMeet(f, g, i, x, y)
  {
    FieldsStart(f, i, x);
    FieldsStart(g, i, y);
    if i == |f| {
      assert x == ([CLOSE_OBJECT] + x)[1..] && y == ([CLOSE_OBJECT] + y)[1..];
    } else {
      FieldNext(f, i, x);
      FieldNext(g, i, y);
      var p, q := [COLON] + FieldRest(f, i, x), [COLON] + FieldRest(g, i, y);
      var c := if i > 0 then [COMMA] else [];
      assert Quoted(f[i].key) + p == (c + (Quoted(f[i].key) + p))[|c|..];
      assert Quoted(g[i].key) + q == (c + (Quoted(g[i].key) + q))[|c|..];
      QuotedIsReadable(f[i].key, g[i].key, p, q);
      assert FieldRest(f, i, x) == p[1..] && FieldRest(g, i, y) == q[1..];
      FieldsStart(f, i + 1, x);
      FieldsStart(g, i + 1, y);
    }
  }

  /** The entry a field of the sorted list stands for. */
  lemma {:induction false} FieldOrigin(entries: seq<Entry>, i: nat) returns (j: nat)
    requires Clean(Obj(entries)) && i < |Sorted(Fields(entries))|
    ensures j < |entries| && Clean(entries[j].value) && Sorted(Fields(entries))[i] == FieldOf(entries[j])
  {
    FieldsAt(entries);
    SortedSorts(Fields(entries));
    assert Sorted(Fields(entries))[i] in Fields(entries);
    j :| 0 <= j < |entries| && Fields(entries)[j] == Sorted(Fields(entries))[i];
  }

  ghost predicate IsChildText(v: Json, text: Text) {
    v.Obj? && exists j :: 0 <= j < |v.entries| && Clean(v.entries[j].value) && Serialized(v.entries[j].value) == text
  }

  ghost predicate ChildTexts(v: Json, fs: seq<Field>) {
    forall i {:trigger IsChildText(v, fs[i].text)} :: 0 <= i < |fs| ==> IsChildText(v, fs[i].text)
  }

  lemma {:induction false} SortedChildTexts(v: Json)
    requires Clean(v) && v.Obj?
    ensures ChildTexts(v, Sorted(Fields(v.entries)))
  {
    forall i | 0 <= i < |Sorted(Fields(v.entries))| ensures IsChildText(v, Sorted(Fields(v.entries))[i].text) {
      var j := FieldOrigin(v.entries, i);
    }
  }

  lemma {:induction false} ChildReadable(a: Json, b: Json, s: Text, t: Text, x: Text, y: Text)
    requires IsChildText(a, s) && IsChildText(b, t) && s + x == t + y && Delimited(x) && Delimited(y)
    ensures s == t && x == y
    decreases a, 0, 0
  {
    var j :| 0 <= j < |a.entries| && Clean(a.entries[j].value) && Serialized(a.entries[j].value) == s;
    var k :| 0 <= k < |b.entries| && Clean(b.entries[k].value) && Serialized(b.entries[k].value) == t;
    Readable(a.entries[j].value, b.entries[k].value, x, y);
    SameSuffix(s, t, x, y);
  }

  predicate SameField(f: Field, g: Field) {
    f.key == g.key && f.text == g.text
  }

  lemma {:induction false} NextFieldReadable(a: Json, b: Json, f: seq<Field>, g: seq<Field>, i: nat, x: Text, y: Text)
    requires ChildTexts(a, f) && ChildTexts(b, g) && i < |f| && i < |g| && FieldsMeet(f, g, i, x, y)
    ensures SameField(f[i], g[i]) && FieldsMeet(f, g, i + 1, x, y)
    decreases a, 1, 0
  {
    assert IsChildText(a, f[i].text) && IsChildText(b, g[i].text);
    ChildReadable(a, b, f[i].text, g[i].text, FieldsFrom(f, i + 1) + x, FieldsFrom(g, i + 1) + y);
    FieldStep(f, g, i + 1, x, y);
  }

  lemma {:induction false} FieldsReadable(a: Json, b: Json, f: seq<Field>, g: seq<Field>, x: Text, y: Text)
    requires ChildTexts(a, f) && ChildTexts(b, g) && FieldsFrom(f, 0) + x == FieldsFrom(g, 0) + y
    ensures f == g && x == y
    decreases a, 2, 0
  {
    var i := 0;
    FieldStep(f, g, 0, x, y);
    while i < |f|
      invariant i <= |f| && i <= |g| && FieldsMeet(f, g, i, x, y)
      invariant forall k :: 0 <= k < i ==> SameField(f[k], g[k])
    {
      NextFieldReadable(a, b, f, g, i, x, y);
      i := i + 1;
    }
  }

  /** An entry's field is in the other object's sorted list too, so it has a partner with the same text there. */
  lemma {:induction false} PartnerByText(entries: seq<Entry>, others: seq<Entry>, i: nat) returns (j: nat)
    requires Clean(Obj(entries)) && Clean(Obj(others)) && i < |entries|
    requires Sorted(Fields(entries)) == Sorted(Fields(others))
    ensures j < |others| && Clean(entries[i].value) && Clean(others[j].value)
      && FieldOf(others[j]) == FieldOf(entries[i])
  {
    FieldsAt(entries);
    FieldsAt(others);
    SortedSorts(Fields(entries));
    SortedSorts(Fields(others));
    assert Fields(entries)[i] in Sorted(Fields(entries));
    assert Fields(entries)[i] in Fields(others);
    j :| 0 <= j < |others| && Fields(others)[j] == Fields(entries)[i];
  }

  lemma {:induction false} Unwrapped(c: Unit, s: Text, t: Text, x: Text, y: Text)
    requires [c] + s + x == [c] + t + y
    ensures s + x == t + y
  {
    assert s + x == ([c] + s + x)[1..] && t + y == ([c] + t + y)[1..];
  }

  lemma {:induction false} SameByFields(a: Json, b: Json)
    requires Clean(a) && Clean(b) && a.Obj? && b.Obj? && Sorted(Fields(a.entries)) == Sorted(Fields(b.entries))
    ensures Same(a, b)
    decreases a, 0, 0
  {
    forall i | 0 <= i < |a.entries| ensures HasSame(a.entries[i], b.entries) {
      var j := PartnerByText(a.entries, b.entries, i);
      Readable(a.entries[i].value, b.entries[j].value, [], []);
      assert SameEntry(a.entries[i], b.entries[j]);
    }
    forall j | 0 <= j < |b.entries| ensures HasKey(a.entries, b.entries[j].key) {
      var i := PartnerByText(b.entries, a.entries, j);
    }
  }

  lemma {:induction false} ObjectsReadable(a: Json, b: Json, x: Text, y: Text)
    requires Clean(a) && Clean(b) && a.Obj? && b.Obj? && Serialized(a) + x == Serialized(b) + y
    ensures Same(a, b) && x == y
    decreases a, 3, 0
  {
    var f, g := Sorted(Fields(a.entries)), Sorted(Fields(b.entries));
    FieldsAt(a.entries);
    FieldsAt(b.entries);
    Unwrapped(OPEN_OBJECT, FieldsFrom(f, 0), FieldsFrom(g, 0), x, y);
    SortedChildTexts(a);
    SortedChildTexts(b);
    FieldsReadable(a, b, f, g, x, y);
    SameByFields(a, b);
  }

  lemma {:induction false} ArraysReadable(a: Json, b: Json, x: Text, y: Text)
    requires Clean(a) && Clean(b) && a.Arr? && b.Arr? && Serialized(a) + x == Serialized(b) + y
    ensures Same(a, b) && x == y
    decreases a, 3, 0
  {
    Unwrapped(OPEN_ARRAY, ItemsFrom(Texts(a.items), 0), ItemsFrom(Texts(b.items), 0), x, y);
    TextsStart(a.items);
    TextsStart(b.items);
    ItemStep(Texts(a.items), Texts(b.items), 0, x, y);
    var s, t := Texts(a.items), Texts(b.items);
    ItemsMeetAt(a, b, s, t, |s|, x, y);
    forall k | 0 <= k < |s| ensures Same(a.items[k], b.items[k]) {
      ItemsMeetAt(a, b, s, t, k, x, y);
      NextItemReadable(a, b, s, t, k, x, y);
    }
  }

  /** A value's text ends where it says and gives the value back, up to key order and the sign of zero. */
  lemma {:induction false} Readable(a: Json, b: Json, x: Text, y: Text)
    requires Clean(a) && Clean(b) && Serialized(a) + x == Serialized(b) + y && Delimited(x) && Delimited(y)
    ensures Same(a, b) && x == y
    decreases a, 4, 0
  {
    SameClass(a, b, x, y);
    match a
    case Num(n) => NumberIsReadable(n, b.n, x, y);
    case Str(s) => QuotedIsReadable(s, b.s, x, y);
    case Arr(_) => ArraysReadable(a, b, x, y);
    case Obj(_) => ObjectsReadable(a, b, x, y);
    case _ => LiteralIsReadable(a, b, x, y);
  }

  /** Two values have one canonical text exactly if they are the same JSON value. */
  lemma {:induction false} CanonicalIffSame(a: Json, b: Json)
    requires Clean(a) && Clean(b)
    ensures CanonicalText(a) == CanonicalText(b) <==> Same(a, b)
  {
    if Same(a, b) {
      SameValuesSameText(a, b);
    }
    if Serialized(a) == Serialized(b) {
      assert Serialized(a) + [] == Serialized(b) + [];
      Readable(a, b, [], []);
    }
  }
}
