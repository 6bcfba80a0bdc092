/**
 * Object keys of a projection: path segments encoded with `encodeURIComponent`, joined by slashes. A key gives back
 * its components, and a component gives back the identifier.
 */
module ProjectionPaths {
  import opened Common
  import opened JsonText

  // ----- Path segments

  /** Left alone by `encodeURIComponent` and by the replacement of full stops after it. */
  predicate IsUnreserved(c: int) {
    || 0x30 <= c <= 0x39 || 0x41 <= c <= 0x5A || 0x61 <= c <= 0x7A
    || c == 0x2D || c == 0x5F || c == 0x21 || c == 0x7E || c == 0x2A || 0x27 <= c <= 0x29
  }

  predicate IsSegmentChar(c: char) {
    IsUnreserved(c as int) || c == '%'
  }

  predicate IsSegment(s: string) {
    s != "" && forall i :: 0 <= i < |s| ==> IsSegmentChar(s[i])
  }

  type Byte = b: int | 0 <= b < 0x100 witness 0

  type Point = c: int | 0 <= c < 0x11_0000 witness 0

  function HexChar(d: nat): (c: char)
    requires d < 16
    ensures IsSegmentChar(c) && c != '%'
  {
    if d < 10 then ('0' as int + d) as char else ('A' as int + d - 10) as char
  }

  function Percent(b: Byte): string {
    ['%', HexChar(b / 16), HexChar(b % 16)]
  }

  function Utf8(c: Point): (bytes: seq<Byte>)
    ensures 1 <= |bytes| <= 4
  {
    if c < 0x80 then [c]
    else if c < 0x800 then [0xC0 + c / 64, 0x80 + c % 64]
    else if c < 0x1_0000 then [0xE0 + c / 64 / 64, 0x80 + c / 64 % 64, 0x80 + c % 64]
    else [0xF0 + c / 64 / 64 / 64, 0x80 + c / 64 / 64 % 64, 0x80 + c / 64 % 64, 0x80 + c % 64]
  }

  function PercentFrom(bytes: seq<Byte>, i: nat): (s: string)
    requires i <= |bytes|
    ensures forall k :: 0 <= k < |s| ==> IsSegmentChar(s[k])
    decreases |bytes| - i
  {
    if i == |bytes| then "" else Percent(bytes[i]) + PercentFrom(bytes, i + 1)
  }

  function PointText(c: Point): (s: string)
    ensures s != "" && forall k :: 0 <= k < |s| ==> IsSegmentChar(s[k])
  {
    if IsUnreserved(c) then [c as char] else PercentFrom(Utf8(c), 0)
  }

  function PointLength(s: Text, i: nat): (n: nat)
    requires i < |s|
    ensures 1 <= n <= |s| - i
  {
    if IsHigh(s[i]) && i + 1 < |s| && IsLow(s[i + 1]) then 2 else 1
  }

  function PointAt(s: Text, i: nat): Point
    requires i < |s|
  {
    if PointLength(s, i) == 2 then 0x1_0000 + (s[i] as int - 0xD800) * 0x400 + (s[i + 1] as int - 0xDC00) else s[i]
  }

  /** Encoding throws for a surrogate without its partner. */
  predicate EncodableFrom(s: Text, i: nat)
    requires i <= |s|
    decreases |s| - i
  {
    || i == |s|
    || ((PointLength(s, i) == 2 || !(IsHigh(s[i]) || IsLow(s[i]))) && EncodableFrom(s, i + PointLength(s, i)))
  }

  function EncodedFrom(s: Text, i: nat): (r: string)
    requires i <= |s|
    ensures r == "" <==> i == |s|
    ensures forall k :: 0 <= k < |r| ==> IsSegmentChar(r[k])
    decreases |s| - i
  {
    if i == |s| then "" else PointText(PointAt(s, i)) + EncodedFrom(s, i + PointLength(s, i))
  }

  /** Identifiers are nonempty and without null characters. */
  predicate IsIdentifier(s: Text) {
    s != [] && 0 !in s
  }

  /** `pathSegment` */
  function Segment(s: Text): (r: Option<string>)
    ensures r.Some? ==> IsSegment(r.value)
  {
    if IsIdentifier(s) && EncodableFrom(s, 0) then Some(EncodedFrom(s, 0)) else None
  }

  // ----- A segment gives its identifier back

  lemma {:induction false} HexCharsDiffer(a: nat, b: nat)
    requires a < 16 && b < 16
    ensures HexChar(a) == HexChar(b) ==> a == b
  {
  }

  lemma {:induction false} PercentIsReadable(a: Byte, b: Byte, x: string, y: string)
    requires Percent(a) + x == Percent(b) + y
    ensures a == b && x == y
  {
    assert (Percent(a) + x)[1] == (Percent(b) + y)[1] && (Percent(a) + x)[2] == (Percent(b) + y)[2];
    HexCharsDiffer(a / 16, b / 16);
    HexCharsDiffer(a % 16, b % 16);
    SameDigits(a, b);
    assert x == (Percent(a) + x)[3..] && y == (Percent(b) + y)[3..];
  }

  /** The first byte tells how many follow. */
  function Width(b: Byte): nat {
    if b < 0x80 then 1 else if b < 0xE0 then 2 else if b < 0xF0 then 3 else 4
  }

  lemma {:induction false} BytesAreReadable(a: seq<Byte>, b: seq<Byte>, i: nat, x: string, y: string)
    requires i <= |a| == |b| && PercentFrom(a, i) + x == PercentFrom(b, i) + y
    ensures a[i..] == b[i..] && x == y
    decreases |a| - i
  {
    if i == |a| {
      assert PercentFrom(a, i) + x == x && PercentFrom(b, i) + y == y;
    } else {
      assert PercentFrom(a, i) + x == Percent(a[i]) + (PercentFrom(a, i + 1) + x);
      assert PercentFrom(b, i) + y == Percent(b[i]) + (PercentFrom(b, i + 1) + y);
      PercentIsReadable(a[i], b[i], PercentFrom(a, i + 1) + x, PercentFrom(b, i + 1) + y);
      BytesAreReadable(a, b, i + 1, x, y);
      assert a[i..] == [a[i]] + a[i + 1..] && b[i..] == [b[i]] + b[i + 1..];
    }
  }

  lemma {:induction false} Utf8Width(c: Point)
    ensures |Utf8(c)| == Width(Utf8(c)[0])
  {
  }

  lemma {:induction false} SameTail(a: nat, b: nat)
    requires a / 64 == b / 64 && a % 64 == b % 64
    ensures a == b
  {
  }

  lemma {:induction false} Utf8Injective(a: Point, b: Point)
    requires Utf8(a) == Utf8(b)
    ensures a == b
  {
    var s, t := Utf8(a), Utf8(b);
    assert s[0] == t[0] && s[|s| - 1] == t[|s| - 1];
    if |s| == 2 {
      SameTail(a, b);
    } else if |s| == 3 {
      assert s[1] == t[1];
      SameTail(a / 64, b / 64);
      SameTail(a, b);
    } else if |s| == 4 {
      assert s[1] == t[1] && s[2] == t[2];
      SameTail(a / 64 / 64, b / 64 / 64);
      SameTail(a / 64, b / 64);
      SameTail(a, b);
    }
  }

  lemma {:induction false} SameFirstByte(s: seq<Byte>, t: seq<Byte>, x: string, y: string)
    requires s != [] && t != [] && PercentFrom(s, 0) + x == PercentFrom(t, 0) + y
    ensures s[0] == t[0] && PercentFrom(s, 1) + x == PercentFrom(t, 1) + y
  {
    assert PercentFrom(s, 0) + x == Percent(s[0]) + (PercentFrom(s, 1) + x);
    assert PercentFrom(t, 0) + y == Percent(t[0]) + (PercentFrom(t, 1) + y);
    PercentIsReadable(s[0], t[0], PercentFrom(s, 1) + x, PercentFrom(t, 1) + y);
  }

  lemma {:induction false} EncodedPointIsReadable(a: Point, b: Point, x: string, y: string)
    requires PercentFrom(Utf8(a), 0) + x == PercentFrom(Utf8(b), 0) + y
    ensures a == b && x == y
  {
    var s, t := Utf8(a), Utf8(b);
    SameFirstByte(s, t, x, y);
    Utf8Width(a);
    Utf8Width(b);
    BytesAreReadable(s, t, 1, x, y);
    assert s == [s[0]] + s[1..] && t == [t[0]] + t[1..];
    Utf8Injective(a, b);
  }

  lemma {:induction false} PointIsReadable(a: Point, b: Point, x: string, y: string)
    requires PointText(a) + x == PointText(b) + y
    ensures a == b && x == y
  {
    assert PointText(a)[0] == (PointText(a) + x)[0] == (PointText(b) + y)[0] == PointText(b)[0];
    PercentStart(a);
    PercentStart(b);
    if IsUnreserved(a) {
      assert x == (PointText(a) + x)[1..] && y == (PointText(b) + y)[1..];
    } else {
      EncodedPointIsReadable(a, b, x, y);
    }
  }

  lemma {:induction false} PercentStart(c: Point)
    ensures PointText(c)[0] == '%' <==> !IsUnreserved(c)
  {
    assert PercentFrom(Utf8(c), 0)[0] == Percent(Utf8(c)[0])[0];
  }

  lemma {:induction false} SamePoint(s: Text, i: nat, t: Text, j: nat)
    requires i < |s| && j < |t| && PointAt(s, i) == PointAt(t, j)
    ensures PointLength(s, i) == PointLength(t, j) && s[i] == t[j]
    ensures PointLength(s, i) == 2 ==> s[i + 1] == t[j + 1]
  {
    if PointLength(s, i) == 2 {
      assert PointLength(t, j) == 2;
      var a, b := s[i] as int - 0xD800, t[j] as int - 0xD800;
      var c, d := s[i + 1] as int - 0xDC00, t[j + 1] as int - 0xDC00;
      assert a * 0x400 + c == b * 0x400 + d;
      assert a == b && c == d;
    }
  }

  predicate Matches(s: Text, i: nat, t: Text, j: nat) {
    |s| - i == |t| - j && forall k :: i <= k < |s| ==> s[k] == t[k - i + j]
  }

  lemma {:induction false} SameFrom(s: Text, i: nat, m: nat, t: Text, j: nat, n: nat)
    requires i < m <= i + 2 && m <= |s| && n - j == m - i && n <= |t| && Matches(s, m, t, n)
    requires s[i] == t[j] && (m == i + 2 ==> s[i + 1] == t[j + 1])
    ensures Matches(s, i, t, j)
  {
    forall k | i <= k < |s| ensures s[k] == t[k - i + j] {
      if k >= m {
        assert s[k] == t[k - m + n];
      }
    }
  }

  lemma {:induction false} EncodedStep(s: Text, i: nat, t: Text, j: nat, m: nat, n: nat)
    requires i < |s| && j < |t| && EncodedFrom(s, i) == EncodedFrom(t, j)
    requires m == i + PointLength(s, i) && n == j + PointLength(t, j)
    ensures EncodedFrom(s, m) == EncodedFrom(t, n)
    ensures m - i == n - j && s[i] == t[j] && (m == i + 2 ==> s[i + 1] == t[j + 1])
  {
    PointIsReadable(PointAt(s, i), PointAt(t, j), EncodedFrom(s, m), EncodedFrom(t, n));
    SamePoint(s, i, t, j);
  }

  lemma {:induction false} EncodedInjective(s: Text, i: nat, t: Text, j: nat)
    requires i <= |s| && j <= |t| && EncodedFrom(s, i) == EncodedFrom(t, j)
    ensures Matches(s, i, t, j)
    decreases |s| - i
  {
    if i < |s| && j < |t| {
      var m, n := i + PointLength(s, i), j + PointLength(t, j);
      EncodedStep(s, i, t, j, m, n);
      EncodedInjective(s, m, t, n);
      SameFrom(s, i, m, t, j, n);
    }
  }

  lemma {:induction false} SegmentInjective(s: Text, t: Text)
    requires Segment(s).Some? && Segment(s) == Segment(t)
    ensures s == t
  {
    EncodedInjective(s, 0, t, 0);
  }

  // ----- Words of the source

  /** A literal of the source, all of whose characters are ASCII, as code units. */
  function Lit(s: string): (t: Text)
    ensures |t| == |s|
    ensures forall i :: 0 <= i < |s| && s[i] as int < 0x80 ==> t[i] == s[i] as int
  {
    seq(|s|, i requires 0 <= i < |s| => s[i] as int % 0x1_0000)
  }

  predicate IsWord(s: string) {
    s != "" && forall i :: 0 <= i < |s| ==> IsUnreserved(s[i] as int)
  }

  lemma {:induction false} WordFrom(s: string, i: nat)
    requires i <= |s| && IsWord(s)
    ensures EncodableFrom(Lit(s), i) && EncodedFrom(Lit(s), i) == s[i..]
    decreases |s| - i
  {
    if i < |s| {
      WordFrom(s, i + 1);
      var t := Lit(s);
      assert t[i] == s[i] as int && IsUnreserved(t[i]) && !IsHigh(t[i]) && !IsLow(t[i]);
      assert PointLength(t, i) == 1;
      assert PointText(PointAt(t, i)) == [s[i]];
      assert s[i..] == [s[i]] + s[i + 1..];
    }
  }

  /** Encoding leaves a plain word as it is. */
  lemma {:induction false} WordSegment(s: string)
    requires IsWord(s)
    ensures Segment(Lit(s)) == Some(s)
  {
    WordFrom(s, 0);
    assert s[0..] == s;
  }

  // ----- Paths

  predicate NoSlash(s: string) {
    forall i :: 0 <= i < |s| ==> s[i] != '/'
  }

  predicate Components(cs: seq<string>) {
    |cs| > 0 && forall i :: 0 <= i < |cs| ==> NoSlash(cs[i])
  }

  function Path(cs: seq<string>): string
    requires |cs| > 0
  {
    if |cs| == 1 then cs[0] else cs[0] + "/" + Path(cs[1..])
  }

  lemma {:induction false} FirstComponent(a: string, b: string, x: string, y: string)
    requires NoSlash(a) && NoSlash(b) && a + "/" + x == b + "/" + y
    ensures a == b && x == y
  {
    var l, r := a + "/" + x, b + "/" + y;
    assert l[|a|] == '/' && r[|b|] == '/';
    assert forall i :: 0 <= i < |a| ==> l[i] == a[i];
    assert forall i :: 0 <= i < |b| ==> r[i] == b[i];
    assert a == l[..|a|] && b == r[..|b|];
    assert x == l[|a| + 1..] && y == r[|b| + 1..];
  }

  lemma {:induction false} LonePathHasNoSlash(cs: seq<string>)
    requires Components(cs)
    ensures NoSlash(Path(cs)) <==> |cs| == 1
  {
    if |cs| > 1 {
      assert Path(cs)[|cs[0]|] == '/';
    }
  }

  lemma {:induction false} PathInjective(a: seq<string>, b: seq<string>)
    requires Components(a) && Components(b) && Path(a) == Path(b)
    ensures a == b
  {
    LonePathHasNoSlash(a);
    LonePathHasNoSlash(b);
    if |a| == 1 {
      assert a == [a[0]] && b == [b[0]];
    } else {
      FirstComponent(a[0], b[0], Path(a[1..]), Path(b[1..]));
      PathInjective(a[1..], b[1..]);
      assert a == [a[0]] + a[1..] && b == [b[0]] + b[1..];
    }
  }

  lemma {:induction false} PathConcat(a: seq<string>, b: seq<string>)
    requires |a| > 0 && |b| > 0
    ensures Path(a + b) == Path(a) + "/" + Path(b)
  {
    if |a| == 1 {
      assert (a + b)[1..] == b;
    } else {
      assert (a + b)[1..] == a[1..] + b;
      PathConcat(a[1..], b);
    }
  }

  predicate OccursAt(s: string, w: string, i: nat) {
    i + |w| <= |s| && s[i..i + |w|] == w
  }

  /** `key.includes("/" + word + "/")` */
  predicate Includes(key: string, word: string) {
    exists i :: 0 <= i < |key| && OccursAt(key, "/" + word + "/", i)
  }

  ghost predicate Inside(cs: seq<string>, word: string) {
    exists i :: 0 < i < |cs| - 1 && cs[i] == word
  }

  lemma {:induction false} OccursLater(a: string, x: string, w: string, i: nat)
    ensures OccursAt(x, w, i) <==> OccursAt(a + x, w, |a| + i)
  {
    if |a| + i + |w| <= |a + x| {
      assert (a + x)[|a| + i..|a| + i + |w|] == x[i..i + |w|];
    }
  }

  /** At a slash, the word is the next component. */
  lemma {:induction false} WordAfterSlash(c: string, cs: seq<string>, word: string)
    requires NoSlash(word) && Components(cs)
    ensures OccursAt(c + "/" + Path(cs), "/" + word + "/", |c|) <==> |cs| > 1 && cs[0] == word
  {
    var whole, w, rest := c + "/" + Path(cs), "/" + word + "/", Path(cs);
    if |cs| > 1 && cs[0] == word {
      assert whole == c + w + Path(cs[1..]);
      assert whole[|c|..|c| + |w|] == w;
    }
    if OccursAt(whole, w, |c|) {
      assert rest == whole[|c| + 1..];
      forall k | 0 <= k < |word| + 1 ensures rest[k] == (word + "/")[k] {
        assert whole[|c| + 1 + k] == whole[|c|..|c| + |w|][1 + k] == w[1 + k];
      }
      assert rest == word + "/" + rest[|word| + 1..];
      assert rest[|word|] == '/';
      LonePathHasNoSlash(cs);
      FirstComponent(cs[0], word, Path(cs[1..]), rest[|word| + 1..]);
    }
  }

  lemma {:induction false} OccursAtSlash(s: string, word: string, i: nat)
    requires OccursAt(s, "/" + word + "/", i)
    ensures s[i] == '/'
  {
    assert s[i] == s[i..i + |word| + 2][0];
  }

  lemma {:induction false} IncludesIffInside(cs: seq<string>, word: string)
    requires Components(cs) && NoSlash(word)
    ensures Includes(Path(cs), word) <==> Inside(cs, word)
  {
    var w := "/" + word + "/";
    if |cs| == 1 {
      if Includes(Path(cs), word) {
        var i :| 0 <= i < |Path(cs)| && OccursAt(Path(cs), w, i);
        OccursAtSlash(Path(cs), word, i);
        assert false;
      }
    } else {
      var rest := cs[1..];
      var head := cs[0] + "/";
      assert Path(cs) == head + Path(rest);
      IncludesIffInside(rest, word);
      WordAfterSlash(cs[0], rest, word);
      if Includes(Path(cs), word) {
        var i :| 0 <= i < |Path(cs)| && OccursAt(Path(cs), w, i);
        OccursAtSlash(Path(cs), word, i);
        assert i >= |cs[0]|;
        if i == |cs[0]| {
          assert cs[1] == word;
        } else {
          OccursLater(head, Path(rest), w, i - |head|);
          assert Includes(Path(rest), word);
          var k :| 0 < k < |rest| - 1 && rest[k] == word;
          assert cs[k + 1] == word;
        }
      }
      if Inside(cs, word) {
        var k :| 0 < k < |cs| - 1 && cs[k] == word;
        if k == 1 {
          assert rest[0] == word;
        } else {
          assert rest[k - 1] == word;
          assert Inside(rest, word);
          var i :| 0 <= i < |Path(rest)| && OccursAt(Path(rest), w, i);
          OccursLater(head, Path(rest), w, i);
        }
      }
    }
  }

  // ----- Keys of a snapshot

  datatype Root = Root(project: string, snapshot: string)

  /** The objects of a snapshot, by what their key is made of. */
  datatype Place =
    | Readme
    | Manifest
    | Head(hash: string, memory: string)
    | Revision(hash: string, memory: string, revision: string)
    | Index(dimension: string, value: string, file: string)

  function PrefixParts(root: Root): seq<string> {
    ["projects", root.project, "projections", root.snapshot]
  }

  function Parts(p: Place): (cs: seq<string>)
    ensures |cs| > 0
  {
    match p
    case Readme => ["README.md"]
    case Manifest => ["manifest.json"]
    case Head(hash, memory) => ["objects", hash, memory + ".md"]
    case Revision(hash, memory, revision) => ["revisions", hash, memory, revision + ".md"]
    case Index(dimension, value, file) => ["indexes", dimension, value, file]
  }

  function Prefix(root: Root): string {
    Path(PrefixParts(root)) + "/"
  }

  function Key(root: Root, p: Place): string {
    Path(PrefixParts(root) + Parts(p))
  }

  predicate WellFormedRoot(root: Root) {
    IsSegment(root.project) && IsSegment(root.snapshot)
  }

  predicate IsHash(s: string) {
    |s| == 2 && IsSegment(s)
  }

  predicate IsPlace(p: Place) {
    match p
    case Readme => true
    case Manifest => true
    case Head(hash, memory) => IsHash(hash) && IsSegment(memory)
    case Revision(hash, memory, revision) => IsHash(hash) && IsSegment(memory) && IsSegment(revision)
    case Index(dimension, value, file) =>
      && (dimension == "by-kind" || dimension == "by-class" || dimension == "by-status" || dimension == "by-scope")
      && IsSegment(value) && (file == "index.json" || file == "index.md")
  }

  lemma {:induction false} PartsHaveNoSlash(p: Place)
    requires IsPlace(p)
    ensures Components(Parts(p))
  {
    match p
    case Readme => assert NoSlash("README.md");
    case Manifest => assert NoSlash("manifest.json");
    case Head(_, _) => assert NoSlash("objects");
    case Revision(_, _, _) => assert NoSlash("revisions");
    case Index(_, _, _) => assert NoSlash("indexes");
  }

  lemma {:induction false} PrefixHasNoSlash(root: Root)
    requires WellFormedRoot(root)
    ensures Components(PrefixParts(root))
  {
    assert NoSlash("projects") && NoSlash("projections");
  }

  lemma {:induction false} PlaceComponents(root: Root, p: Place)
    requires WellFormedRoot(root) && IsPlace(p)
    ensures Components(PrefixParts(root) + Parts(p))
    ensures forall i :: 0 <= i < 4 ==> (PrefixParts(root) + Parts(p))[i] == PrefixParts(root)[i]
    ensures forall i :: 0 <= i < |Parts(p)| ==> (PrefixParts(root) + Parts(p))[4 + i] == Parts(p)[i]
  {
    PartsHaveNoSlash(p);
    PrefixHasNoSlash(root);
  }

  /** Different objects have different keys. */
  lemma {:induction false} KeysDiffer(root: Root, p: Place, q: Place)
    requires WellFormedRoot(root) && IsPlace(p) && IsPlace(q)
    ensures Key(root, p) == Key(root, q) ==> p == q
  {
    if Key(root, p) == Key(root, q) {
      PlaceComponents(root, p);
      PlaceComponents(root, q);
      PathInjective(PrefixParts(root) + Parts(p), PrefixParts(root) + Parts(q));
      assert Parts(p) == (PrefixParts(root) + Parts(p))[4..] == (PrefixParts(root) + Parts(q))[4..] == Parts(q);
      SameParts(p, q);
    }
  }

  lemma {:induction false} SameParts(p: Place, q: Place)
    requires IsPlace(p) && IsPlace(q) && Parts(p) == Parts(q)
    ensures p == q
  {
    var a, b := Parts(p), Parts(q);
    assert |a| == |b| && a[0] == b[0];
    assert |a| == 3 ==> p.Head? && q.Head?;
    if p.Head? {
      assert a[1] == b[1] && a[2] == b[2];
      assert p.memory == a[2][..|a[2]| - 3] && q.memory == b[2][..|b[2]| - 3];
    } else if p.Revision? {
      assert q.Revision? by { assert "revisions"[0] != "indexes"[0]; }
      assert a[1] == b[1] && a[2] == b[2] && a[3] == b[3];
      assert p.revision == a[3][..|a[3]| - 3] && q.revision == b[3][..|b[3]| - 3];
    } else if p.Index? {
      assert q.Index? by { assert "revisions"[0] != "indexes"[0]; }
      assert a[1] == b[1] && a[2] == b[2] && a[3] == b[3];
    } else {
      assert "README.md"[0] != "manifest.json"[0];
    }
  }

  lemma {:induction false} KeyStartsWithPrefix(root: Root, p: Place)
    ensures Key(root, p) == Prefix(root) + Path(Parts(p))
  {
    PathConcat(PrefixParts(root), Parts(p));
  }

  /** A key seems to belong to a memory object for one more reason than it should: an identifier is the word itself. */
  predicate Mistaken(root: Root, p: Place, word: string) {
    || root.project == word || root.snapshot == word || (p.Index? && p.value == word)
    || (p.Revision? && p.memory == word)
  }

  lemma {:induction false} KeyIncludes(root: Root, p: Place, word: string)
    requires WellFormedRoot(root) && IsPlace(p) && (word == "objects" || word == "revisions")
    ensures Includes(Key(root, p), word) <==>
      (p.Head? && word == "objects") || (p.Revision? && word == "revisions") || Mistaken(root, p, word)
  {
    var cs := PrefixParts(root) + Parts(p);
    PlaceComponents(root, p);
    IncludesIffInside(cs, word);
    var a, b := PrefixParts(root), Parts(p);
    assert cs[1] == root.project && cs[2] == "projections" && cs[3] == root.snapshot;
    assert "projections"[0] != word[0] by { assert word[0] == 'o' || word[0] == 'r'; }
    assert |b| > 1 ==> cs[4] == b[0];
    assert |b| > 2 ==> cs[5] == b[1];
    assert |b| > 3 ==> cs[6] == b[2];
    assert "revisions"[0] != "objects"[0] && "indexes"[0] != word[0];
    if p.Head? || p.Revision? {
      assert |b[1]| == 2 && |word| > 2;
    } else if p.Index? {
      assert b[1][0] == 'b' && word[0] != 'b';
    }
  }
}
