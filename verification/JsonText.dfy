/** How `JSON.stringify` writes strings and numbers: both can be read back from the text (section 7 of RFC 8259). */
module JsonText {
  import opened Common
  import Decimal

  /** A UTF-16 code unit, as strings of the source are made of. */
  type Unit = c: int | 0 <= c < 0x1_0000 witness 0

  type Text = seq<Unit>

  // ----- Strings

  const QUOTE: Unit := 0x22
  const BACKSLASH: Unit := 0x5C
  const U: Unit := 0x75

  predicate IsHigh(c: Unit) { 0xD800 <= c <= 0xDBFF }
  predicate IsLow(c: Unit) { 0xDC00 <= c <= 0xDFFF }

  /** A surrogate without its partner is escaped. */
  predicate IsLone(s: Text, i: nat)
    requires i < |s|
  {
    || (IsHigh(s[i]) && !(i + 1 < |s| && IsLow(s[i + 1])))
    || (IsLow(s[i]) && !(i > 0 && IsHigh(s[i - 1])))
  }

  function HexDigit(d: nat): (c: Unit)
    requires d < 16
    ensures c != QUOTE
  {
    if d < 10 then 0x30 + d else 0x61 + d - 10
  }

  function Hex4(c: Unit): Text {
    [HexDigit(c / 16 / 16 / 16), HexDigit(c / 16 / 16 % 16), HexDigit(c / 16 % 16), HexDigit(c % 16)]
  }

  lemma {:induction false} Hex4Injective(a: Unit, b: Unit)
    requires Hex4(a) == Hex4(b)
    ensures a == b
  {
    assert Hex4(a)[0] == Hex4(b)[0] && Hex4(a)[1] == Hex4(b)[1] && Hex4(a)[2] == Hex4(b)[2] && Hex4(a)[3] == Hex4(b)[3];
    HexDigitsDiffer(a / 16 / 16 / 16, b / 16 / 16 / 16);
    HexDigitsDiffer(a / 16 / 16 % 16, b / 16 / 16 % 16);
    HexDigitsDiffer(a / 16 % 16, b / 16 % 16);
    HexDigitsDiffer(a % 16, b % 16);
    SameDigits(a / 16 / 16, b / 16 / 16);
    SameDigits(a / 16, b / 16);
    SameDigits(a, b);
  }

  lemma {:induction false} HexDigitsDiffer(d: nat, e: nat)
    requires d < 16 && e < 16
    ensures HexDigit(d) == HexDigit(e) ==> d == e
  {
  }

  lemma {:induction false} SameDigits(a: nat, b: nat)
    ensures a / 16 == b / 16 && a % 16 == b % 16 ==> a == b
  {
  }

  /** The letter of a two-character escape. */
  function ShortEscape(c: Unit): (e: Option<Unit>)
    ensures e.Some? ==> e.value != U
  {
    if c == 0x08 then Some(0x62)
    else if c == 0x09 then Some(0x74)
    else if c == 0x0A then Some(0x6E)
    else if c == 0x0C then Some(0x66)
    else if c == 0x0D then Some(0x72)
    else if c == QUOTE || c == BACKSLASH then Some(c)
    else None
  }

  function Chunk(s: Text, i: nat): (t: Text)
    requires i < |s|
    ensures t != []
  {
    if ShortEscape(s[i]).Some? then [BACKSLASH, ShortEscape(s[i]).value]
    else if s[i] < 0x20 || IsLone(s, i) then [BACKSLASH, U] + Hex4(s[i])
    else [s[i]]
  }

  function EscapedFrom(s: Text, i: nat): Text
    requires i <= |s|
    decreases |s| - i
  {
    if i == |s| then [QUOTE] else Chunk(s, i) + EscapedFrom(s, i + 1)
  }

  /** `JSON.stringify(s)` */
  function Quoted(s: Text): (t: Text)
    ensures t != [] && t[0] == QUOTE
  {
    [QUOTE] + EscapedFrom(s, 0)
  }

  lemma {:induction false} ChunksDiffer(s: Text, i: nat, t: Text, j: nat, x: Text, y: Text)
    requires i < |s| && j < |t| && Chunk(s, i) + x == Chunk(t, j) + y
    ensures s[i] == t[j] && x == y
  {
    var a, b := Chunk(s, i), Chunk(t, j);
    assert (a + x)[0] == a[0] && (b + y)[0] == b[0];
    if |a| > 1 {
      assert (a + x)[1] == a[1] && (b + y)[1] == b[1];
    }
    assert |a| == |b|;
    assert a == (a + x)[..|a|] == (b + y)[..|a|] == b;
    assert x == (a + x)[|a|..] && y == (b + y)[|a|..];
    if |a| == 6 {
      assert a[2..] == Hex4(s[i]) && b[2..] == Hex4(t[j]);
      Hex4Injective(s[i], t[j]);
    }
  }

  /** A quote starts no chunk, so it can only be the end. */
  lemma {:induction false} ChunkStart(s: Text, i: nat)
    requires i <= |s|
    ensures EscapedFrom(s, i) != []
    ensures EscapedFrom(s, i)[0] == QUOTE <==> i == |s|
  {
    if i < |s| {
      assert EscapedFrom(s, i)[0] == Chunk(s, i)[0];
    }
  }

  lemma {:induction false} NextChunk(s: Text, i: nat, x: Text)
    requires i < |s|
    ensures EscapedFrom(s, i) + x == Chunk(s, i) + (EscapedFrom(s, i + 1) + x)
    ensures s[i..] == [s[i]] + s[i + 1..]
  {
  }

  lemma {:induction false} EscapedIsReadable(s: Text, i: nat, t: Text, j: nat, x: Text, y: Text)
    requires i <= |s| && j <= |t| && EscapedFrom(s, i) + x == EscapedFrom(t, j) + y
    ensures s[i..] == t[j..] && x == y
    decreases |s| - i
  {
    ChunkStart(s, i);
    ChunkStart(t, j);
    assert (EscapedFrom(s, i) + x)[0] == EscapedFrom(s, i)[0] && (EscapedFrom(t, j) + y)[0] == EscapedFrom(t, j)[0];
    if i == |s| {
      assert x == ([QUOTE] + x)[1..] && y == ([QUOTE] + y)[1..];
    } else {
      NextChunk(s, i, x);
      NextChunk(t, j, y);
      ChunksDiffer(s, i, t, j, EscapedFrom(s, i + 1) + x, EscapedFrom(t, j + 1) + y);
      EscapedIsReadable(s, i + 1, t, j + 1, x, y);
    }
  }

  /** A quoted string ends where it says, and gives its string back, whatever follows. */
  lemma {:induction false} QuotedIsReadable(s: Text, t: Text, x: Text, y: Text)
    requires Quoted(s) + x == Quoted(t) + y
    ensures s == t && x == y
  {
    assert EscapedFrom(s, 0) + x == (Quoted(s) + x)[1..] && EscapedFrom(t, 0) + y == (Quoted(t) + y)[1..];
    EscapedIsReadable(s, 0, t, 0, x, y);
    assert s[0..] == s && t[0..] == t;
  }

  // ----- Numbers

  type Digit = d: int | 0 <= d < 10 witness 0

  /** A finite number by its shortest digits: 0.d1d2... times ten to the power `point`. */
  datatype Number = Zero(negative: bool) | Finite(negative: bool, digits: seq<Digit>, point: int)

  predicate WellFormed(n: Number) {
    n.Finite? ==> n.digits != [] && n.digits[0] != 0 && n.digits[|n.digits| - 1] != 0
  }

  const MINUS: Unit := 0x2D
  const PLUS: Unit := 0x2B
  const POINT: Unit := 0x2E
  const E: Unit := 0x65

  predicate IsDigit(c: Unit) { 0x30 <= c <= 0x39 }

  predicate IsNumberUnit(c: Unit) {
    IsDigit(c) || c == MINUS || c == PLUS || c == POINT || c == E
  }

  function DigitText(ds: seq<Digit>): (t: Text)
    ensures |t| == |ds|
    ensures forall i :: 0 <= i < |t| ==> t[i] == 0x30 + (ds[i] as int)
  {
    seq(|ds|, i requires 0 <= i < |ds| => 0x30 + (ds[i] as int))
  }

  function Zeros(n: nat): (t: Text)
    ensures |t| == n && forall i :: 0 <= i < n ==> t[i] == 0x30
  {
    seq(n, i requires 0 <= i < n => 0x30)
  }

  function IntegerText(n: nat): (t: Text)
    ensures t != [] && forall i :: 0 <= i < |t| ==> IsDigit(t[i])
  {
    Decimal.PrintIsCanonical(n);
    seq(|Decimal.Print(n)|, i requires 0 <= i < |Decimal.Print(n)| => 0x30 + Decimal.DigitValue(Decimal.Print(n)[i]))
  }

  function Mantissa(ds: seq<Digit>): Text
    requires ds != []
  {
    if |ds| == 1 then DigitText(ds) else DigitText(ds[..1]) + [POINT] + DigitText(ds[1..])
  }

  datatype Form = Whole | Split | Leading | Exponent

  function FormOf(k: nat, n: int): Form {
    if k <= n <= 21 then Whole
    else if 0 < n <= 21 then Split
    else if -6 < n <= 0 then Leading
    else Exponent
  }

  /** The number-to-string rules of ECMAScript for a positive number. */
  function Magnitude(ds: seq<Digit>, n: int): Text
    requires ds != []
  {
    match FormOf(|ds|, n)
    case Whole => DigitText(ds) + Zeros(n - |ds|)
    case Split => DigitText(ds[..n]) + [POINT] + DigitText(ds[n..])
    case Leading => [0x30, POINT] + Zeros(-n) + DigitText(ds)
    case Exponent =>
      Mantissa(ds) + [E] + [if n - 1 >= 0 then PLUS else MINUS] + IntegerText(if n - 1 >= 0 then n - 1 else 1 - n)
  }

  /** Both zeros are written `0`. */
  function NumberText(n: Number): Text
    requires WellFormed(n)
  {
    if n.Zero? then [0x30] else (if n.negative then [MINUS] else []) + Magnitude(n.digits, n.point)
  }

  lemma {:induction false} DigitTextInjective(a: seq<Digit>, b: seq<Digit>)
    requires DigitText(a) == DigitText(b)
    ensures a == b
  {
    forall i | 0 <= i < |a| ensures a[i] == b[i] {
      assert DigitText(a)[i] == DigitText(b)[i];
    }
  }

  lemma {:induction false} IntegerTextInjective(a: nat, b: nat)
    requires IntegerText(a) == IntegerText(b)
    ensures a == b
  {
    var s, t := Decimal.Print(a), Decimal.Print(b);
    Decimal.PrintIsCanonical(a);
    Decimal.PrintIsCanonical(b);
    assert |IntegerText(a)| == |s| && |IntegerText(b)| == |t|;
    forall i | 0 <= i < |s| ensures s[i] == t[i] {
      assert IntegerText(a)[i] == IntegerText(b)[i];
    }
    Decimal.PrintInjective(a, b);
  }

  lemma {:induction false} DigitsFit(a: Text, b: Text, x: Text, y: Text)
    requires a + x == b + y
    requires forall i :: 0 <= i < |b| ==> IsDigit(b[i])
    requires x == [] || !IsDigit(x[0])
    ensures |b| <= |a|
  {
    assert forall i :: 0 <= i < |b| ==> (b + y)[i] == b[i];
    if x != [] {
      assert (a + x)[|a|] == x[0];
    }
  }

  /** A run of digits ends at the first unit that is none. */
  lemma {:induction false} DigitsEnd(a: Text, b: Text, x: Text, y: Text)
    requires a + x == b + y
    requires forall i :: 0 <= i < |a| ==> IsDigit(a[i])
    requires forall i :: 0 <= i < |b| ==> IsDigit(b[i])
    requires (x == [] || !IsDigit(x[0])) && (y == [] || !IsDigit(y[0]))
    ensures a == b && x == y
  {
    DigitsFit(a, b, x, y);
    DigitsFit(b, a, y, x);
    assert a == (a + x)[..|a|] && b == (b + y)[..|b|];
    assert x == (a + x)[|a|..] && y == (b + y)[|b|..];
  }

  // The three parts of a magnitude: digits, an optional fraction, an optional exponent.

  function Lead(ds: seq<Digit>, n: int): Text
    requires ds != []
  {
    match FormOf(|ds|, n)
    case Whole => DigitText(ds) + Zeros(n - |ds|)
    case Split => DigitText(ds[..n])
    case Leading => [0x30]
    case Exponent => DigitText(ds[..1])
  }

  function Fraction(ds: seq<Digit>, n: int): Option<Text>
    requires ds != []
  {
    match FormOf(|ds|, n)
    case Whole => None
    case Split => Some(DigitText(ds[n..]))
    case Leading => Some(Zeros(-n) + DigitText(ds))
    case Exponent => if |ds| == 1 then None else Some(DigitText(ds[1..]))
  }

  function ExponentText(n: int): Text {
    [E] + [if n - 1 >= 0 then PLUS else MINUS] + IntegerText(if n - 1 >= 0 then n - 1 else 1 - n)
  }

  function Tail(ds: seq<Digit>, n: int): Text
    requires ds != []
  {
    if FormOf(|ds|, n) == Exponent then ExponentText(n) else []
  }

  function Join(lead: Text, fraction: Option<Text>, tail: Text): Text {
    lead + (if fraction.Some? then [POINT] + fraction.value else []) + tail
  }

  predicate AllDigits(t: Text) {
    forall i :: 0 <= i < |t| ==> IsDigit(t[i])
  }

  lemma {:induction false} MagnitudeIsJoined(ds: seq<Digit>, n: int)
    requires ds != []
    ensures Magnitude(ds, n) == Join(Lead(ds, n), Fraction(ds, n), Tail(ds, n))
    ensures AllDigits(Lead(ds, n)) && (Fraction(ds, n).Some? ==> AllDigits(Fraction(ds, n).value))
    ensures Tail(ds, n) == [] || Tail(ds, n)[0] == E
  {
    PartsAreDigits(ds, n);
    if FormOf(|ds|, n) == Exponent {
      ExponentIsJoined(ds, n);
    } else {
      PlainIsJoined(ds, n);
    }
  }

  lemma {:induction false} PartsAreDigits(ds: seq<Digit>, n: int)
    requires ds != []
    ensures AllDigits(Lead(ds, n)) && (Fraction(ds, n).Some? ==> AllDigits(Fraction(ds, n).value))
  {
  }

  lemma {:induction false} PlainIsJoined(ds: seq<Digit>, n: int)
    requires ds != [] && FormOf(|ds|, n) != Exponent
    ensures Magnitude(ds, n) == Join(Lead(ds, n), Fraction(ds, n), [])
  {
    assert Join(Lead(ds, n), Fraction(ds, n), []) ==
      Lead(ds, n) + (if Fraction(ds, n).Some? then [POINT] + Fraction(ds, n).value else []);
  }

  lemma {:induction false} ExponentIsJoined(ds: seq<Digit>, n: int)
    requires ds != [] && FormOf(|ds|, n) == Exponent
    ensures Magnitude(ds, n) == Join(Lead(ds, n), Fraction(ds, n), ExponentText(n))
  {
    MantissaIsJoined(ds);
    AppendExponent(Mantissa(ds), [E], [if n - 1 >= 0 then PLUS else MINUS],
      IntegerText(if n - 1 >= 0 then n - 1 else 1 - n));
  }

  lemma {:induction false} AppendExponent(m: Text, e: Text, sign: Text, i: Text)
    ensures m + e + sign + i == m + (e + sign + i)
  {
  }

  lemma {:induction false} MantissaIsJoined(ds: seq<Digit>)
    requires ds != []
    ensures Mantissa(ds) == DigitText(ds[..1]) + (if |ds| == 1 then [] else [POINT] + DigitText(ds[1..]))
  {
    if |ds| == 1 {
      assert ds[..1] == ds;
    }
  }

  lemma {:induction false} PartsAreReadable(a: Text, f: Option<Text>, t: Text, b: Text, g: Option<Text>, u: Text)
    requires Join(a, f, t) == Join(b, g, u)
    requires AllDigits(a) && AllDigits(b) && (f.Some? ==> AllDigits(f.value)) && (g.Some? ==> AllDigits(g.value))
    requires (t == [] || t[0] == E) && (u == [] || u[0] == E)
    ensures a == b && f == g && t == u
  {
    var x := (if f.Some? then [POINT] + f.value else []) + t;
    var y := (if g.Some? then [POINT] + g.value else []) + u;
    assert Join(a, f, t) == a + x && Join(b, g, u) == b + y;
    DigitsEnd(a, b, x, y);
    if f.Some? {
      assert x[0] == POINT;
      assert g.Some?;
      assert x[1..] == f.value + t && y[1..] == g.value + u;
      DigitsEnd(f.value, g.value, t, u);
    } else {
      assert x == t;
      assert g == None;
      assert y == u;
    }
  }

  lemma {:induction false} ZerosBefore(p: nat, a: seq<Digit>, q: nat, b: seq<Digit>)
    requires a != [] && b != [] && a[0] != 0 && b[0] != 0
    requires Zeros(p) + DigitText(a) == Zeros(q) + DigitText(b)
    ensures p == q && a == b
  {
    var t := Zeros(p) + DigitText(a);
    assert t[p] == DigitText(a)[0] && t[q] == DigitText(b)[0];
    assert forall i :: 0 <= i < p ==> t[i] == 0x30;
    assert forall i :: 0 <= i < q ==> t[i] == 0x30;
    assert DigitText(a) == t[p..] && DigitText(b) == t[q..];
    DigitTextInjective(a, b);
  }

  lemma {:induction false} ZerosAfter(a: seq<Digit>, p: nat, b: seq<Digit>, q: nat)
    requires a != [] && b != [] && a[|a| - 1] != 0 && b[|b| - 1] != 0
    requires DigitText(a) + Zeros(p) == DigitText(b) + Zeros(q)
    ensures p == q && a == b
  {
    var t := DigitText(a) + Zeros(p);
    assert t[|a| - 1] == DigitText(a)[|a| - 1] && t[|b| - 1] == DigitText(b)[|b| - 1];
    assert forall i :: |a| <= i < |t| ==> t[i] == 0x30;
    assert forall i :: |b| <= i < |t| ==> t[i] == 0x30;
    assert |a| == |b|;
    assert DigitText(a) == t[..|a|] && DigitText(b) == t[..|b|];
    DigitTextInjective(a, b);
  }

  lemma {:induction false} ExponentInjective(m: int, n: int)
    requires ExponentText(m) == ExponentText(n)
    ensures m == n
  {
    var x, y := ExponentText(m), ExponentText(n);
    assert x[1] == (if m - 1 >= 0 then PLUS else MINUS) && y[1] == (if n - 1 >= 0 then PLUS else MINUS);
    assert x[2..] == IntegerText(if m - 1 >= 0 then m - 1 else 1 - m);
    assert y[2..] == IntegerText(if n - 1 >= 0 then n - 1 else 1 - n);
    IntegerTextInjective(if m - 1 >= 0 then m - 1 else 1 - m, if n - 1 >= 0 then n - 1 else 1 - n);
  }

  lemma {:induction false} SplitDigits(a: seq<Digit>, m: nat, b: seq<Digit>, n: nat)
    requires m <= |a| && n <= |b| && DigitText(a[..m]) == DigitText(b[..n]) && DigitText(a[m..]) == DigitText(b[n..])
    ensures m == n && a == b
  {
    assert |DigitText(a[..m])| == m && |DigitText(b[..n])| == n;
    DigitTextInjective(a[..m], b[..n]);
    DigitTextInjective(a[m..], b[n..]);
    assert a == a[..m] + a[m..] && b == b[..n] + b[n..];
  }

  lemma {:induction false} MagnitudeInjective(a: seq<Digit>, m: int, b: seq<Digit>, n: int)
    requires a != [] && b != [] && a[0] != 0 && b[0] != 0 && a[|a| - 1] != 0 && b[|b| - 1] != 0
    requires Magnitude(a, m) == Magnitude(b, n)
    ensures a == b && m == n
  {
    MagnitudeIsJoined(a, m);
    MagnitudeIsJoined(b, n);
    PartsAreReadable(Lead(a, m), Fraction(a, m), Tail(a, m), Lead(b, n), Fraction(b, n), Tail(b, n));
    FormsAgree(a, m, b, n);
    match FormOf(|a|, m)
    case Whole => ZerosAfter(a, m - |a|, b, n - |b|);
    case Split => SplitDigits(a, m, b, n);
    case Leading => ZerosBefore(-m, a, -n, b);
    case Exponent =>
      ExponentInjective(m, n);
      if |a| == 1 {
        assert a[..1] == a && b[..1] == b;
        DigitTextInjective(a, b);
      } else {
        SplitDigits(a, 1, b, 1);
      }
  }

  lemma {:induction false} FormsAgree(a: seq<Digit>, m: int, b: seq<Digit>, n: int)
    requires a != [] && b != [] && a[0] != 0 && b[0] != 0
    requires Lead(a, m) == Lead(b, n) && Fraction(a, m) == Fraction(b, n) && Tail(a, m) == Tail(b, n)
    ensures FormOf(|a|, m) == FormOf(|b|, n)
  {
    assert FormOf(|a|, m) == Split ==> Lead(a, m)[0] == 0x30 + (a[0] as int);
    assert FormOf(|b|, n) == Split ==> Lead(b, n)[0] == 0x30 + (b[0] as int);
  }

  lemma {:induction false} MagnitudeUnits(ds: seq<Digit>, n: int)
    requires ds != [] && ds[0] != 0
    ensures var t := Magnitude(ds, n); t != [] && IsDigit(t[0]) && t != [0x30] && forall i :: 0 <= i < |t| ==>
      IsNumberUnit(t[i])
  {
    MagnitudeIsJoined(ds, n);
    var e := IntegerText(if n - 1 >= 0 then n - 1 else 1 - n);
    assert AllDigits(e);
    if FormOf(|ds|, n) == Whole {
      assert Magnitude(ds, n)[0] == 0x30 + (ds[0] as int);
    }
  }

  lemma {:induction false} NumberUnits(n: Number)
    requires WellFormed(n)
    ensures var t := NumberText(n);
      t != [] && (IsDigit(t[0]) || t[0] == MINUS) && forall i :: 0 <= i < |t| ==> IsNumberUnit(t[i])
  {
    if n.Finite? {
      MagnitudeUnits(n.digits, n.point);
    }
  }

  predicate SameNumber(a: Number, b: Number) {
    a == b || (a.Zero? && b.Zero?)
  }

  lemma {:induction false} FiniteTextsDiffer(a: Number, b: Number)
    requires WellFormed(a) && WellFormed(b) && a.Finite? && b.Finite? && NumberText(a) == NumberText(b)
    ensures a == b
  {
    var x, y := Magnitude(a.digits, a.point), Magnitude(b.digits, b.point);
    MagnitudeUnits(a.digits, a.point);
    MagnitudeUnits(b.digits, b.point);
    assert NumberText(a)[0] == (if a.negative then MINUS else x[0]);
    assert NumberText(b)[0] == (if b.negative then MINUS else y[0]);
    assert x == (if a.negative then NumberText(a)[1..] else NumberText(a));
    assert y == (if b.negative then NumberText(b)[1..] else NumberText(b));
    MagnitudeInjective(a.digits, a.point, b.digits, b.point);
  }

  lemma {:induction false} FiniteIsNotZero(a: Number)
    requires WellFormed(a) && a.Finite?
    ensures NumberText(a) != [0x30]
  {
    MagnitudeUnits(a.digits, a.point);
    if a.negative {
      assert NumberText(a)[0] == MINUS;
    } else {
      assert NumberText(a) == Magnitude(a.digits, a.point);
    }
  }

  /** Numbers have the same text exactly if they are equal, taking both zeros as one. */
  lemma {:induction false} NumberTextInjective(a: Number, b: Number)
    requires WellFormed(a) && WellFormed(b)
    ensures NumberText(a) == NumberText(b) <==> SameNumber(a, b)
  {
    if a.Finite? && b.Finite? {
      if NumberText(a) == NumberText(b) {
        FiniteTextsDiffer(a, b);
      }
    } else if a.Finite? {
      FiniteIsNotZero(a);
    } else if b.Finite? {
      FiniteIsNotZero(b);
    }
  }

  /** A number's text ends at the first unit that cannot belong to it. */
  lemma {:induction false} NumberIsReadable(a: Number, b: Number, x: Text, y: Text)
    requires WellFormed(a) && WellFormed(b) && NumberText(a) + x == NumberText(b) + y
    requires (x == [] || !IsNumberUnit(x[0])) && (y == [] || !IsNumberUnit(y[0]))
    ensures SameNumber(a, b) && x == y
  {
    NumberUnits(a);
    NumberUnits(b);
    UnitsFit(NumberText(a), NumberText(b), x, y);
    UnitsFit(NumberText(b), NumberText(a), y, x);
    assert NumberText(a) == (NumberText(a) + x)[..|NumberText(a)|]
      && NumberText(b) == (NumberText(b) + y)[..|NumberText(b)|];
    assert x == (NumberText(a) + x)[|NumberText(a)|..] && y == (NumberText(b) + y)[|NumberText(b)|..];
    NumberTextInjective(a, b);
  }

  lemma {:induction false} UnitsFit(a: Text, b: Text, x: Text, y: Text)
    requires a + x == b + y
    requires forall i :: 0 <= i < |b| ==> IsNumberUnit(b[i])
    requires x == [] || !IsNumberUnit(x[0])
    ensures |b| <= |a|
  {
    assert forall i :: 0 <= i < |b| ==> (b + y)[i] == b[i];
    if x != [] {
      assert (a + x)[|a|] == x[0];
    }
  }
}
