/** Small result types shared by the models. A thrown error of the source is a `Failure`. */
module Common {
  datatype Option<+T> = None | Some(value: T)

  datatype Result<+T> = Success(value: T) | Failure

  const MAX_SAFE_INTEGER: nat := 0x1F_FFFF_FFFF_FFFF

  function Min(a: int, b: int): int {
    if a <= b then a else b
  }

  function Max(a: int, b: int): int {
    if a <= b then b else a
  }
}

/** Text as the source walks it: `for (const codePoint of content)`. */
module Unicode {
  type CodePoint = c: int | 0 <= c <= 0x10FFFF witness 0

  type Text = seq<CodePoint>

  function Utf8ByteLength(c: CodePoint): (n: nat)
    ensures 1 <= n <= 4
  {
    if c <= 0x7F then 1 else if c <= 0x7FF then 2 else if c <= 0xFFFF then 3 else 4
  }

  function ByteLength(t: Text): (n: nat)
    ensures |t| <= n <= 4 * |t|
  {
    if t == [] then 0 else ByteLength(t[..|t| - 1]) + Utf8ByteLength(t[|t| - 1])
  }

  lemma {:induction false} ByteLengthConcat(a: Text, b: Text)
    ensures ByteLength(a + b) == ByteLength(a) + ByteLength(b)
  {
    if b == [] {
      assert a + b == a;
    } else {
      assert (a + b)[..|a + b| - 1] == a + b[..|b| - 1];
      ByteLengthConcat(a, b[..|b| - 1]);
    }
  }
}

/** Canonical decimal numerals, `0|[1-9][0-9]*`. */
module Decimal {
  import opened Common

  predicate IsDigit(c: char) {
    '0' <= c <= '9'
  }

  function DigitValue(c: char): (d: nat)
    requires IsDigit(c)
    ensures d < 10
  {
    c as int - '0' as int
  }

  function Digit(d: nat): (c: char)
    requires d < 10
    ensures IsDigit(c) && DigitValue(c) == d
  {
    ('0' as int + d) as char
  }

  /** `String(n)` for a nonnegative integer. */
  function Print(n: nat): (s: string)
    ensures |s| >= 1
  {
    if n < 10 then [Digit(n)] else Print(n / 10) + [Digit(n % 10)]
  }

  function Value(s: string): nat
    requires forall i :: 0 <= i < |s| ==> IsDigit(s[i])
  {
    if s == [] then 0 else 10 * Value(s[..|s| - 1]) + DigitValue(s[|s| - 1])
  }

  predicate IsCanonical(s: string) {
    && |s| >= 1
    && (forall i :: 0 <= i < |s| ==> IsDigit(s[i]))
    && (|s| > 1 ==> s[0] != '0')
  }

  lemma {:induction false} PrintIsCanonical(n: nat)
    ensures IsCanonical(Print(n)) && Value(Print(n)) == n
    ensures n > 0 ==> Print(n)[0] != '0'
  {
    if n < 10 {
      assert Print(n)[..0] == [];
    } else {
      PrintIsCanonical(n / 10);
      assert Print(n)[..|Print(n)| - 1] == Print(n / 10);
    }
  }

  lemma {:induction false} CanonicalIsPrinted(s: string)
    requires IsCanonical(s)
    ensures Print(Value(s)) == s
    ensures |s| > 1 ==> Value(s) >= 10
    ensures s[0] != '0' ==> Value(s) >= 1
  {
    var front := s[..|s| - 1];
    if |s| == 1 {
      assert front == [];
    } else {
      CanonicalIsPrinted(front);
      assert s == front + [s[|s| - 1]];
    }
  }

  /** Printing is one-to-one and parsing undoes it. */
  lemma {:induction false} PrintInjective(a: nat, b: nat)
    ensures Print(a) == Print(b) ==> a == b
  {
    PrintIsCanonical(a);
    PrintIsCanonical(b);
  }
}
