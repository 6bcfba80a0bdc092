/** The text of a number is a number of the JSON grammar (section 6 of RFC 8259), and denotes that number. */
module JsonNumbers {
  import opened Common
  import opened JsonText
  import Decimal

  /** What a run of decimal digits denotes. */
  function Denoted(t: Text): nat
    requires AllDigits(t)
  {
    if t == [] then 0 else 10 * Denoted(t[..|t| - 1]) + (t[|t| - 1] - 0x30)
  }

  function DigitsValue(ds: seq<Digit>): nat {
    if ds == [] then 0 else 10 * DigitsValue(ds[..|ds| - 1]) + ds[|ds| - 1]
  }

  function Power(n: nat): nat {
    if n == 0 then 1 else 10 * Power(n - 1)
  }

  /** Nothing, or the letter, a sign and digits. */
  predicate IsExponent(t: Text) {
    t == [] || (|t| > 2 && t[0] == E && (t[1] == PLUS || t[1] == MINUS) && AllDigits(t[2..]))
  }

  function ExponentOf(t: Text): int
    requires IsExponent(t)
  {
    if t == [] then 0
    else
      var n: int := Denoted(t[2..]);
      if t[1] == MINUS then -n else n
  }

  /** An integer part without superfluous zeros, a fraction that is not empty, an exponent. */
  predicate IsGrammatical(lead: Text, fraction: Option<Text>, tail: Text) {
    && lead != [] && AllDigits(lead) && (|lead| > 1 ==> lead[0] != 0x30)
    && (fraction.Some? ==> fraction.value != [] && AllDigits(fraction.value))
    && IsExponent(tail)
  }

  function Decimals(fraction: Option<Text>): Text {
    if fraction.Some? then fraction.value else []
  }

  /** The parts denote 0.d1d2... times ten to the power `point`; `shift` evens out zeros behind the digits. */
  predicate Denote(lead: Text, fraction: Option<Text>, tail: Text, ds: seq<Digit>, point: int, shift: nat)
    requires IsGrammatical(lead, fraction, tail)
  {
    && AllDigits(lead + Decimals(fraction))
    && Denoted(lead + Decimals(fraction)) == DigitsValue(ds) * Power(shift)
    && ExponentOf(tail) - |Decimals(fraction)| + shift == point - |ds|
  }

  lemma {:induction false} DenotedDigits(ds: seq<Digit>)
    ensures AllDigits(DigitText(ds)) && Denoted(DigitText(ds)) == DigitsValue(ds)
  {
    if ds != [] {
      var front := ds[..|ds| - 1];
      DenotedDigits(front);
      assert DigitText(ds)[..|ds| - 1] == DigitText(front);
    }
  }

  lemma {:induction false} OneMoreZero(t: Text)
    requires AllDigits(t)
    ensures AllDigits(t + [0x30]) && Denoted(t + [0x30]) == 10 * Denoted(t)
  {
    assert (t + [0x30])[..|t|] == t;
  }

  lemma {:induction false} TimesTen(d: nat, p: nat)
    ensures 10 * (d * p) == d * (10 * p)
  {
  }

  lemma {:induction false} ZerosBehind(t: Text, n: nat)
    requires AllDigits(t)
    ensures AllDigits(t + Zeros(n)) && Denoted(t + Zeros(n)) == Denoted(t) * Power(n)
  {
    if n == 0 {
      assert t + Zeros(0) == t;
    } else {
      var front := t + Zeros(n - 1);
      ZerosBehind(t, n - 1);
      assert t + Zeros(n) == front + [0x30];
      OneMoreZero(front);
      TimesTen(Denoted(t), Power(n - 1));
    }
  }

  lemma {:induction false} ZerosInFront(n: nat, t: Text)
    requires AllDigits(t)
    ensures AllDigits(Zeros(n) + t) && Denoted(Zeros(n) + t) == Denoted(t)
  {
    if t == [] {
      assert Zeros(n) + t == Zeros(n);
      OnlyZeros(n);
    } else {
      ZerosInFront(n, t[..|t| - 1]);
      assert (Zeros(n) + t)[..n + |t| - 1] == Zeros(n) + t[..|t| - 1];
    }
  }

  lemma {:induction false} OnlyZeros(n: nat)
    ensures AllDigits(Zeros(n)) && Denoted(Zeros(n)) == 0
  {
    if n > 0 {
      OnlyZeros(n - 1);
      assert Zeros(n)[..n - 1] == Zeros(n - 1);
    }
  }

  lemma {:induction false} DenotedPrinted(s: string, t: Text)
    requires |s| == |t| && AllDigits(t)
    requires forall i :: 0 <= i < |s| ==> Decimal.IsDigit(s[i]) && t[i] == 0x30 + Decimal.DigitValue(s[i])
    ensures Denoted(t) == Decimal.Value(s)
  {
    if t != [] {
      DenotedPrinted(s[..|s| - 1], t[..|t| - 1]);
    }
  }

  lemma {:induction false} DenotedInteger(n: nat)
    ensures AllDigits(IntegerText(n)) && Denoted(IntegerText(n)) == n
  {
    Decimal.PrintIsCanonical(n);
    DenotedPrinted(Decimal.Print(n), IntegerText(n));
  }

  lemma {:induction false} ExponentDenotes(n: int)
    ensures IsExponent(ExponentText(n)) && ExponentOf(ExponentText(n)) == n - 1
  {
    var digits := IntegerText(if n - 1 >= 0 then n - 1 else 1 - n);
    DenotedInteger(if n - 1 >= 0 then n - 1 else 1 - n);
    assert ExponentText(n)[2..] == digits;
  }

  lemma {:induction false} WholeDenotes(ds: seq<Digit>, n: nat)
    requires ds != [] && ds[0] != 0 && n >= |ds|
    ensures var lead := DigitText(ds) + Zeros(n - |ds|);
      IsGrammatical(lead, None, []) && Denote(lead, None, [], ds, n, n - |ds|)
  {
    DenotedDigits(ds);
    ZerosBehind(DigitText(ds), n - |ds|);
    var lead := DigitText(ds) + Zeros(n - |ds|);
    assert lead + [] == lead && lead[0] == DigitText(ds)[0];
  }

  lemma {:induction false} Unshifted(
    lead: Text, fraction: Option<Text>, tail: Text, ds: seq<Digit>, point: int, all: Text)
    requires IsGrammatical(lead, fraction, tail) && all == lead + Decimals(fraction) && AllDigits(all)
    requires Denoted(all) == DigitsValue(ds) && ExponentOf(tail) - |Decimals(fraction)| == point - |ds|
    ensures Denote(lead, fraction, tail, ds, point, 0)
  {
    assert DigitsValue(ds) * Power(0) == DigitsValue(ds);
  }

  lemma {:induction false} SplitIsGrammatical(ds: seq<Digit>, n: nat, tail: Text)
    requires 0 < n < |ds| && ds[0] != 0 && IsExponent(tail)
    ensures IsGrammatical(DigitText(ds[..n]), Some(DigitText(ds[n..])), tail)
  {
  }

  lemma {:induction false} SplitDenotes(ds: seq<Digit>, n: nat, tail: Text)
    requires 0 < n < |ds| && ds[0] != 0 && IsExponent(tail)
    ensures var lead, fraction := DigitText(ds[..n]), Some(DigitText(ds[n..]));
      IsGrammatical(lead, fraction, tail) && Denote(lead, fraction, tail, ds, n + ExponentOf(tail), 0)
  {
    DenotedDigits(ds);
    SplitIsGrammatical(ds, n, tail);
    var lead, fraction := DigitText(ds[..n]), DigitText(ds[n..]);
    assert lead + fraction == DigitText(ds);
    Unshifted(lead, Some(fraction), tail, ds, n + ExponentOf(tail), DigitText(ds));
  }

  lemma {:induction false} LeadingDenotes(ds: seq<Digit>, n: int)
    requires ds != [] && n <= 0
    ensures var fraction := Some(Zeros(-n) + DigitText(ds));
      IsGrammatical([0x30], fraction, []) && Denote([0x30], fraction, [], ds, n, 0)
  {
    DenotedDigits(ds);
    ZerosInFront(1 - n, DigitText(ds));
    var all := Zeros(1 - n) + DigitText(ds);
    assert all == [0x30] + (Zeros(-n) + DigitText(ds));
    Unshifted([0x30], Some(Zeros(-n) + DigitText(ds)), [], ds, n, all);
  }

  lemma {:induction false} OneDigitDenotes(ds: seq<Digit>, tail: Text)
    requires |ds| == 1 && IsExponent(tail)
    ensures IsGrammatical(DigitText(ds), None, tail) && Denote(DigitText(ds), None, tail, ds, 1 + ExponentOf(tail), 0)
  {
    DenotedDigits(ds);
    assert DigitText(ds) + [] == DigitText(ds);
    Unshifted(DigitText(ds), None, tail, ds, 1 + ExponentOf(tail), DigitText(ds));
  }

  /** A finite number is written as its sign and parts of the grammar that denote it. */
  lemma {:induction false} NumberTextDenotes(n: Number)
    returns (lead: Text, fraction: Option<Text>, tail: Text, shift: nat)
    requires WellFormed(n) && n.Finite?
    ensures NumberText(n) == (if n.negative then [MINUS] else []) + Join(lead, fraction, tail)
    ensures IsGrammatical(lead, fraction, tail) && Denote(lead, fraction, tail, n.digits, n.point, shift)
  {
    var ds, k, point := n.digits, |n.digits|, n.point;
    MagnitudeIsJoined(ds, point);
    lead, fraction, tail, shift := Lead(ds, point), Fraction(ds, point), Tail(ds, point), 0;
    match FormOf(k, point)
    case Whole =>
      shift := point - k;
      WholeDenotes(ds, point);
    case Split =>
      SplitDenotes(ds, point, []);
    case Leading =>
      LeadingDenotes(ds, point);
    case Exponent =>
      ExponentDenotes(point);
      if k == 1 {
        assert ds[..1] == ds;
        OneDigitDenotes(ds, tail);
      } else {
        SplitDenotes(ds, 1, tail);
      }
  }
}
