/** Reading a JSON string (section 7 of RFC 8259) undoes writing it. */
module JsonStrings {
  import opened Common
  import opened JsonText
  import opened ProjectionPaths

  /** What was read, and what is left behind the closing quote. */
  datatype Reading = Reading(text: Text, rest: Text)

  function HexValue(c: Unit): Option<nat> {
    if 0x30 <= c <= 0x39 then Some(c - 0x30)
    else if 0x61 <= c <= 0x66 then Some(c - 0x61 + 10)
    else if 0x41 <= c <= 0x46 then Some(c - 0x41 + 10)
    else None
  }

  predicate AreHex(t: Text) {
    forall i :: 0 <= i < |t| ==> HexValue(t[i]).Some?
  }

  function UnitOf(t: Text): Unit
    requires |t| == 4 && AreHex(t)
  {
    assert forall i :: 0 <= i < |t| ==> HexValue(t[i]).value < 16;
    ((HexValue(t[0]).value * 16 + HexValue(t[1]).value) * 16 + HexValue(t[2]).value) * 16 + HexValue(t[3]).value
  }

  /** What the character after a backslash stands for, the letter of a code unit apart. */
  function Escaped(c: Unit): Option<Unit> {
    if c == 0x22 || c == 0x5C || c == 0x2F then Some(c)
    else if c == 0x62 then Some(0x08)
    else if c == 0x66 then Some(0x0C)
    else if c == 0x6E then Some(0x0A)
    else if c == 0x72 then Some(0x0D)
    else if c == 0x74 then Some(0x09)
    else None
  }

  function Before(c: Unit, r: Result<Reading>): Result<Reading> {
    if r == Failure then Failure else Success(Reading([c] + r.value.text, r.value.rest))
  }

  /** The rest of a string, after its opening quote. */
  function Read(t: Text): Result<Reading> {
    if t == [] then Failure
    else if t[0] == 0x22 then Success(Reading([], t[1..]))
    else if t[0] == 0x5C then
      if |t| < 2 then Failure
      else if t[1] == 0x75 then
        if |t| >= 6 && AreHex(t[2..6]) then Before(UnitOf(t[2..6]), Read(t[6..])) else Failure
      else if Escaped(t[1]).Some? then Before(Escaped(t[1]).value, Read(t[2..]))
      else Failure
    else if t[0] < 0x20 then Failure
    else Before(t[0], Read(t[1..]))
  }

  lemma {:induction false} HexReadsBack(d: nat)
    requires d < 16
    ensures HexValue(HexDigit(d)) == Some(d)
  {
  }

  lemma {:induction false} HexParts(c: Unit)
    ensures c == ((c / 16 / 16 / 16 * 16 + c / 16 / 16 % 16) * 16 + c / 16 % 16) * 16 + c % 16
  {
    assert c / 16 / 16 == c / 16 / 16 / 16 * 16 + c / 16 / 16 % 16;
    assert c / 16 == c / 16 / 16 * 16 + c / 16 % 16;
  }

  lemma {:induction false} UnitReadsBack(c: Unit)
    ensures AreHex(Hex4(c)) && UnitOf(Hex4(c)) == c
  {
    HexReadsBack(c / 16 / 16 / 16);
    HexReadsBack(c / 16 / 16 % 16);
    HexReadsBack(c / 16 % 16);
    HexReadsBack(c % 16);
    HexParts(c);
  }

  lemma {:induction false} ShortReadsBack(c: Unit)
    requires ShortEscape(c).Some?
    ensures Escaped(ShortEscape(c).value) == Some(c) && ShortEscape(c).value != 0x75
  {
  }

  /** What stands for one code unit is read as that unit. */
  lemma {:induction false} ChunkReadsBack(s: Text, i: nat, t: Text)
    requires i < |s|
    ensures Read(Chunk(s, i) + t) == Before(s[i], Read(t))
  {
    var chunk := Chunk(s, i);
    var all := chunk + t;
    assert all[|chunk|..] == t && all[..|chunk|] == chunk;
    if ShortEscape(s[i]).Some? {
      ShortReadsBack(s[i]);
      assert all[0] == BACKSLASH && all[1] == ShortEscape(s[i]).value;
    } else if s[i] < 0x20 || IsLone(s, i) {
      UnitReadsBack(s[i]);
      assert all[0] == BACKSLASH && all[1] == U && all[2..6] == chunk[2..6] == Hex4(s[i]);
    } else {
      assert all[0] == s[i];
    }
  }

  lemma {:induction false} EscapedReadsBack(s: Text, i: nat, t: Text)
    requires i <= |s|
    ensures Read(EscapedFrom(s, i) + t) == Success(Reading(s[i..], t))
    decreases |s| - i
  {
    if i == |s| {
      var all := [QUOTE] + t;
      assert EscapedFrom(s, i) + t == all && all[0] == 0x22 && all[1..] == t;
      assert s[i..] == [];
    } else {
      NextChunk(s, i, t);
      ChunkReadsBack(s, i, EscapedFrom(s, i + 1) + t);
      EscapedReadsBack(s, i + 1, t);
    }
  }

  /** A string that was written is read back, whatever follows it, lone surrogates included. */
  lemma {:induction false} QuotedReadsBack(s: Text, t: Text)
    ensures (Quoted(s) + t)[0] == 0x22 && Read((Quoted(s) + t)[1..]) == Success(Reading(s, t))
  {
    assert (Quoted(s) + t)[1..] == EscapedFrom(s, 0) + t;
    EscapedReadsBack(s, 0, t);
    assert s[0..] == s;
  }

  // ----- Surrogates

  /** No surrogate stands without its partner, so the text survives its encoding in UTF-8. */
  predicate IsPaired(t: Text) {
    EncodableFrom(t, 0)
  }

  lemma {:induction false} EncodableLater(a: Text, b: Text, k: nat)
    requires k <= |b|
    ensures EncodableFrom(a + b, |a| + k) <==> EncodableFrom(b, k)
    decreases |b| - k
  {
    if k < |b| {
      assert PointLength(a + b, |a| + k) == PointLength(b, k);
      EncodableLater(a, b, k + PointLength(b, k));
    }
  }

  lemma {:induction false} PairedBoth(a: Text, b: Text, k: nat)
    requires k <= |a| && EncodableFrom(a, k) && IsPaired(b)
    ensures EncodableFrom(a + b, k)
    decreases |a| - k
  {
    if k == |a| {
      EncodableLater(a, b, 0);
    } else {
      assert PointLength(a + b, k) == PointLength(a, k);
      PairedBoth(a, b, k + PointLength(a, k));
    }
  }

  /** Texts without lone surrogates can be put one after the other. */
  lemma {:induction false} PairedConcat(a: Text, b: Text)
    requires IsPaired(a) && IsPaired(b)
    ensures IsPaired(a + b)
  {
    PairedBoth(a, b, 0);
  }

  lemma {:induction false} PlainIsPaired(t: Text, k: nat)
    requires k <= |t| && forall i :: 0 <= i < |t| ==> !IsHigh(t[i]) && !IsLow(t[i])
    ensures EncodableFrom(t, k)
    decreases |t| - k
  {
    if k < |t| {
      PlainIsPaired(t, k + 1);
    }
  }

  /** The unit is the second one of a pair. */
  predicate IsSecond(s: Text, i: nat)
    requires i < |s|
  {
    IsLow(s[i]) && i > 0 && IsHigh(s[i - 1])
  }

  lemma {:induction false} ChunkIsPlain(s: Text, i: nat)
    requires i < |s| && !IsSecond(s, i) && !(IsHigh(s[i]) && i + 1 < |s| && IsLow(s[i + 1]))
    ensures IsPaired(Chunk(s, i))
  {
    var chunk := Chunk(s, i);
    forall k | 0 <= k < |chunk| ensures !IsHigh(chunk[k]) && !IsLow(chunk[k]) {
    }
    PlainIsPaired(chunk, 0);
  }

  lemma {:induction false} PairIsWritten(s: Text, i: nat)
    requires i + 1 < |s| && IsHigh(s[i]) && IsLow(s[i + 1])
    ensures EscapedFrom(s, i) == [s[i], s[i + 1]] + EscapedFrom(s, i + 2)
    ensures IsPaired([s[i], s[i + 1]])
  {
    assert Chunk(s, i) == [s[i]] && Chunk(s, i + 1) == [s[i + 1]];
    var pair := [s[i], s[i + 1]];
    assert PointLength(pair, 0) == 2 && EncodableFrom(pair, 2);
    assert EscapedFrom(s, i) == [s[i]] + ([s[i + 1]] + EscapedFrom(s, i + 2));
  }

  lemma {:induction false} EscapedIsPaired(s: Text, i: nat)
    requires i <= |s| && (i < |s| ==> !IsSecond(s, i))
    ensures IsPaired(EscapedFrom(s, i))
    decreases |s| - i
  {
    if i == |s| {
      PlainIsPaired([QUOTE], 0);
    } else if IsHigh(s[i]) && i + 1 < |s| && IsLow(s[i + 1]) {
      PairIsWritten(s, i);
      EscapedIsPaired(s, i + 2);
      PairedConcat([s[i], s[i + 1]], EscapedFrom(s, i + 2));
    } else {
      ChunkIsPlain(s, i);
      EscapedIsPaired(s, i + 1);
      PairedConcat(Chunk(s, i), EscapedFrom(s, i + 1));
    }
  }

  /** Whatever string is written, its text has no lone surrogate. */
  lemma {:induction false} QuotedIsPaired(s: Text)
    ensures IsPaired(Quoted(s))
  {
    EscapedIsPaired(s, 0);
    PlainIsPaired([QUOTE], 0);
    PairedConcat([QUOTE], EscapedFrom(s, 0));
  }
}
