/** The Link header parser accepts nothing but what the grammar prints, and reads it as what was printed. */
module LinkForms {
  import opened Common
  import opened LinkHeader

  lemma {:induction false} SkippedIsBlank(s: string, i: nat)
    requires i < |s| - |SkipBlanks(s)|
    ensures IsBlank(s[i])
  {
    if i > 0 {
      SkippedIsBlank(s[1..], i - 1);
    }
  }

  lemma {:induction false} SuffixSplit(r: string, s: string)
    requires IsSuffix(r, s)
    ensures s == s[..|s| - |r|] + r
  {
  }

  /** The blanks that are skipped. */
  lemma {:induction false} BlanksSplit(s: string) returns (b: string)
    ensures AllBlank(b) && s == b + SkipBlanks(s)
  {
    SkipLeavesSuffix(s);
    SuffixSplit(SkipBlanks(s), s);
    b := s[..|s| - |SkipBlanks(s)|];
    forall i | 0 <= i < |b| ensures IsBlank(b[i]) {
      SkippedIsBlank(s, i);
    }
  }

  lemma {:induction false} FirstAndRest(s: string)
    requires s != []
    ensures s == [s[0]] + s[1..]
  {
  }

  lemma {:induction false} SplitAt(s: string, n: nat)
    requires n <= |s|
    ensures s == s[..n] + s[n..]
  {
  }

  lemma {:induction false} OneMoreQuoted(q: QuotedChar, more: seq<QuotedChar>, rest: string)
    requires IsQuotedText(q.c, q.escaped) && LegalQuoted(more)
    ensures LegalQuoted([q] + more) && QuotedContent([q] + more) == [q.c] + QuotedContent(more)
    ensures PrintQuoted([q] + more, rest) == (if q.escaped then ['\\', q.c] else [q.c]) + PrintQuoted(more, rest)
  {
    assert ([q] + more)[1..] == more;
  }

  lemma {:induction false} QuotedForm(s: string) returns (cs: seq<QuotedChar>)
    requires ReadQuoted(s).Success?
    ensures LegalQuoted(cs) && s == PrintQuoted(cs, ReadQuoted(s).value.rest)
    ensures QuotedContent(cs) == ReadQuoted(s).value.value
  {
    if s[0] == '"' {
      cs := [];
      FirstAndRest(s);
    } else if s[0] == '\\' {
      var more := QuotedForm(s[2..]);
      OneMoreQuoted(QuotedChar(s[1], true), more, ReadQuoted(s[2..]).value.rest);
      cs := [QuotedChar(s[1], true)] + more;
      SplitAt(s, 2);
      assert s[..2] == ['\\', s[1]];
    } else {
      var more := QuotedForm(s[1..]);
      OneMoreQuoted(QuotedChar(s[0], false), more, ReadQuoted(s[1..]).value.rest);
      cs := [QuotedChar(s[0], false)] + more;
      FirstAndRest(s);
    }
  }

  /** Blank space, an equals sign, blank space, and what comes after. */
  lemma {:induction false} EqualsForm(s: string) returns (before: string, after: string)
    requires StartsWith(SkipBlanks(s), '=')
    ensures AllBlank(before) && AllBlank(after)
    ensures s == before + (['='] + (after + SkipBlanks(SkipBlanks(s)[1..])))
  {
    before := BlanksSplit(s);
    after := BlanksSplit(SkipBlanks(s)[1..]);
    FirstAndRest(SkipBlanks(s));
  }

  predicate LegalValue(v: Value) {
    match v case NoValue => true case Token(t) => IsToken(t) case Quotation(cs) => LegalQuoted(cs)
  }

  /** The parameter has a legal value, which was read from the text with `gap` left before the rest. */
  predicate IsValueForm(s: string, q: Parameter, gap: string) {
    && AllBlank(q.beforeEquals) && AllBlank(q.afterEquals) && LegalValue(q.value) && AllBlank(gap)
    && ReadValue(s).Success?
    && s == PrintValue(q, gap + ReadValue(s).value.rest) && ValueOf(q) == ReadValue(s).value.value
  }

  lemma {:induction false} QuotationForm(s: string, p: Parameter) returns (q: Parameter)
    requires ReadValue(s).Success? && StartsWith(SkipBlanks(s), '=')
    requires StartsWith(SkipBlanks(SkipBlanks(s)[1..]), '"')
    ensures q == p.(beforeEquals := q.beforeEquals, afterEquals := q.afterEquals, value := q.value)
    ensures IsValueForm(s, q, [])
  {
    var before, after := EqualsForm(s);
    var t := SkipBlanks(SkipBlanks(s)[1..]);
    var cs := QuotedForm(t[1..]);
    q := p.(beforeEquals := before, afterEquals := after, value := Quotation(cs));
    FirstAndRest(t);
    ValuePrinted(q, ReadQuoted(t[1..]).value.rest);
  }

  lemma {:induction false} TokenForm(s: string, p: Parameter) returns (q: Parameter)
    requires ReadValue(s).Success? && StartsWith(SkipBlanks(s), '=')
    requires !StartsWith(SkipBlanks(SkipBlanks(s)[1..]), '"')
    ensures q == p.(beforeEquals := q.beforeEquals, afterEquals := q.afterEquals, value := q.value)
    ensures IsValueForm(s, q, [])
  {
    var before, after := EqualsForm(s);
    var t := SkipBlanks(SkipBlanks(s)[1..]);
    var n := TokenLength(t);
    q := p.(beforeEquals := before, afterEquals := after, value := Token(t[..n]));
    SplitAt(t, n);
    ValuePrinted(q, t[n..]);
  }

  lemma {:induction false} ValuePrinted(q: Parameter, rest: string)
    requires !q.value.NoValue?
    ensures PrintValue(q, [] + rest) == q.beforeEquals + (['='] + (q.afterEquals +
      if q.value.Token? then q.value.token + rest else ['"'] + PrintQuoted(q.value.chars, rest)))
  {
    assert [] + rest == rest;
  }

  /** A value as it was read, with the blanks behind it that were skipped. */
  lemma {:induction false} ValueForm(s: string, p: Parameter) returns (q: Parameter, gap: string)
    requires ReadValue(s).Success?
    ensures q == p.(beforeEquals := q.beforeEquals, afterEquals := q.afterEquals, value := q.value)
    ensures IsValueForm(s, q, gap)
  {
    gap := [];
    if !StartsWith(SkipBlanks(s), '=') {
      gap := BlanksSplit(s);
      q := p.(beforeEquals := [], afterEquals := [], value := NoValue);
    } else if StartsWith(SkipBlanks(SkipBlanks(s)[1..]), '"') {
      q := QuotationForm(s, p);
    } else {
      q := TokenForm(s, p);
    }
  }

  predicate AllLegal(url: Accepts, ps: seq<Parameter>) {
    forall i :: 0 <= i < |ps| ==> LegalParameter(url, ps[i])
  }

  lemma {:induction false} ParameterPrinted(s: string, t: string, u: string, p: Parameter, tail: string)
    requires s == p.beforeSemicolon + t && t != [] && t[0] == ';' && t[1..] == p.beforeName + u
    requires u == p.name + PrintValue(p, tail)
    ensures s == PrintParameter(p, tail)
  {
    FirstAndRest(t);
  }

  /** One parameter as it was read; `tail` is what is left, the skipped blanks included. */
  lemma {:induction false} ParameterForm(s: string) returns (p: Parameter, tail: string)
    requires StartsWith(SkipBlanks(s), ';')
    requires var u := SkipBlanks(SkipBlanks(s)[1..]); TokenLength(u) > 0 && ReadValue(u[TokenLength(u)..]).Success?
    ensures var u := SkipBlanks(SkipBlanks(s)[1..]); var v := ReadValue(u[TokenLength(u)..]).value;
      && AllBlank(p.beforeName) && AllBlank(p.beforeEquals) && AllBlank(p.afterEquals) && AllBlank(p.beforeSemicolon)
      && p.name == u[..TokenLength(u)] && LegalValue(p.value) && ValueOf(p) == v.value
      && s == PrintParameter(p, tail) && SkipBlanks(tail) == SkipBlanks(v.rest) && |tail| < |s|
  {
    var t := SkipBlanks(s);
    var u := SkipBlanks(t[1..]);
    var n := TokenLength(u);
    var beforeSemicolon := BlanksSplit(s);
    var beforeName := BlanksSplit(t[1..]);
    var gap;
    p, gap := ValueForm(u[n..], Parameter(beforeName, u[..n], [], [], NoValue, beforeSemicolon));
    tail := gap + ReadValue(u[n..]).value.rest;
    BlanksSkipped(gap, ReadValue(u[n..]).value.rest);
    SplitAt(u, n);
    ParameterPrinted(s, t, u, p, tail);
    PrintedIsLonger(p, tail);
  }

  lemma {:induction false} PrintedIsLonger(p: Parameter, tail: string)
    ensures |PrintParameter(p, tail)| > |tail|
  {
    match p.value
    case NoValue =>
    case Token(t) =>
    case Quotation(cs) => QuotedIsLonger(cs, tail);
  }

  lemma {:induction false} QuotedIsLonger(cs: seq<QuotedChar>, tail: string)
    ensures |PrintQuoted(cs, tail)| > |tail|
  {
    if cs != [] {
      QuotedIsLonger(cs[1..], tail);
    }
  }

  lemma {:induction false} MoreParameters(
    url: Accepts, p: Parameter, more: seq<Parameter>, so: Option<set<string>>, rest: string)
    requires LegalParameter(url, p) && AllLegal(url, more) && (IsRel(p) ==> so == None)
    requires NoSecondRel(more, NextRelations(url, p, so))
    ensures AllLegal(url, [p] + more) && NoSecondRel([p] + more, so)
    ensures PrintParameters([p] + more, rest) == PrintParameter(p, PrintParameters(more, rest))
    ensures Relations(url, [p] + more, so) == Relations(url, more, NextRelations(url, p, so))
  {
    var ps := [p] + more;
    assert ps[1..] == more;
    forall i, j | 0 <= i < j < |ps| ensures !(IsRel(ps[i]) && IsRel(ps[j])) {
      assert ps[j] == more[j - 1] && (i > 0 ==> ps[i] == more[i - 1]);
    }
  }

  /** Parameters as they were read, and the blanks behind the last. */
  lemma {:induction false} ParametersForm(url: Accepts, s: string, so: Option<set<string>>)
    returns (ps: seq<Parameter>, after: string)
    requires ReadParameters(url, s, so).Success?
    ensures AllLegal(url, ps) && NoSecondRel(ps, so) && AllBlank(after)
    ensures s == PrintParameters(ps, after + ReadParameters(url, s, so).value.rest)
    ensures Relations(url, ps, so) == ReadParameters(url, s, so).value.value
    decreases |s|
  {
    if !StartsWith(SkipBlanks(s), ';') {
      ps := [];
      after := BlanksSplit(s);
    } else {
      var p, tail := ParameterForm(s);
      var u := SkipBlanks(SkipBlanks(s)[1..]);
      var v := ReadValue(u[TokenLength(u)..]).value;
      var next := NextRelations(url, p, so);
      SkippedParameters(url, v.rest, tail, next);
      var more;
      more, after := ParametersForm(url, tail, next);
      ps := [p] + more;
      MoreParameters(url, p, more, so, after + ReadParameters(url, s, so).value.rest);
    }
  }

  /** The target as it was read, and what is left behind it. */
  lemma {:induction false} TargetForm(s: string) returns (before: string, target: string, tail: string)
    requires StartsWith(SkipBlanks(s), '<') && IndexOf(SkipBlanks(s)[1..], '>') >= 0
    ensures var t := SkipBlanks(s)[1..]; target == t[..IndexOf(t, '>')] && tail == t[IndexOf(t, '>') + 1..]
    ensures AllBlank(before) && s == before + (['<'] + (target + (['>'] + tail)))
  {
    var t := SkipBlanks(s)[1..];
    var end := IndexOf(t, '>');
    before := BlanksSplit(s);
    target, tail := t[..end], t[end + 1..];
    assert SkipBlanks(s) == ['<'] + t && t == target + (['>'] + tail);
  }

  /** A link that is read, by its parts. */
  lemma {:induction false} ReadLinkParts(url: Accepts, s: string)
    requires ReadLink(url, s).Success?
    ensures StartsWith(SkipBlanks(s), '<')
    ensures var t := SkipBlanks(s)[1..]; var end := IndexOf(t, '>');
      && end >= 0 && IsUriReference(t[..end])
      && ReadParameters(url, t[end + 1..], None).Success?
      && var r := ReadParameters(url, t[end + 1..], None).value;
         ReadLink(url, s).value ==
           Parsed(ParsedLink(t[..end], if r.value.Some? then r.value.value else {}), r.rest)
  {
  }

  lemma {:induction false} LinkForm(url: Accepts, s: string) returns (l: Link)
    requires ReadLink(url, s).Success?
    ensures LegalLink(url, l) && s == PrintLink(l, ReadLink(url, s).value.rest)
    ensures Meaning(url, l) == ReadLink(url, s).value.value
  {
    ReadLinkParts(url, s);
    var before, target, tail := TargetForm(s);
    var ps, after := ParametersForm(url, tail, None);
    l := Link(before, target, ps, after);
  }

  lemma {:induction false} RestIsTrimmed(url: Accepts, s: string, so: Option<set<string>>)
    requires ReadParameters(url, s, so).Success?
    ensures SkipBlanks(ReadParameters(url, s, so).value.rest) == ReadParameters(url, s, so).value.rest
    decreases |s|
  {
    SkipTwice(s);
    var t := SkipBlanks(s);
    if StartsWith(t, ';') {
      var u := SkipBlanks(t[1..]);
      var v := ReadValue(u[TokenLength(u)..]).value;
      if ToLower(u[..TokenLength(u)]) != "rel" {
        RestIsTrimmed(url, v.rest, so);
      } else {
        RestIsTrimmed(url, v.rest, Some(ParseRelations(url, v.value.value).value));
      }
    }
  }

  predicate AllLinksLegal(url: Accepts, ls: seq<Link>) {
    forall i :: 0 <= i < |ls| ==> LegalLink(url, ls[i])
  }

  /**
   The parser accepts exactly the texts that lists of legal links are printed as, and reads them as what was printed.
   */
  lemma {:induction false} ReadIffPrinted(url: Accepts, s: string, links: seq<ParsedLink>)
    ensures ReadLinks(url, s) == Success(links) <==>
      exists ls :: ls != [] && AllLinksLegal(url, ls) && PrintLinks(ls) == s && Meanings(url, ls) == links
  {
    if ReadLinks(url, s) == Success(links) {
      var ls := LinksForm(url, s);
    }
    if ls :| ls != [] && AllLinksLegal(url, ls) && PrintLinks(ls) == s && Meanings(url, ls) == links {
      LinksReadBack(url, ls);
    }
  }

  /** What reading all links comes to after the first. */
  lemma {:induction false} ReadLinksParts(url: Accepts, s: string)
    requires ReadLinks(url, s).Success?
    ensures ReadLink(url, s).Success?
    ensures var link := ReadLink(url, s).value;
      if link.rest == [] then ReadLinks(url, s).value == [link.value]
      else
        && link.rest[0] == ',' && ReadLinks(url, link.rest[1..]).Success?
        && ReadLinks(url, s).value == [link.value] + ReadLinks(url, link.rest[1..]).value
  {
    LinkRestIsTrimmed(url, s);
  }

  lemma {:induction false} MoreLinks(url: Accepts, l: Link, more: seq<Link>)
    requires LegalLink(url, l) && AllLinksLegal(url, more) && more != []
    ensures AllLinksLegal(url, [l] + more) && PrintLinks([l] + more) == PrintLink(l, [','] + PrintLinks(more))
    ensures Meanings(url, [l] + more) == [Meaning(url, l)] + Meanings(url, more)
  {
    assert ([l] + more)[1..] == more;
  }

  lemma {:induction false} OneLink(url: Accepts, l: Link)
    requires LegalLink(url, l)
    ensures Meanings(url, [l]) == [Meaning(url, l)]
  {
    assert [l][1..] == [];
  }

  /** The links print the text and mean what was read. */
  predicate AreForm(url: Accepts, s: string, ls: seq<Link>) {
    ls != [] && AllLinksLegal(url, ls) && PrintLinks(ls) == s && ReadLinks(url, s) == Success(Meanings(url, ls))
  }

  lemma {:induction false} FormOfMore(url: Accepts, s: string, l: Link, more: seq<Link>)
    requires ReadLinks(url, s).Success? && ReadLink(url, s).Success? && ReadLink(url, s).value.rest != []
    requires LegalLink(url, l) && s == PrintLink(l, ReadLink(url, s).value.rest)
    requires Meaning(url, l) == ReadLink(url, s).value.value
    requires AreForm(url, ReadLink(url, s).value.rest[1..], more)
    ensures AreForm(url, s, [l] + more)
  {
    ReadLinksParts(url, s);
    MoreLinks(url, l, more);
    var rest := ReadLink(url, s).value.rest;
    FirstAndRest(rest);
  }

  lemma {:induction false} LinksForm(url: Accepts, s: string) returns (ls: seq<Link>)
    requires ReadLinks(url, s).Success?
    ensures AreForm(url, s, ls)
    decreases |s|
  {
    ReadLinksParts(url, s);
    var l := LinkForm(url, s);
    var rest := ReadLink(url, s).value.rest;
    if rest == [] {
      ls := [l];
      OneLink(url, l);
    } else {
      var more := LinksForm(url, rest[1..]);
      ls := [l] + more;
      FormOfMore(url, s, l, more);
    }
  }

  lemma {:induction false} LinkRestIsTrimmed(url: Accepts, s: string)
    requires ReadLink(url, s).Success?
    ensures SkipBlanks(ReadLink(url, s).value.rest) == ReadLink(url, s).value.rest
  {
    var t := SkipBlanks(s);
    RestIsTrimmed(url, t[1..][IndexOf(t[1..], '>') + 1..], None);
  }

  // ----- Relation types, with any number of spaces between them

  function Spaces(n: nat): string {
    seq(n, _ => ' ')
  }

  function Spaced(words: seq<string>, gaps: seq<nat>): string
    requires |words| == |gaps| + 1
  {
    if gaps == [] then words[0] else words[0] + (Spaces(gaps[0] + 1) + Spaced(words[1..], gaps[1..]))
  }

  predicate IsPlainWord(w: string) {
    w != [] && ' ' !in w && '\t' !in w
  }

  lemma {:induction false} SpacesSkipped(n: nat, s: string)
    requires s == [] || s[0] != ' '
    ensures SkipSpaces(Spaces(n) + s) == s
  {
    if n == 0 {
      assert Spaces(n) + s == s;
    } else {
      SpacesSkipped(n - 1, s);
      assert (Spaces(n) + s)[1..] == Spaces(n - 1) + s;
    }
  }

  lemma {:induction false} SpacesSplit(s: string) returns (n: nat)
    ensures s == Spaces(n) + SkipSpaces(s) && !StartsWith(SkipSpaces(s), ' ')
    ensures StartsWith(s, ' ') ==> n > 0
  {
    if StartsWith(s, ' ') {
      var m := SpacesSplit(s[1..]);
      n := m + 1;
      FirstAndRest(s);
      assert Spaces(n) == [' '] + Spaces(m);
      assert Spaces(n) + SkipSpaces(s) == [' '] + (Spaces(m) + SkipSpaces(s[1..]));
    } else {
      n := 0;
      assert Spaces(0) + s == s;
    }
  }

  lemma {:induction false} SpacedStarts(words: seq<string>, gaps: seq<nat>)
    requires |words| == |gaps| + 1 && forall i :: 0 <= i < |words| ==> IsPlainWord(words[i])
    ensures var v := Spaced(words, gaps); v != [] && !IsBlank(v[0]) && !IsBlank(v[|v| - 1]) && '\t' !in v
  {
    WordEnd(words[0], words[0][0]);
    WordEnd(words[0], words[0][|words[0]| - 1]);
    if gaps != [] {
      SpacedStarts(words[1..], gaps[1..]);
      var rest := Spaced(words[1..], gaps[1..]);
      assert Spaced(words, gaps) == words[0] + (Spaces(gaps[0] + 1) + rest);
      assert '\t' !in Spaces(gaps[0] + 1);
    }
  }

  lemma {:induction false} SpacedSplit(words: seq<string>, gaps: seq<nat>)
    requires |words| == |gaps| + 1 && forall i :: 0 <= i < |words| ==> IsPlainWord(words[i])
    ensures SplitOnSpaces(Spaced(words, gaps)) == words
  {
    var w := words[0];
    if gaps == [] {
      assert w + [] == w;
      WordEnds(w, []);
    } else {
      var rest := Spaced(words[1..], gaps[1..]);
      var tail := Spaces(gaps[0] + 1) + rest;
      assert tail[0] == ' ';
      WordEnds(w, tail);
      SpacedSplit(words[1..], gaps[1..]);
      SpacedStarts(words[1..], gaps[1..]);
      SpacesSkipped(gaps[0] + 1, rest);
    }
  }

  lemma {:induction false} SplitForm(s: string) returns (gaps: seq<nat>)
    requires s != [] && s[|s| - 1] != ' '
    ensures |SplitOnSpaces(s)| == |gaps| + 1 && s == Spaced(SplitOnSpaces(s), gaps)
    decreases |s|
  {
    var n := WordLength(s);
    if n == |s| {
      gaps := [];
    } else {
      var k := SpacesSplit(s[n..]);
      var tail := SkipSpaces(s[n..]);
      SplitAt(s, n);
      LastStays(s, n, k, tail);
      var more := SplitForm(tail);
      gaps := [k - 1] + more;
      OneMoreGap(s[..n], SplitOnSpaces(tail), k - 1, more);
    }
  }

  lemma {:induction false} LastStays(s: string, n: nat, k: nat, tail: string)
    requires n <= |s| && s[n..] == Spaces(k) + tail && k > 0 && s[|s| - 1] != ' '
    ensures tail != [] && tail[|tail| - 1] == s[|s| - 1] && |tail| < |s|
  {
    var all := s[n..];
    assert all[|all| - 1] == s[|s| - 1];
  }

  lemma {:induction false} OneMoreGap(w: string, words: seq<string>, gap: nat, gaps: seq<nat>)
    requires |words| == |gaps| + 1
    ensures Spaced([w] + words, [gap] + gaps) == w + (Spaces(gap + 1) + Spaced(words, gaps))
  {
    assert ([w] + words)[1..] == words && ([gap] + gaps)[1..] == gaps;
  }

  /** Distinct relation types with one or more spaces between them. */
  predicate AreSpaced(url: Accepts, value: string, words: seq<string>, gaps: seq<nat>) {
    && |words| == |gaps| + 1 && Distinct(words) && (forall i :: 0 <= i < |words| ==> IsRelation(url, words[i]))
    && value == Spaced(words, gaps)
  }

  /** A value is read as relation types exactly if it is a list of distinct ones, and then as their set. */
  lemma {:induction false} RelationsIffSpaced(url: Accepts, value: string, relations: set<string>)
    ensures ParseRelations(url, value) == Success(relations) <==>
      exists words, gaps :: AreSpaced(url, value, words, gaps) && relations == SetOf(words)
  {
    if ParseRelations(url, value) == Success(relations) {
      var gaps := SplitForm(value);
      assert AreSpaced(url, value, SplitOnSpaces(value), gaps);
    }
    if words, gaps :| AreSpaced(url, value, words, gaps) && relations == SetOf(words) {
      forall i | 0 <= i < |words| ensures IsPlainWord(words[i]) {
        RelationHasNoBlank(url, words[i]);
      }
      SpacedStarts(words, gaps);
      SpacedSplit(words, gaps);
    }
  }
}
