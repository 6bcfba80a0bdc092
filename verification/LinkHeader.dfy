/** The Link header grammar and its parser (src/github/link-pagination.ts, section 3 of RFC 8288). */
module LinkHeader {
  import opened Common
  import Decimal

  datatype Parsed<T> = Parsed(value: T, rest: string)

  /** `rel` parameters as parsed so far: a link may have one. */
  datatype ParsedLink = ParsedLink(target: string, relations: set<string>)

  predicate IsBlank(c: char) { c == ' ' || c == '\t' }
  predicate IsLower(c: char) { 'a' <= c <= 'z' }
  predicate IsUpper(c: char) { 'A' <= c <= 'Z' }
  predicate IsDigit(c: char) { '0' <= c <= '9' }
  predicate IsHex(c: char) { IsDigit(c) || 'a' <= c <= 'f' || 'A' <= c <= 'F' }

  predicate IsTokenChar(c: char) {
    IsLower(c) || IsUpper(c) || IsDigit(c) || c in "!#$%&'*+-.^_`|~"
  }

  predicate IsUriChar(c: char) {
    IsLower(c) || IsUpper(c) || IsDigit(c) || c in "-._~!$&'()*+,;=:%@/?#[]"
  }

  predicate IsQuotedText(c: char, escaped: bool) {
    if escaped then c == '\t' || ' ' <= c <= '~' || 128 as char <= c <= 255 as char
    else c == '\t' || c == ' ' || c == '!' || '#' <= c <= '[' || ']' <= c <= '~' || 128 as char <= c <= 255 as char
  }

  predicate IsUriReference(s: string) {
    && (forall i :: 0 <= i < |s| ==> IsUriChar(s[i]))
    && (forall i :: 0 <= i < |s| && s[i] == '%' ==> i + 2 < |s| && IsHex(s[i + 1]) && IsHex(s[i + 2]))
  }

  // ----- The parser, on what is left of the header

  function SkipBlanks(s: string): (r: string)
    ensures |r| <= |s| && (r != [] ==> !IsBlank(r[0]))
  {
    if s != [] && IsBlank(s[0]) then SkipBlanks(s[1..]) else s
  }

  function TokenLength(s: string): (n: nat)
    ensures n <= |s| && forall i :: 0 <= i < n ==> IsTokenChar(s[i])
    ensures n < |s| ==> !IsTokenChar(s[n])
  {
    if s != [] && IsTokenChar(s[0]) then 1 + TokenLength(s[1..]) else 0
  }

  predicate StartsWith(s: string, c: char) {
    s != [] && s[0] == c
  }

  /** After the opening quote. */
  function ReadQuoted(s: string): (r: Result<Parsed<string>>)
    ensures r.Success? ==> |r.value.rest| < |s|
  {
    if s == [] then Failure
    else if s[0] == '"' then Success(Parsed([], s[1..]))
    else if s[0] == '\\' then
      if |s| < 2 || !IsQuotedText(s[1], true) then Failure else Prepend(s[1], ReadQuoted(s[2..]))
    else if !IsQuotedText(s[0], false) then Failure
    else Prepend(s[0], ReadQuoted(s[1..]))
  }

  function Prepend(c: char, r: Result<Parsed<string>>): Result<Parsed<string>> {
    if r == Failure then Failure else Success(Parsed([c] + r.value.value, r.value.rest))
  }

  function ToLower(s: string): (r: string)
    ensures |r| == |s|
  {
    seq(|s|, i requires 0 <= i < |s| => if IsUpper(s[i]) then s[i] + 32 as char else s[i])
  }

  /** After the name: nothing, or an equals sign and a token or quoted string. */
  function ReadValue(s: string): (r: Result<Parsed<Option<string>>>)
    ensures r.Success? ==> |r.value.rest| <= |s|
  {
    if !StartsWith(SkipBlanks(s), '=') then Success(Parsed(None, SkipBlanks(s)))
    else
      var t := SkipBlanks(SkipBlanks(s)[1..]);
      if StartsWith(t, '"') then
        var q := ReadQuoted(t[1..]);
        if q == Failure then Failure else Success(Parsed(Some(q.value.value), q.value.rest))
      else if TokenLength(t) == 0 then Failure
      else Success(Parsed(Some(t[..TokenLength(t)]), t[TokenLength(t)..]))
  }

  // ----- Relation types

  function SplitOnSpaces(s: string): seq<string>
    decreases |s|
  {
    var n := WordLength(s);
    if n == |s| then [s] else [s[..n]] + SplitOnSpaces(SkipSpaces(s[n..]))
  }

  function WordLength(s: string): (n: nat)
    ensures n <= |s| && (n < |s| ==> s[n] == ' ')
    ensures forall i :: 0 <= i < n ==> s[i] != ' '
  {
    if s == [] || s[0] == ' ' then 0 else 1 + WordLength(s[1..])
  }

  function SkipSpaces(s: string): (r: string)
    ensures |r| <= |s| && (StartsWith(s, ' ') ==> |r| < |s|)
  {
    if StartsWith(s, ' ') then SkipSpaces(s[1..]) else s
  }

  predicate IsRegistered(s: string) {
    s != [] && IsLower(s[0]) && forall i :: 0 < i < |s| ==> IsLower(s[i]) || IsDigit(s[i]) || s[i] == '.' || s[i] == '-'
  }

  /** Whether the URL constructor accepts a nonempty text as an absolute URL; it refuses the empty one. */
  type Accepts = string -> bool

  predicate IsRelation(url: Accepts, s: string) {
    IsRegistered(s) || (IsUriReference(s) && s != "" && url(s))
  }

  predicate Distinct(words: seq<string>) {
    forall i, j :: 0 <= i < j < |words| ==> words[i] != words[j]
  }

  function SetOf(words: seq<string>): set<string> {
    set i | 0 <= i < |words| :: words[i]
  }

  function ParseRelations(url: Accepts, value: string): Result<set<string>> {
    if value == [] || IsBlank(value[0]) || IsBlank(value[|value| - 1]) || '\t' in value then Failure
    else
      var words := SplitOnSpaces(value);
      if (forall i :: 0 <= i < |words| ==> IsRelation(url, words[i])) && Distinct(words) then Success(SetOf(words))
        else Failure
  }

  // ----- Parameters and links

  function ReadParameters(url: Accepts, s: string,
    relations: Option<set<string>>): (r: Result<Parsed<Option<set<string>>>>)
    ensures r.Success? ==> |r.value.rest| <= |s|
    decreases |s|
  {
    var t := SkipBlanks(s);
    if !StartsWith(t, ';') then Success(Parsed(relations, t))
    else
      var u := SkipBlanks(t[1..]);
      var n := TokenLength(u);
      if n == 0 then Failure
      else
        var v := ReadValue(u[n..]);
        if v == Failure then Failure
        else if ToLower(u[..n]) != "rel" then ReadParameters(url, v.value.rest, relations)
        else if relations.Some? || v.value.value == None then Failure
        else
          var parsed := ParseRelations(url, v.value.value.value);
          if parsed == Failure then Failure else ReadParameters(url, v.value.rest, Some(parsed.value))
  }

  function IndexOf(s: string, c: char): (i: int)
    ensures -1 <= i < |s|
    ensures i >= 0 ==> s[i] == c && forall k :: 0 <= k < i ==> s[k] != c
    ensures i < 0 ==> c !in s
  {
    if s == [] then -1
    else if s[0] == c then 0
    else
      var rest := IndexOf(s[1..], c);
      if rest < 0 then -1 else rest + 1
  }

  function ReadLink(url: Accepts, s: string): (r: Result<Parsed<ParsedLink>>)
    ensures r.Success? ==> |r.value.rest| < |s|
  {
    var t := SkipBlanks(s);
    if !StartsWith(t, '<') then Failure
    else
      var end := IndexOf(t[1..], '>');
      if end < 0 || !IsUriReference(t[1..][..end]) then Failure
      else
        var parameters := ReadParameters(url, t[1..][end + 1..], None);
        if parameters == Failure then Failure
        else
          var relations := parameters.value.value;
          Success(Parsed(ParsedLink(t[1..][..end], if relations.Some? then relations.value else {}),
            parameters.value.rest))
  }

  /** `parseLinkHeader`: every link shortens what is left, so it always ends. */
  function ReadLinks(url: Accepts, s: string): Result<seq<ParsedLink>>
    decreases |s|, 1
  {
    if s == [] then Failure
    else
      var link := ReadLink(url, s);
      if link == Failure then Failure else AfterLink(url, link.value.value, link.value.rest)
  }

  /** The end, or a comma with something behind it. */
  function AfterLink(url: Accepts, link: ParsedLink, rest: string): Result<seq<ParsedLink>>
    decreases |rest|, 2
  {
    var s := SkipBlanks(rest);
    if s == [] then Success([link])
    else if s[0] != ',' || SkipBlanks(s[1..]) == [] then Failure
    else Continued([link], ReadLinks(url, s[1..]))
  }

  function Continued(done: seq<ParsedLink>, r: Result<seq<ParsedLink>>): Result<seq<ParsedLink>> {
    if r == Failure then Failure else Success(done + r.value)
  }

  // ----- Printing

  datatype QuotedChar = QuotedChar(c: char, escaped: bool)

  datatype Value = NoValue | Token(token: string) | Quotation(chars: seq<QuotedChar>)

  /** Optional whitespace may stand before and after the semicolon and the equals sign. */
  datatype Parameter = Parameter(beforeName: string, name: string, beforeEquals: string, afterEquals: string,
    value: Value,
                                 beforeSemicolon: string)

  datatype Link = Link(before: string, target: string, parameters: seq<Parameter>, after: string)

  predicate AllBlank(s: string) {
    forall i :: 0 <= i < |s| ==> IsBlank(s[i])
  }

  predicate IsToken(s: string) {
    s != [] && forall i :: 0 <= i < |s| ==> IsTokenChar(s[i])
  }

  // Each printer writes in front of what follows.

  function PrintQuoted(cs: seq<QuotedChar>, rest: string): string {
    if cs == [] then ['"'] + rest
    else if cs[0].escaped then ['\\', cs[0].c] + PrintQuoted(cs[1..], rest)
    else [cs[0].c] + PrintQuoted(cs[1..], rest)
  }

  function QuotedContent(cs: seq<QuotedChar>): string {
    seq(|cs|, i requires 0 <= i < |cs| => cs[i].c)
  }

  predicate LegalQuoted(cs: seq<QuotedChar>) {
    forall i :: 0 <= i < |cs| ==> IsQuotedText(cs[i].c, cs[i].escaped)
  }

  function PrintEquals(p: Parameter, rest: string): string {
    p.beforeEquals + (['='] + (p.afterEquals + rest))
  }

  function PrintValue(p: Parameter, rest: string): string {
    match p.value
    case NoValue => rest
    case Token(t) => PrintEquals(p, t + rest)
    case Quotation(cs) => PrintEquals(p, ['"'] + PrintQuoted(cs, rest))
  }

  function ValueOf(p: Parameter): Option<string> {
    match p.value case NoValue => None case Token(t) => Some(t) case Quotation(cs) => Some(QuotedContent(cs))
  }

  function PrintParameter(p: Parameter, rest: string): string {
    p.beforeSemicolon + ([';'] + (p.beforeName + (p.name + PrintValue(p, rest))))
  }

  function PrintParameters(ps: seq<Parameter>, rest: string): string {
    if ps == [] then rest else PrintParameter(ps[0], PrintParameters(ps[1..], rest))
  }

  function PrintLink(l: Link, rest: string): string {
    l.before + (['<'] + (l.target + (['>'] + PrintParameters(l.parameters, l.after + rest))))
  }

  function PrintLinks(ls: seq<Link>): string
    requires ls != []
  {
    if |ls| == 1 then PrintLink(ls[0], []) else PrintLink(ls[0], [','] + PrintLinks(ls[1..]))
  }

  predicate IsRel(p: Parameter) {
    ToLower(p.name) == "rel"
  }

  predicate LegalParameter(url: Accepts, p: Parameter) {
    && AllBlank(p.beforeName) && AllBlank(p.beforeEquals) && AllBlank(p.afterEquals) && AllBlank(p.beforeSemicolon)
    && IsToken(p.name)
    && (match p.value case NoValue => true case Token(t) => IsToken(t) case Quotation(cs) => LegalQuoted(cs))
    && (IsRel(p) ==> ValueOf(p).Some? && ParseRelations(url, ValueOf(p).value).Success?)
  }

  /** The relations the parameters give, if no second `rel` follows. */
  function Relations(url: Accepts, ps: seq<Parameter>, so: Option<set<string>>): Option<set<string>>
    requires forall i :: 0 <= i < |ps| ==> LegalParameter(url, ps[i])
  {
    if ps == [] then so
    else
      assert LegalParameter(url, ps[0]);
      Relations(url, ps[1..], if IsRel(ps[0]) then Some(ParseRelations(url, ValueOf(ps[0]).value).value) else so)
  }

  predicate AtMostOneRel(ps: seq<Parameter>) {
    forall i, j :: 0 <= i < j < |ps| ==> !(IsRel(ps[i]) && IsRel(ps[j]))
  }

  predicate LegalLink(url: Accepts, l: Link) {
    && AllBlank(l.before) && AllBlank(l.after) && IsUriReference(l.target)
    && (forall i :: 0 <= i < |l.parameters| ==> LegalParameter(url, l.parameters[i]))
    && AtMostOneRel(l.parameters)
  }

  function Meaning(url: Accepts, l: Link): ParsedLink
    requires LegalLink(url, l)
  {
    var relations := Relations(url, l.parameters, None);
    ParsedLink(l.target, if relations.Some? then relations.value else {})
  }

  // ----- Reading back what was printed

  lemma {:induction false} BlanksSkipped(b: string, s: string)
    requires AllBlank(b)
    ensures SkipBlanks(b + s) == SkipBlanks(s)
  {
    if b == [] {
      assert b + s == s;
    } else {
      assert (b + s)[1..] == b[1..] + s;
      BlanksSkipped(b[1..], s);
    }
  }

  lemma {:induction false} TokenEnds(t: string, s: string)
    requires (forall i :: 0 <= i < |t| ==> IsTokenChar(t[i])) && (s == [] || !IsTokenChar(s[0]))
    ensures TokenLength(t + s) == |t| && (t + s)[..|t|] == t && (t + s)[|t|..] == s
  {
    if t == [] {
      assert t + s == s;
    } else {
      assert (t + s)[1..] == t[1..] + s;
      TokenEnds(t[1..], s);
    }
  }

  lemma {:induction false} QuotedReadBack(cs: seq<QuotedChar>, s: string)
    requires LegalQuoted(cs)
    ensures ReadQuoted(PrintQuoted(cs, s)) == Success(Parsed(QuotedContent(cs), s))
  {
    if cs == [] {
      assert QuotedContent(cs) == [];
    } else {
      QuotedReadBack(cs[1..], s);
      assert QuotedContent(cs) == [cs[0].c] + QuotedContent(cs[1..]);
    }
  }

  /** What may follow a parameter: blanks, then a semicolon, a comma or the end. */
  predicate Boundary(s: string) {
    && (s == [] || IsBlank(s[0]) || s[0] == ';' || s[0] == ',')
    && (SkipBlanks(s) == [] || SkipBlanks(s)[0] == ';' || SkipBlanks(s)[0] == ',')
  }

  lemma {:induction false} SkipTwice(s: string)
    ensures SkipBlanks(SkipBlanks(s)) == SkipBlanks(s)
  {
    if s != [] && IsBlank(s[0]) {
      SkipTwice(s[1..]);
    }
  }

  lemma {:induction false} NothingToSkip(s: string)
    requires s != [] && !IsBlank(s[0])
    ensures SkipBlanks(s) == s
  {
  }

  lemma {:induction false} EqualsRead(p: Parameter, after: string)
    requires AllBlank(p.beforeEquals) && AllBlank(p.afterEquals) && after != [] && !IsBlank(after[0])
    ensures StartsWith(SkipBlanks(PrintEquals(p, after)), '=')
    ensures SkipBlanks(SkipBlanks(PrintEquals(p, after))[1..]) == after
  {
    var rest := p.afterEquals + after;
    BlanksSkipped(p.beforeEquals, ['='] + rest);
    NothingToSkip(['='] + rest);
    assert (['='] + rest)[1..] == rest;
    BlanksSkipped(p.afterEquals, after);
    NothingToSkip(after);
  }

  lemma {:induction false} ValueReadBack(url: Accepts, p: Parameter, s: string)
    requires LegalParameter(url, p) && Boundary(s)
    ensures var r := ReadValue(PrintValue(p, s));
      r.Success? && r.value.value == ValueOf(p) && SkipBlanks(r.value.rest) == SkipBlanks(s)
  {
    match p.value
    case NoValue => SkipTwice(s);
    case Token(t) => TokenReadBack(p, t, s);
    case Quotation(cs) => QuotationReadBack(p, cs, s);
  }

  lemma {:induction false} TokenReadBack(p: Parameter, t: string, s: string)
    requires AllBlank(p.beforeEquals) && AllBlank(p.afterEquals) && IsToken(t) && (s == [] || !IsTokenChar(s[0]))
    ensures ReadValue(PrintEquals(p, t + s)) == Success(Parsed(Some(t), s))
  {
    var after := t + s;
    assert after[0] == t[0] && IsTokenChar(t[0]);
    EqualsRead(p, after);
    TokenEnds(t, s);
  }

  lemma {:induction false} QuotationReadBack(p: Parameter, cs: seq<QuotedChar>, s: string)
    requires AllBlank(p.beforeEquals) && AllBlank(p.afterEquals) && LegalQuoted(cs)
    ensures ReadValue(PrintEquals(p, ['"'] + PrintQuoted(cs, s))) == Success(Parsed(Some(QuotedContent(cs)), s))
  {
    var after := ['"'] + PrintQuoted(cs, s);
    EqualsRead(p, after);
    assert after[1..] == PrintQuoted(cs, s);
    QuotedReadBack(cs, s);
  }

  lemma {:induction false} BoundaryBefore(b: string, c: char, tail: string)
    requires AllBlank(b) && (c == ';' || c == ',')
    ensures Boundary(b + ([c] + tail)) && SkipBlanks(b + ([c] + tail)) == [c] + tail
  {
    BlanksSkipped(b, [c] + tail);
    NothingToSkip([c] + tail);
    if b != [] {
      assert (b + ([c] + tail))[0] == b[0];
    } else {
      assert b + ([c] + tail) == [c] + tail;
    }
  }

  lemma {:induction false} BoundaryOfParameters(url: Accepts, ps: seq<Parameter>, s: string)
    requires (forall i :: 0 <= i < |ps| ==> LegalParameter(url, ps[i])) && Boundary(s)
    ensures Boundary(PrintParameters(ps, s))
  {
    if ps != [] {
      var p, rest := ps[0], PrintParameters(ps[1..], s);
      assert LegalParameter(url, p);
      BoundaryBefore(p.beforeSemicolon, ';', p.beforeName + (p.name + PrintValue(p, rest)));
    }
  }

  lemma {:induction false} ValueStart(url: Accepts, p: Parameter, s: string)
    requires LegalParameter(url, p) && Boundary(s)
    ensures PrintValue(p, s) == [] || !IsTokenChar(PrintValue(p, s)[0])
  {
    match p.value
    case NoValue =>
    case Token(t) => EqualsStart(p, t + s);
    case Quotation(cs) => EqualsStart(p, ['"'] + PrintQuoted(cs, s));
  }

  lemma {:induction false} EqualsStart(p: Parameter, after: string)
    requires AllBlank(p.beforeEquals)
    ensures PrintEquals(p, after) != [] && !IsTokenChar(PrintEquals(p, after)[0])
  {
    if p.beforeEquals != [] {
      assert PrintEquals(p, after)[0] == p.beforeEquals[0];
    }
  }

  /** One printed parameter, read up to its value. */
  lemma {:induction false} ParameterReadBack(url: Accepts, p: Parameter, s: string)
    requires LegalParameter(url, p) && Boundary(s)
    ensures var t := SkipBlanks(PrintParameter(p, s));
      && StartsWith(t, ';')
      && var u := SkipBlanks(t[1..]);
         TokenLength(u) == |p.name| && u[..|p.name|] == p.name && u[|p.name|..] == PrintValue(p, s)
  {
    var named := p.name + PrintValue(p, s);
    BoundaryBefore(p.beforeSemicolon, ';', p.beforeName + named);
    assert ([';'] + (p.beforeName + named))[1..] == p.beforeName + named;
    BlanksSkipped(p.beforeName, named);
    assert named[0] == p.name[0] && IsTokenChar(p.name[0]);
    NothingToSkip(named);
    ValueStart(url, p, s);
    TokenEnds(p.name, PrintValue(p, s));
  }

  predicate NoSecondRel(ps: seq<Parameter>, so: Option<set<string>>) {
    AtMostOneRel(ps) && (so.Some? ==> forall i :: 0 <= i < |ps| ==> !IsRel(ps[i]))
  }

  lemma {:induction false} SkippedParameters(url: Accepts, s: string, t: string, so: Option<set<string>>)
    requires SkipBlanks(s) == SkipBlanks(t)
    ensures ReadParameters(url, s, so) == ReadParameters(url, t, so)
  {
  }

  function NextRelations(url: Accepts, p: Parameter, so: Option<set<string>>): Option<set<string>>
    requires LegalParameter(url, p)
  {
    if IsRel(p) then Some(ParseRelations(url, ValueOf(p).value).value) else so
  }

  lemma {:induction false} NextParameter(url: Accepts, p: Parameter, rest: string, so: Option<set<string>>)
    requires LegalParameter(url, p) && Boundary(rest) && (IsRel(p) ==> so == None)
    ensures ReadParameters(url, PrintParameter(p, rest), so) == ReadParameters(url, rest, NextRelations(url, p, so))
  {
    ParameterReadBack(url, p, rest);
    ValueReadBack(url, p, rest);
    SkippedParameters(url, ReadValue(PrintValue(p, rest)).value.rest, rest, NextRelations(url, p, so));
  }

  lemma {:induction false} ParametersReadBack(url: Accepts, ps: seq<Parameter>, s: string, so: Option<set<string>>)
    requires (forall i :: 0 <= i < |ps| ==> LegalParameter(url, ps[i])) && NoSecondRel(ps, so)
    requires Boundary(s) && !StartsWith(SkipBlanks(s), ';')
    ensures ReadParameters(url, PrintParameters(ps, s), so) == Success(Parsed(Relations(url, ps, so), SkipBlanks(s)))
  {
    if ps != [] {
      assert LegalParameter(url, ps[0]);
      BoundaryOfParameters(url, ps[1..], s);
      NextParameter(url, ps[0], PrintParameters(ps[1..], s), so);
      ParametersReadBack(url, ps[1..], s, NextRelations(url, ps[0], so));
    }
  }

  lemma {:induction false} IndexAfter(t: string, c: char, s: string)
    requires c !in t
    ensures IndexOf(t + ([c] + s), c) == |t|
    ensures (t + ([c] + s))[..|t|] == t && (t + ([c] + s))[|t| + 1..] == s
  {
    var text := t + ([c] + s);
    assert text[|t|] == c;
    assert forall k :: 0 <= k < |t| ==> text[k] == t[k] != c;
    assert IndexOf(text, c) == |t|;
  }

  lemma {:induction false} LinkReadBack(url: Accepts, l: Link, s: string)
    requires LegalLink(url, l) && (s == [] || s[0] == ',')
    ensures ReadLink(url, PrintLink(l, s)) == Success(Parsed(Meaning(url, l), s))
  {
    var tail := PrintParameters(l.parameters, l.after + s);
    TargetReadBack(l.before, l.target, tail);
    EndIsBoundary(l.after, s);
    ParametersReadBack(url, l.parameters, l.after + s, None);
  }

  lemma {:induction false} TargetReadBack(before: string, target: string, tail: string)
    requires AllBlank(before) && IsUriReference(target)
    ensures var t := SkipBlanks(before + (['<'] + (target + (['>'] + tail))));
      && StartsWith(t, '<') && IndexOf(t[1..], '>') == |target|
      && t[1..][..|target|] == target && t[1..][|target| + 1..] == tail
  {
    var inner := target + (['>'] + tail);
    BlanksSkipped(before, ['<'] + inner);
    NothingToSkip(['<'] + inner);
    assert (['<'] + inner)[1..] == inner;
    IndexAfter(target, '>', tail);
  }

  lemma {:induction false} EndIsBoundary(b: string, s: string)
    requires AllBlank(b) && (s == [] || s[0] == ',')
    ensures Boundary(b + s) && SkipBlanks(b + s) == s
  {
    BlanksSkipped(b, s);
    if b != [] {
      assert (b + s)[0] == b[0];
    } else {
      assert b + s == s;
    }
  }

  function Meanings(url: Accepts, ls: seq<Link>): seq<ParsedLink>
    requires forall i :: 0 <= i < |ls| ==> LegalLink(url, ls[i])
  {
    if ls == [] then [] else [Meaning(url, ls[0])] + Meanings(url, ls[1..])
  }

  lemma {:induction false} LinkStarts(l: Link, s: string)
    requires AllBlank(l.before)
    ensures SkipBlanks(PrintLink(l, s)) != []
  {
    BlanksSkipped(l.before, ['<'] + (l.target + (['>'] + PrintParameters(l.parameters, l.after + s))));
  }

  lemma {:induction false} NextLink(url: Accepts, l: Link, more: string)
    requires LegalLink(url, l) && SkipBlanks(more) != []
    ensures ReadLinks(url, PrintLink(l, [','] + more)) ==
      if ReadLinks(url, more) == Failure then Failure else Success([Meaning(url, l)] + ReadLinks(url, more).value)
  {
    LinkReadBack(url, l, [','] + more);
    LinkStarts(l, [','] + more);
    NothingToSkip([','] + more);
    assert ([','] + more)[1..] == more;
  }

  lemma {:induction false} OnlyLink(url: Accepts, l: Link)
    requires LegalLink(url, l)
    ensures ReadLinks(url, PrintLink(l, [])) == Success([Meaning(url, l)])
  {
    LinkReadBack(url, l, []);
    LinkStarts(l, []);
  }

  /** The parser undoes every way of printing every list of legal links. */
  lemma {:induction false} LinksReadBack(url: Accepts, ls: seq<Link>)
    requires ls != [] && forall i :: 0 <= i < |ls| ==> LegalLink(url, ls[i])
    ensures ReadLinks(url, PrintLinks(ls)) == Success(Meanings(url, ls)) && SkipBlanks(PrintLinks(ls)) != []
  {
    if |ls| == 1 {
      LinkStarts(ls[0], []);
      OnlyLink(url, ls[0]);
      assert Meanings(url, ls[1..]) == [];
      assert Meanings(url, ls) == [Meaning(url, ls[0])];
    } else {
      forall i | 0 <= i < |ls| - 1 ensures LegalLink(url, ls[1..][i]) {
        assert LegalLink(url, ls[i + 1]);
      }
      LinksReadBack(url, ls[1..]);
      LinkStarts(ls[0], [','] + PrintLinks(ls[1..]));
      NextLink(url, ls[0], PrintLinks(ls[1..]));
    }
  }

  // ----- Relation sets

  function JoinWords(words: seq<string>): string
    requires words != []
  {
    if |words| == 1 then words[0] else words[0] + ([' '] + JoinWords(words[1..]))
  }

  lemma {:induction false} RelationHasNoBlank(url: Accepts, w: string)
    requires IsRelation(url, w)
    ensures w != [] && ' ' !in w && '\t' !in w
  {
    forall i | 0 <= i < |w| ensures IsUriChar(w[i]) {
      if IsRegistered(w) && i > 0 {
        assert IsLower(w[i]) || IsDigit(w[i]) || w[i] == '.' || w[i] == '-';
      }
    }
    assert !IsUriChar(' ') && !IsUriChar('\t');
  }

  lemma {:induction false} WordEnds(w: string, s: string)
    requires ' ' !in w && (s == [] || s[0] == ' ')
    ensures WordLength(w + s) == |w| && (w + s)[|w|..] == s && (w + s)[..|w|] == w
  {
    if w == [] {
      assert w + s == s;
    } else {
      assert (w + s)[1..] == w[1..] + s;
      WordEnds(w[1..], s);
    }
  }

  lemma {:induction false} JoinedSplit(words: seq<string>)
    requires words != [] && forall i :: 0 <= i < |words| ==> words[i] != [] && ' ' !in words[i]
    ensures SplitOnSpaces(JoinWords(words)) == words
    ensures JoinWords(words) != [] && JoinWords(words)[0] != ' '
  {
    var w := words[0];
    if |words| == 1 {
      assert w + [] == w;
      WordEnds(w, []);
    } else {
      var rest := JoinWords(words[1..]);
      WordEnds(w, [' '] + rest);
      JoinedSplit(words[1..]);
      assert ([' '] + rest)[1..] == rest;
      assert SkipSpaces([' '] + rest) == SkipSpaces(rest) == rest;
      assert JoinWords(words)[0] == w[0];
    }
  }

  lemma {:induction false} WordEnd(word: string, c: char)
    requires c in word && ' ' !in word && '\t' !in word
    ensures !IsBlank(c)
  {
  }

  lemma {:induction false} EndsOfJoined(a: string, b: string)
    requires a != [] && b != []
    ensures var v := a + [' '] + b;
      v[0] == a[0] && v[|v| - 1] == b[|b| - 1] && ('\t' in v <==> '\t' in a || '\t' in b)
  {
  }

  lemma {:induction false} JoinedEnds(words: seq<string>)
    requires words != [] && forall i :: 0 <= i < |words| ==> words[i] != [] && ' ' !in words[i] && '\t' !in words[i]
    ensures var v := JoinWords(words); v != [] && !IsBlank(v[0]) && !IsBlank(v[|v| - 1]) && '\t' !in v
  {
    WordEnd(words[0], words[0][0]);
    WordEnd(words[0], words[0][|words[0]| - 1]);
    if |words| > 1 {
      JoinedEnds(words[1..]);
      EndsOfJoined(words[0], JoinWords(words[1..]));
    }
  }

  /** Distinct relation types joined by spaces are read back as their set. */
  lemma {:induction false} RelationsReadBack(url: Accepts, words: seq<string>)
    requires words != [] && Distinct(words) && forall i :: 0 <= i < |words| ==> IsRelation(url, words[i])
    ensures ParseRelations(url, JoinWords(words)) == Success(SetOf(words))
  {
    forall i | 0 <= i < |words| ensures words[i] != [] && ' ' !in words[i] && '\t' !in words[i] {
      RelationHasNoBlank(url, words[i]);
    }
    JoinedSplit(words);
    JoinedEnds(words);
  }

  // ----- The loops, on offsets into the header

  method SkipOptionalWhitespace(value: string, offset: nat) returns (next: nat)
    requires offset <= |value|
    ensures offset <= next <= |value| && value[next..] == SkipBlanks(value[offset..])
  {
    next := offset;
    while next < |value| && IsBlank(value[next])
      invariant offset <= next <= |value| && SkipBlanks(value[next..]) == SkipBlanks(value[offset..])
    {
      assert value[next..][1..] == value[next + 1..];
      next := next + 1;
    }
  }

  function Prefixed(text: string, r: Result<Parsed<string>>): Result<Parsed<string>> {
    if r == Failure then Failure else Success(Parsed(text + r.value.value, r.value.rest))
  }

  /** `readQuotedString` */
  method ReadQuotedString(value: string, openingQuote: nat) returns (r: Result<(string, nat)>)
    requires openingQuote < |value|
    ensures r.Success? <==> ReadQuoted(value[openingQuote + 1..]).Success?
    ensures r.Success? ==>
      && openingQuote + 1 < r.value.1 <= |value|
      && ReadQuoted(value[openingQuote + 1..]) == Success(Parsed(r.value.0, value[r.value.1..]))
  {
    var offset := openingQuote + 1;
    var result := "";
    NothingPrefixed(ReadQuoted(value[offset..]));
    while offset < |value|
      invariant openingQuote < offset <= |value|
      invariant ReadQuoted(value[openingQuote + 1..]) == Prefixed(result, ReadQuoted(value[offset..]))
    {
      var c := value[offset];
      assert value[offset..][1..] == value[offset + 1..];
      if c == '"' {
        assert result + [] == result;
        return Success((result, offset + 1));
      }
      if c == '\\' {
        if offset + 1 >= |value| || !IsQuotedText(value[offset + 1], true) {
          return Failure;
        }
        assert value[offset..][2..] == value[offset + 2..];
        PrefixedMore(result, value[offset + 1], ReadQuoted(value[offset + 2..]));
        result := result + [value[offset + 1]];
        offset := offset + 2;
        continue;
      }
      if !IsQuotedText(c, false) {
        return Failure;
      }
      PrefixedMore(result, c, ReadQuoted(value[offset + 1..]));
      result := result + [c];
      offset := offset + 1;
    }
    return Failure;
  }

  lemma {:induction false} NothingPrefixed(r: Result<Parsed<string>>)
    ensures Prefixed("", r) == r
  {
    if r.Success? {
      assert "" + r.value.value == r.value.value;
    }
  }

  lemma {:induction false} NothingDone(r: Result<seq<ParsedLink>>)
    ensures Continued([], r) == r
  {
    if r.Success? {
      assert [] + r.value == r.value;
    }
  }

  lemma {:induction false} PrefixedMore(text: string, c: char, r: Result<Parsed<string>>)
    ensures Prefixed(text, Prepend(c, r)) == Prefixed(text + [c], r)
  {
    if r.Success? {
      assert text + ([c] + r.value.value) == text + [c] + r.value.value;
    }
  }

  datatype Turn = Bad | Last(link: ParsedLink) | More(link: ParsedLink, offset: nat)

  /** What a turn found out about everything from its start on. */
  predicate TurnMeans(url: Accepts, turn: Turn, value: string, r: Result<seq<ParsedLink>>)
    requires turn.More? ==> turn.offset <= |value|
  {
    match turn
    case Bad => r == Failure
    case Last(link) => r == Success([link])
    case More(link, next) => r == Continued([link], ReadLinks(url, value[next..]))
  }

  method FinishTurn(url: Accepts, value: string, link: ParsedLink, after: nat) returns (turn: Turn)
    requires after <= |value|
    ensures turn.More? ==> after < turn.offset <= |value|
    ensures TurnMeans(url, turn, value, AfterLink(url, link, value[after..]))
  {
    var end := SkipOptionalWhitespace(value, after);
    if end == |value| {
      return Last(link);
    }
    if value[end] != ',' {
      return Bad;
    }
    assert value[end..][1..] == value[end + 1..];
    var next := SkipOptionalWhitespace(value, end + 1);
    turn := if next == |value| then Bad else More(link, end + 1);
  }

  /** One turn of the loop of `parseLinkHeader`. */
  method ReadTurn(url: Accepts, value: string, offset: nat) returns (turn: Turn)
    requires offset < |value|
    ensures turn.More? ==> offset < turn.offset <= |value|
    ensures TurnMeans(url, turn, value, ReadLinks(url, value[offset..]))
  {
    var link := ReadLink(url, value[offset..]);
    if link == Failure {
      return Bad;
    }
    RestIsOffset(url, value, offset);
    turn := FinishTurn(url, value, link.value.value, |value| - |link.value.rest|);
  }

  /** `parseLinkHeader`: the offset grows with every link. */
  method ParseLinkHeader(url: Accepts, value: string) returns (r: Result<seq<ParsedLink>>)
    ensures r == ReadLinks(url, value)
  {
    var links: seq<ParsedLink> := [];
    var offset := 0;
    assert value[0..] == value;
    NothingDone(ReadLinks(url, value));
    while offset < |value|
      invariant offset <= |value| && ReadLinks(url, value) == Continued(links, ReadLinks(url, value[offset..]))
    {
      var turn := ReadTurn(url, value, offset);
      match turn
      case Bad =>
        return Failure;
      case Last(link) =>
        return Success(links + [link]);
      case More(link, next) =>
        ContinuedMore(links, link, ReadLinks(url, value[next..]));
        links := links + [link];
        offset := next;
    }
    return Failure;
  }

  lemma {:induction false} RestIsOffset(url: Accepts, value: string, offset: nat)
    requires offset < |value| && ReadLink(url, value[offset..]).Success?
    ensures var rest := ReadLink(url, value[offset..]).value.rest;
      offset < |value| - |rest| && value[|value| - |rest|..] == rest
  {
    ReadLinkLeavesSuffix(url, value[offset..]);
  }

  lemma {:induction false} ContinuedMore(done: seq<ParsedLink>, link: ParsedLink, r: Result<seq<ParsedLink>>)
    ensures Continued(done, Continued([link], r)) == Continued(done + [link], r)
  {
    if r.Success? {
      assert done + ([link] + r.value) == done + [link] + r.value;
    }
  }

  predicate IsSuffix(r: string, s: string) {
    |r| <= |s| && s[|s| - |r|..] == r
  }

  lemma {:induction false} SuffixOfSuffix(a: string, b: string, c: string)
    requires IsSuffix(a, b) && IsSuffix(b, c)
    ensures IsSuffix(a, c)
  {
    assert c[|c| - |a|..] == c[|c| - |b|..][|b| - |a|..];
  }

  lemma {:induction false} SkipLeavesSuffix(s: string)
    ensures IsSuffix(SkipBlanks(s), s)
  {
    if s != [] && IsBlank(s[0]) {
      SkipLeavesSuffix(s[1..]);
      SuffixOfSuffix(SkipBlanks(s[1..]), s[1..], s);
    }
  }

  lemma {:induction false} QuotedLeavesSuffix(s: string)
    requires ReadQuoted(s).Success?
    ensures IsSuffix(ReadQuoted(s).value.rest, s)
  {
    if s[0] == '\\' {
      QuotedLeavesSuffix(s[2..]);
      SuffixOfSuffix(ReadQuoted(s[2..]).value.rest, s[2..], s);
    } else if s[0] != '"' {
      QuotedLeavesSuffix(s[1..]);
      SuffixOfSuffix(ReadQuoted(s[1..]).value.rest, s[1..], s);
    }
  }

  lemma {:induction false} ValueLeavesSuffix(s: string)
    requires ReadValue(s).Success?
    ensures IsSuffix(ReadValue(s).value.rest, s)
  {
    var t := SkipBlanks(s);
    SkipLeavesSuffix(s);
    if StartsWith(t, '=') {
      var u := SkipBlanks(t[1..]);
      SkipLeavesSuffix(t[1..]);
      SuffixOfSuffix(t[1..], t, s);
      SuffixOfSuffix(u, t[1..], s);
      if StartsWith(u, '"') {
        QuotedLeavesSuffix(u[1..]);
        SuffixOfSuffix(u[1..], u, s);
        SuffixOfSuffix(ReadValue(s).value.rest, u[1..], s);
      } else {
        SuffixOfSuffix(u[TokenLength(u)..], u, s);
      }
    }
  }

  /** What is left after one parameter's value. */
  lemma {:induction false} ParameterLeavesSuffix(s: string)
    requires StartsWith(SkipBlanks(s), ';')
    requires var u := SkipBlanks(SkipBlanks(s)[1..]); ReadValue(u[TokenLength(u)..]).Success?
    ensures var u := SkipBlanks(SkipBlanks(s)[1..]); IsSuffix(ReadValue(u[TokenLength(u)..]).value.rest, s)
  {
    var t := SkipBlanks(s);
    var u := SkipBlanks(t[1..]);
    var w := u[TokenLength(u)..];
    SkipLeavesSuffix(s);
    SkipLeavesSuffix(t[1..]);
    ValueLeavesSuffix(w);
    SuffixOfSuffix(t[1..], t, s);
    SuffixOfSuffix(u, t[1..], s);
    SuffixOfSuffix(w, u, s);
    SuffixOfSuffix(ReadValue(w).value.rest, w, s);
  }

  lemma {:induction false} ParametersLeaveSuffix(url: Accepts, s: string, so: Option<set<string>>)
    requires ReadParameters(url, s, so).Success?
    ensures IsSuffix(ReadParameters(url, s, so).value.rest, s)
    decreases |s|
  {
    var t := SkipBlanks(s);
    SkipLeavesSuffix(s);
    if StartsWith(t, ';') {
      var u := SkipBlanks(t[1..]);
      var n := TokenLength(u);
      var v := ReadValue(u[n..]).value;
      ParameterLeavesSuffix(s);
      var next := if ToLower(u[..n]) != "rel" then so else Some(ParseRelations(url, v.value.value).value);
      assert ReadParameters(url, s, so) == ReadParameters(url, v.rest, next);
      ParametersLeaveSuffix(url, v.rest, next);
      SuffixOfSuffix(ReadParameters(url, v.rest, next).value.rest, v.rest, s);
    }
  }

  lemma {:induction false} ReadLinkLeavesSuffix(url: Accepts, s: string)
    requires ReadLink(url, s).Success?
    ensures IsSuffix(ReadLink(url, s).value.rest, s)
  {
    var t := SkipBlanks(s);
    var end := IndexOf(t[1..], '>');
    var u := t[1..][end + 1..];
    SkipLeavesSuffix(s);
    SuffixOfSuffix(t[1..], t, s);
    SuffixOfSuffix(u, t[1..], s);
    ParametersLeaveSuffix(url, u, None);
    SuffixOfSuffix(ReadParameters(url, u, None).value.rest, u, s);
  }

  // ----- Following pages

  const MAX_PAGES: nat := 100

  /** What the platform says about addresses of type `A`: references are resolved against the current one. */
  datatype Addresses<!A> = Addresses(resolve: (string, A) -> Option<A>, pageParameter: A -> Option<string>)

  /** `parsePositiveSafeInteger` */
  function ParsePositiveSafeInteger(s: string): Option<nat> {
    if |s| > 0 && s[0] != '0' && forall i :: 0 <= i < |s| ==> Decimal.IsDigit(s[i]) then
      if Decimal.Value(s) <= MAX_SAFE_INTEGER then Some(Decimal.Value(s)) else None
    else None
  }

  /** It reads back the decimal numeral of every positive safe integer, and accepts nothing else. */
  lemma {:induction false} PositiveSafeIntegersReadBack(s: string, n: nat)
    ensures ParsePositiveSafeInteger(s) == Some(n) <==> 1 <= n <= MAX_SAFE_INTEGER && s == Decimal.Print(n)
  {
    if ParsePositiveSafeInteger(s) == Some(n) {
      Decimal.CanonicalIsPrinted(s);
    }
    Decimal.PrintIsCanonical(n);
    if n == 0 {
      assert Decimal.Print(n) == "0";
    }
  }

  /** The page an address names; the first one if it names none. */
  function PageOf<A>(at: Addresses<A>, address: A): Option<nat> {
    match at.pageParameter(address)
    case None => Some(1)
    case Some(value) => ParsePositiveSafeInteger(value)
  }

  function NextTargets(links: seq<ParsedLink>): seq<string> {
    if links == [] then []
    else
      NextTargets(links[..|links| - 1])
      + (if "next" in links[|links| - 1].relations then [links[|links| - 1].target] else [])
  }

  predicate IsFollowing<A>(at: Addresses<A>, current: A, next: A) {
    PageOf(at, current).Some? && PageOf(at, next) == Some(PageOf(at, current).value + 1)
  }

  /** `parseNextPageLink`, on the parsed links: no next link, exactly one to the following page, or an error. */
  method NextPage<A(==)>(links: seq<ParsedLink>, current: A, at: Addresses<A>) returns (next: Result<Option<A>>)
    ensures next == Success(None) <==> NextTargets(links) == []
    ensures next.Success? && next.value.Some? <==>
      && |NextTargets(links)| == 1 && at.resolve(NextTargets(links)[0], current).Some?
      && IsFollowing(at, current, at.resolve(NextTargets(links)[0], current).value)
    ensures next.Success? && next.value.Some? ==> next.value == at.resolve(NextTargets(links)[0], current)
  {
    var found: Option<A> := None;
    for n := 0 to |links|
      invariant |NextTargets(links[..n])| <= 1 && (found.Some? <==> |NextTargets(links[..n])| == 1)
      invariant found.Some? ==>
        found == at.resolve(NextTargets(links[..n])[0], current) && IsFollowing(at, current, found.value)
    {
      assert links[..n + 1][..n] == links[..n];
      if "next" !in links[n].relations {
        continue;
      }
      NextTargetsGrow(links, n + 1);
      var candidate := at.resolve(links[n].target, current);
      if found.Some? || candidate.None? || !IsFollowing(at, current, candidate.value) {
        return Failure;
      }
      found := candidate;
    }
    assert links[..|links|] == links;
    next := Success(found);
  }

  lemma {:induction false} NextTargetsGrow(links: seq<ParsedLink>, n: nat)
    requires n <= |links|
    ensures |NextTargets(links[..n])| <= |NextTargets(links)|
    ensures NextTargets(links)[..|NextTargets(links[..n])|] == NextTargets(links[..n])
    decreases |links|
  {
    if n == |links| {
      assert links[..n] == links;
    } else {
      assert links[..|links| - 1][..n] == links[..n];
      NextTargetsGrow(links[..|links| - 1], n);
    }
  }

  /**
   The client's loop over the listing's pages: whatever the server answers, it asks for pages 1, 2, 3, ... and at most
   100 of them. An answer it cannot use, or an address it must not ask, ends it with an error.
   */
  method VisitPages<A(==)>(
    first: A, answer: A -> Result<seq<ParsedLink>>, isAllowed: A -> bool, at: Addresses<A>)
    returns (visited: seq<A>, complete: bool)
    requires PageOf(at, first) == Some(1)
    ensures |visited| <= MAX_PAGES && forall i :: 0 <= i < |visited| ==> PageOf(at, visited[i]) == Some(i + 1)
    ensures forall i :: 0 < i < |visited| ==> isAllowed(visited[i])
    ensures complete ==> visited != [] && answer(visited[|visited| - 1]).Success?
    ensures complete ==> NextTargets(answer(visited[|visited| - 1]).value) == []
  {
    visited, complete := [], false;
    var next := Some(first);
    while next.Some?
      invariant |visited| <= MAX_PAGES && forall i :: 0 <= i < |visited| ==> PageOf(at, visited[i]) == Some(i + 1)
      invariant forall i :: 0 < i < |visited| ==> isAllowed(visited[i])
      invariant next.Some? ==> PageOf(at, next.value) == Some(|visited| + 1)
      invariant next.Some? && visited != [] ==> isAllowed(next.value)
      invariant next == None ==> visited != [] && answer(visited[|visited| - 1]).Success?
      invariant next == None ==> NextTargets(answer(visited[|visited| - 1]).value) == []
      decreases MAX_PAGES - |visited|, next.Some?
    {
      if |visited| + 1 > MAX_PAGES {
        return;
      }
      var current := next.value;
      visited := visited + [current];
      var links := answer(current);
      if links.Failure? {
        return;
      }
      var following := NextPage(links.value, current, at);
      if following.Failure? || (following.value.Some? && !isAllowed(following.value.value)) {
        return;
      }
      next := following.value;
    }
    complete := true;
  }
}
