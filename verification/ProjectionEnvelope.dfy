/**
 * The Markdown object of a memory: quoted identifiers in its front matter, then its content. What the validator reads
 * out of the text is what the builder put in, with one exception that is stated exactly.
 */
module ProjectionEnvelope {
  import opened Common
  import opened JsonText
  import opened ProjectionPaths
  import CanonicalJson
  import Decimal
  import Ordering

  predicate IsHexDigit(c: char) {
    '0' <= c <= '9' || 'a' <= c <= 'f'
  }

  type Digest = s: string | |s| == 64 && forall k :: 0 <= k < |s| ==> IsHexDigit(s[k])
    witness seq(64, _ => '0')

  datatype Memory = Memory(
    projectId: Text, projectVersion: int, snapshotId: Text,
    memoryId: Text, revisionId: Text, memoryVersion: int,
    kind: string, memoryClass: string, scope: string, scopeId: Text, status: string,
    validFrom: Option<Text>, validUntil: Option<Text>,
    evidenceIds: seq<Text>, content: Text)

  const KINDS: seq<string> :=
    ["decision", "fact", "convention", "procedure", "learning", "incident", "reference", "feedback"]
  const CLASSES: seq<string> := ["semantic", "procedural", "episodic"]
  const SCOPES: seq<string> := ["project", "repository", "ref", "worktree", "session"]
  const STATUSES: seq<string> := ["active", "contested", "superseded", "invalidated", "archived"]

  // ----- What a memory must satisfy

  predicate IsOptionalIdentifier(s: Option<Text>) {
    s.Some? ==> IsIdentifier(s.value)
  }

  /** `validateProjectionMemory` */
  predicate ValidMemory(m: Memory) {
    && IsIdentifier(m.projectId) && IsIdentifier(m.snapshotId) && IsIdentifier(m.memoryId)
    && IsIdentifier(m.revisionId) && IsIdentifier(m.scopeId)
    && IsOptionalIdentifier(m.validFrom) && IsOptionalIdentifier(m.validUntil)
    && 0 <= m.projectVersion <= MAX_SAFE_INTEGER && 1 <= m.memoryVersion <= MAX_SAFE_INTEGER
    && m.kind in KINDS && m.memoryClass in CLASSES && m.scope in SCOPES && m.status in STATUSES
    && forall i :: 0 <= i < |m.evidenceIds| ==> IsIdentifier(m.evidenceIds[i])
  }

  /** The first of each, in order. */
  function Distinct<T(==)>(xs: seq<T>): seq<T> {
    if xs == [] then []
    else
      var front := Distinct(xs[..|xs| - 1]);
      if xs[|xs| - 1] in front then front else front + [xs[|xs| - 1]]
  }

  function TextLess(): (Text, Text) -> bool {
    (a, b) => CanonicalJson.Less(a, b)
  }

  function NormalizedEvidence(ids: seq<Text>): seq<Text> {
    Ordering.Sort(Distinct(ids), TextLess())
  }

  method NormalizeEvidenceIds(ids: seq<Text>) returns (r: Result<seq<Text>>)
    ensures r.Success? <==> forall i :: 0 <= i < |ids| ==> IsIdentifier(ids[i])
    ensures r.Success? ==> r.value == NormalizedEvidence(ids)
  {
    var normalized: seq<Text> := [];
    var i := 0;
    while i < |ids|
      invariant 0 <= i <= |ids|
      invariant forall k :: 0 <= k < i ==> IsIdentifier(ids[k])
      invariant normalized == Distinct(ids[..i])
    {
      if !IsIdentifier(ids[i]) {
        return Failure;
      }
      assert ids[..i + 1][..|ids[..i + 1]| - 1] == ids[..i];
      if ids[i] !in normalized {
        normalized := normalized + [ids[i]];
      }
      i := i + 1;
    }
    assert ids[..i] == ids;
    return Success(Ordering.Sort(normalized, TextLess()));
  }

  // ----- Front matter

  datatype Value = Bare(text: string) | Quote(value: Text) | Quotes(values: seq<Text>)

  datatype Field = Field(name: string, value: Value)

  const NEWLINE: Unit := 0x0A
  const DASH: Unit := 0x2D

  function ItemsFrom(values: seq<Text>, i: nat): Text
    requires i <= |values|
    decreases |values| - i
  {
    if i == |values| then Lit("]")
    else (if i > 0 then Lit(", ") else []) + (Quoted(values[i]) + ItemsFrom(values, i + 1))
  }

  function ValueText(v: Value): Text {
    match v
    case Bare(text) => Lit(text)
    case Quote(value) => Quoted(value)
    case Quotes(values) => Lit("[") + ItemsFrom(values, 0)
  }

  function FieldText(f: Field): Text {
    Lit(f.name) + ValueText(f.value)
  }

  /** The lines of the front matter, joined. */
  function Joined(fs: seq<Field>): Text
    requires fs != []
  {
    if |fs| == 1 then FieldText(fs[0]) else FieldText(fs[0]) + ([NEWLINE] + Joined(fs[1..]))
  }

  function MemoryUri(project: string, memory: string): string {
    "memory://projects/" + project + "/memories/" + memory
  }

  function RevisionUri(project: string, memory: string, version: nat): string {
    MemoryUri(project, memory) + "/versions/" + Decimal.Print(version)
  }

  function OptionalValue(v: Option<Text>): Value {
    if v.None? then Bare("null") else Quote(v.value)
  }

  function IdentityFields(m: Memory): seq<Field>
    requires m.projectVersion >= 0 && m.memoryVersion >= 0
  {
    [ Field("project_id: ", Quote(m.projectId)),
      Field("project_version: ", Bare(Decimal.Print(m.projectVersion))),
      Field("memory_id: ", Quote(m.memoryId)),
      Field("revision_id: ", Quote(m.revisionId)),
      Field("memory_version: ", Bare(Decimal.Print(m.memoryVersion))) ]
  }

  function UriFields(project: string, memory: string, version: nat): seq<Field> {
    [ Field("canonical_uri: ", Quote(Lit(MemoryUri(project, memory)))),
      Field("revision_uri: ", Quote(Lit(RevisionUri(project, memory, version)))) ]
  }

  function TaxonomyFields(m: Memory): seq<Field> {
    [ Field("kind: ", Bare(m.kind)),
      Field("memory_class: ", Bare(m.memoryClass)),
      Field("scope: ", Bare(m.scope)),
      Field("scope_id: ", Quote(m.scopeId)),
      Field("status: ", Bare(m.status)) ]
  }

  function ValidityFields(m: Memory): seq<Field> {
    [ Field("valid_from: ", OptionalValue(m.validFrom)),
      Field("valid_until: ", OptionalValue(m.validUntil)),
      Field("evidence_ids: ", Quotes(NormalizedEvidence(m.evidenceIds))) ]
  }

  /** All fields but the type of the object and the checksum. */
  function MemoryFields(m: Memory, project: string, memory: string): seq<Field>
    requires m.projectVersion >= 0 && m.memoryVersion >= 0
  {
    (IdentityFields(m) + UriFields(project, memory, m.memoryVersion)) + (TaxonomyFields(m) + ValidityFields(m))
  }

  datatype ObjectType = HeadObject | RevisionObject

  function TypeField(t: ObjectType): Field {
    Field("projection_object: ", Bare(if t.HeadObject? then "head" else "revision"))
  }

  function ChecksumField(d: Digest): Field {
    Field("sha256: ", Bare(d))
  }

  function FrontMatter(fs: seq<Field>, t: ObjectType, d: Digest): Text {
    Joined([TypeField(t)] + fs + [ChecksumField(d)])
  }

  const START: Text := [DASH, DASH, DASH, NEWLINE]
  const END: Text := [NEWLINE, DASH, DASH, DASH, NEWLINE, NEWLINE]

  function Body(front: Text, content: Text): Text {
    START + (front + (END + (content + [NEWLINE])))
  }

  datatype MemoryWrite = MemoryWrite(place: Place, body: Text, contentSha256: Digest)

  /** `buildMemoryObject` */
  function BuildObject(sha256: Text -> Digest, m: Memory, t: ObjectType): Result<MemoryWrite> {
    var project, memory, revision := Segment(m.projectId), Segment(m.memoryId), Segment(m.revisionId);
    if !ValidMemory(m) || project.None? || Segment(m.snapshotId).None? || memory.None?
      || (t.RevisionObject? && revision.None?) then Failure
    else
      var hash := sha256(m.memoryId)[..2];
      var place := if t.HeadObject? then Head(hash, memory.value) else Revision(hash, memory.value, revision.value);
      var front := FrontMatter(MemoryFields(m, project.value, memory.value), t, sha256(m.content));
      Success(MemoryWrite(place, Body(front, m.content), sha256(m.content)))
  }

  // ----- What the validator reads

  predicate EndsFrontMatter(t: Text, i: nat) {
    i + |END| <= |t| && t[i..i + |END|] == END
  }

  /** `indexOf("\n---\n\n", i)` */
  function FindEnd(t: Text, i: nat): (r: Option<nat>)
    ensures r.Some? ==> i <= r.value && EndsFrontMatter(t, r.value)
    decreases |t| - i
  {
    if EndsFrontMatter(t, i) then Some(i) else if i >= |t| then None else FindEnd(t, i + 1)
  }

  datatype Envelope = Envelope(front: Text, content: Text)

  /** The front matter and the content, unless the text is no envelope. */
  function Opened(body: Text): Option<Envelope> {
    var end := FindEnd(body, |START|);
    if |body| < |START| || body[..|START|] != START || end.None? || body[|body| - 1] != NEWLINE then None
    else
      Some(Envelope(
        body[|START|..end.value],
        if end.value + |END| == |body| then [] else body[end.value + |END|..|body| - 1]))
  }

  predicate IsTerminator(c: Unit) {
    c == NEWLINE || c == 0x0D || c == 0x2028 || c == 0x2029
  }

  predicate IsHexUnit(c: Unit) {
    0x30 <= c <= 0x39 || 0x61 <= c <= 0x66
  }

  const STAMP: Text := [0x73, 0x68, 0x61, 0x32, 0x35, 0x36, 0x3A, 0x20]

  /** `sha256: ` and 64 hexadecimal digits. */
  predicate IsStamp(t: Text) {
    && |t| == 72
    && (forall k :: 0 <= k < 8 ==> t[k] == STAMP[k])
    && (forall k :: 8 <= k < 72 ==> IsHexUnit(t[k]))
  }

  function LineLength(t: Text): (n: nat)
    ensures n <= |t|
    ensures n < |t| ==> IsTerminator(t[n])
  {
    if t == [] || IsTerminator(t[0]) then 0 else 1 + LineLength(t[1..])
  }

  /** The digits of the first line that is a stamp, as the multi-line expression finds them. */
  function FirstStamp(t: Text): Option<Text> {
    var n := LineLength(t);
    if IsStamp(t[..n]) then Some(t[8..n])
    else if n == |t| then None
    else FirstStamp(t[n + 1..])
  }

  /** `validateMemoryObjectChecksums` for one object. */
  predicate EnvelopeIsValid(sha256: Text -> Digest, body: Text) {
    var e := Opened(body);
    e.Some? && FirstStamp(e.value.front) == Some(Lit(sha256(e.value.content)))
  }

  // ----- The exception: a line separator is not escaped in a quoted string

  predicate IsSeparator(c: Unit) {
    c == 0x2028 || c == 0x2029
  }

  function NextSeparator(s: Text, i: nat): (n: nat)
    requires i <= |s|
    ensures i <= n <= |s|
    ensures forall k :: i <= k < n ==> !IsSeparator(s[k])
    ensures n < |s| ==> IsSeparator(s[n])
    decreases |s| - i
  {
    if i == |s| || IsSeparator(s[i]) then i else NextSeparator(s, i + 1)
  }

  /** The first stamp between two line separators, from a line that starts at `i`. */
  function ForgedFrom(s: Text, i: nat): Option<Text>
    requires i <= |s|
    decreases |s| - i
  {
    var n := NextSeparator(s, i);
    if n == |s| then None
    else if IsStamp(s[i..n]) then Some(s[i + 8..n])
    else ForgedFrom(s, n + 1)
  }

  function Forged(s: Text): Option<Text> {
    var n := NextSeparator(s, 0);
    if n == |s| then None else ForgedFrom(s, n + 1)
  }

  function OrElse(a: Option<Text>, b: Option<Text>): Option<Text> {
    if a.Some? then a else b
  }

  function ForgedItems(values: seq<Text>, i: nat): Option<Text>
    requires i <= |values|
    decreases |values| - i
  {
    if i == |values| then None else OrElse(Forged(values[i]), ForgedItems(values, i + 1))
  }

  function ForgedValue(v: Value): Option<Text> {
    match v
    case Bare(_) => None
    case Quote(value) => Forged(value)
    case Quotes(values) => ForgedItems(values, 0)
  }

  function ForgedFields(fs: seq<Field>): Option<Text> {
    if fs == [] then None else OrElse(ForgedValue(fs[0].value), ForgedFields(fs[1..]))
  }

  /** No identifier holds a line that would be taken for the checksum, or it happens to be the checksum. */
  predicate IsHonest(sha256: Text -> Digest, fs: seq<Field>, content: Text) {
    ForgedFields(fs) == None || ForgedFields(fs) == Some(Lit(sha256(content)))
  }

  // ----- The end of the front matter is found

  predicate IsPlain(s: string) {
    forall k :: 0 <= k < |s| ==> 0x20 <= s[k] as int < 0x7F
  }

  /** A name that starts no stamp and no dashes. */
  predicate IsName(s: string) {
    IsPlain(s) && s != "" && s[0] != '-' && exists k :: 0 <= k < 8 && k < |s| && s[k] as int != STAMP[k]
  }

  predicate IsGood(f: Field) {
    IsName(f.name) && (f.value.Bare? ==> IsPlain(f.value.text))
  }

  predicate AllGood(fs: seq<Field>) {
    forall i :: 0 <= i < |fs| ==> IsGood(fs[i])
  }

  predicate NoNewline(t: Text) {
    forall k :: 0 <= k < |t| ==> t[k] != NEWLINE
  }

  lemma {:induction false} ChunkHasNoNewline(s: Text, i: nat)
    requires i < |s|
    ensures NoNewline(Chunk(s, i))
  {
  }

  lemma {:induction false} EscapedHasNoNewline(s: Text, i: nat)
    requires i <= |s|
    ensures NoNewline(EscapedFrom(s, i))
    decreases |s| - i
  {
    if i < |s| {
      ChunkHasNoNewline(s, i);
      EscapedHasNoNewline(s, i + 1);
    }
  }

  lemma {:induction false} ItemsHaveNoNewline(values: seq<Text>, i: nat)
    requires i <= |values|
    ensures NoNewline(ItemsFrom(values, i))
    decreases |values| - i
  {
    if i < |values| {
      EscapedHasNoNewline(values[i], 0);
      ItemsHaveNoNewline(values, i + 1);
      assert NoNewline(Quoted(values[i]));
    }
  }

  lemma {:induction false} FieldHasNoNewline(f: Field)
    requires IsGood(f)
    ensures NoNewline(FieldText(f)) && FieldText(f) != [] && FieldText(f)[0] != DASH
  {
    match f.value
    case Bare(_) =>
    case Quote(value) => EscapedHasNoNewline(value, 0);
    case Quotes(values) => ItemsHaveNoNewline(values, 0);
  }

  /** Every line break is followed by something that is no dash. */
  predicate IsSteady(t: Text) {
    forall k :: 0 <= k < |t| && t[k] == NEWLINE ==> k + 1 < |t| && t[k + 1] != DASH
  }

  lemma {:induction false} SteadyConcat(a: Text, b: Text)
    requires NoNewline(a) && IsSteady(b) && b != [] && b[0] != DASH
    ensures IsSteady(a + ([NEWLINE] + b))
  {
    var t := a + ([NEWLINE] + b);
    forall k | 0 <= k < |t| && t[k] == NEWLINE ensures k + 1 < |t| && t[k + 1] != DASH {
      if k > |a| {
        assert t[k] == b[k - |a| - 1] && t[k + 1] == b[k - |a|];
      }
    }
  }

  lemma {:induction false} JoinedIsSteady(fs: seq<Field>)
    requires fs != []
    requires forall i :: 0 <= i < |fs| ==>
      NoNewline(FieldText(fs[i])) && FieldText(fs[i]) != [] && FieldText(fs[i])[0] != DASH
    ensures IsSteady(Joined(fs)) && Joined(fs) != [] && Joined(fs)[0] != DASH
  {
    if |fs| > 1 {
      JoinedIsSteady(fs[1..]);
      SteadyConcat(FieldText(fs[0]), Joined(fs[1..]));
    }
  }

  lemma {:induction false} EndStarts(t: Text, i: nat)
    requires i + 1 < |t|
    ensures EndsFrontMatter(t, i) ==> t[i] == NEWLINE && t[i + 1] == DASH
  {
    if EndsFrontMatter(t, i) {
      assert t[i] == t[i..i + 6][0] && t[i + 1] == t[i..i + 6][1];
    }
  }

  lemma {:induction false} EndIsFoundFrom(front: Text, rest: Text, i: nat)
    requires IsSteady(front) && i <= |front|
    ensures FindEnd(START + (front + (END + rest)), 4 + i) == Some(4 + |front|)
    decreases |front| - i
  {
    var t := START + (front + (END + rest));
    var n := 4 + i;
    if i == |front| {
      assert t[n..n + 6] == END;
    } else {
      assert t[n] == front[i];
      if front[i] == NEWLINE {
        assert t[n + 1] == front[i + 1];
      }
      EndStarts(t, n);
      EndIsFoundFrom(front, rest, i + 1);
    }
  }

  lemma {:induction false} BodyParts(front: Text, content: Text)
    ensures var body := Body(front, content); var end := 4 + |front|;
      && |body| == end + 6 + |content| + 1 && body[..4] == START && body[4..end] == front
      && body[end + 6..|body| - 1] == content && body[|body| - 1] == NEWLINE
  {
    var body, end := Body(front, content), 4 + |front|;
    var rest := END + (content + [NEWLINE]);
    assert body[4..] == front + rest;
    assert body[end..] == (front + rest)[|front|..] == rest;
    assert body[end + 6..] == rest[6..] == content + [NEWLINE];
    assert body[end + 6..|body| - 1] == (content + [NEWLINE])[..|content|];
  }

  /** An object gives its front matter and its content back, whatever the content is. */
  lemma {:induction false} EnvelopeReadsBack(front: Text, content: Text)
    requires IsSteady(front)
    ensures Opened(Body(front, content)) == Some(Envelope(front, content))
  {
    EndIsFoundFrom(front, content + [NEWLINE], 0);
    BodyParts(front, content);
  }

  // ----- The checksum line is found

  predicate IsOneLine(t: Text) {
    forall k :: 0 <= k < |t| ==> !IsTerminator(t[k])
  }

  predicate Deviates(t: Text, k: nat) {
    k < |t| && if k < 8 then t[k] != STAMP[k] else !IsHexUnit(t[k])
  }

  /** The start of a line that no text can complete to a stamp. */
  ghost predicate IsPoisoned(t: Text) {
    IsOneLine(t) && exists k: nat :: Deviates(t, k)
  }

  lemma {:induction false} PoisonStays(p: Text, x: Text)
    requires IsPoisoned(p)
    ensures !IsStamp(p + x)
    ensures IsOneLine(x) ==> IsPoisoned(p + x)
  {
    var k: nat :| Deviates(p, k);
    assert Deviates(p + x, k);
  }

  lemma {:induction false} LineLengthOf(a: Text, y: Text)
    requires IsOneLine(a) && (y == [] || IsTerminator(y[0]))
    ensures LineLength(a + y) == |a|
  {
    if a == [] {
      assert a + y == y;
    } else {
      assert (a + y)[1..] == a[1..] + y;
      LineLengthOf(a[1..], y);
    }
  }

  lemma {:induction false} StampBeforeBreak(a: Text, c: Unit, b: Text)
    requires IsOneLine(a) && IsTerminator(c)
    ensures FirstStamp(a + ([c] + b)) == if IsStamp(a) then Some(a[8..]) else FirstStamp(b)
  {
    var t := a + ([c] + b);
    LineLengthOf(a, [c] + b);
    assert t[..|a|] == a;
    assert t[|a| + 1..] == b;
    if IsStamp(a) {
      assert t[8..|a|] == a[8..];
    }
  }

  lemma {:induction false} StampAtEnd(a: Text)
    requires IsOneLine(a)
    ensures FirstStamp(a) == if IsStamp(a) then Some(a[8..]) else None
  {
    LineLengthOf(a, []);
    assert a + [] == a;
    assert a[..|a|] == a;
  }

  function EscapedRange(s: Text, i: nat, n: nat): Text
    requires i <= n <= |s|
    decreases n - i
  {
    if i == n then [] else Chunk(s, i) + EscapedRange(s, i + 1, n)
  }

  lemma {:induction false} RangeSplit(s: Text, i: nat, n: nat)
    requires i <= n <= |s|
    ensures EscapedFrom(s, i) == EscapedRange(s, i, n) + EscapedFrom(s, n)
    decreases n - i
  {
    if i < n {
      RangeSplit(s, i + 1, n);
    }
  }

  lemma {:induction false} ChunkIsOneLine(s: Text, i: nat)
    requires i < |s|
    ensures IsSeparator(s[i]) ==> Chunk(s, i) == [s[i]]
    ensures !IsSeparator(s[i]) ==> IsOneLine(Chunk(s, i))
  {
  }

  lemma {:induction false} RangeIsOneLine(s: Text, i: nat, n: nat)
    requires i <= n <= |s| && forall k :: i <= k < n ==> !IsSeparator(s[k])
    ensures IsOneLine(EscapedRange(s, i, n))
    decreases n - i
  {
    if i < n {
      ChunkIsOneLine(s, i);
      RangeIsOneLine(s, i + 1, n);
    }
  }

  /** The units that a stamp is made of; none of them is ever escaped. */
  predicate IsStampUnit(c: Unit) {
    c == 0x20 || 0x30 <= c <= 0x3A || 0x61 <= c <= 0x7A
  }

  predicate StampUnits(t: Text) {
    forall k :: 0 <= k < |t| ==> IsStampUnit(t[k])
  }

  lemma {:induction false} StampIsOfStampUnits(t: Text)
    requires IsStamp(t)
    ensures StampUnits(t)
  {
    forall k | 0 <= k < |t| ensures IsStampUnit(t[k]) {
      if k < 8 {
        assert t[k] == STAMP[k];
      }
    }
  }

  lemma {:induction false} ChunkOfStampUnit(s: Text, i: nat)
    requires i < |s|
    ensures IsStampUnit(s[i]) || IsStampUnit(Chunk(s, i)[0]) ==> Chunk(s, i) == [s[i]]
  {
  }

  lemma {:induction false} RangeOfStampUnits(s: Text, i: nat, n: nat)
    requires i <= n <= |s|
    requires StampUnits(s[i..n]) || StampUnits(EscapedRange(s, i, n))
    ensures EscapedRange(s, i, n) == s[i..n]
    decreases n - i
  {
    if i < n {
      var range, rest := EscapedRange(s, i, n), EscapedRange(s, i + 1, n);
      assert s[i..n][0] == s[i] && s[i..n][1..] == s[i + 1..n];
      assert range[0] == Chunk(s, i)[0] && range[|Chunk(s, i)|..] == rest;
      ChunkOfStampUnit(s, i);
      RangeOfStampUnits(s, i + 1, n);
      assert s[i..n] == [s[i]] + s[i + 1..n];
    }
  }

  lemma {:induction false} RangeIsStamp(s: Text, i: nat, n: nat)
    requires i <= n <= |s|
    ensures IsStamp(EscapedRange(s, i, n)) <==> IsStamp(s[i..n])
    ensures IsStamp(s[i..n]) ==> EscapedRange(s, i, n)[8..] == s[i + 8..n]
  {
    if IsStamp(EscapedRange(s, i, n)) {
      StampIsOfStampUnits(EscapedRange(s, i, n));
      RangeOfStampUnits(s, i, n);
    }
    if IsStamp(s[i..n]) {
      StampIsOfStampUnits(s[i..n]);
      RangeOfStampUnits(s, i, n);
      assert s[i..n][8..] == s[i + 8..n];
    }
  }

  lemma {:induction false} QuotePoisons(p: Text)
    requires IsOneLine(p)
    ensures IsPoisoned(p + [QUOTE])
  {
    assert Deviates(p + [QUOTE], |p|);
  }

  lemma {:induction false} Grouped(a: Text, b: Text, c: Text)
    ensures (a + b) + c == a + (b + c)
  {
  }

  lemma {:induction false} Regrouped(a: Text, b: Text, c: Text, y: Text)
    ensures (a + (b + c)) + y == a + (b + (c + y))
    ensures a + ((b + c) + y) == (a + b) + (c + y)
  {
  }

  /** The first line of what is left of a string, and what follows it. */
  lemma {:induction false} FirstLine(s: Text, i: nat, y: Text)
    requires i <= |s|
    ensures var n := NextSeparator(s, i);
      && IsOneLine(EscapedRange(s, i, n))
      && (n == |s| ==> EscapedFrom(s, i) + y == (EscapedRange(s, i, n) + [QUOTE]) + y)
      && (n < |s| ==> EscapedFrom(s, i) + y == EscapedRange(s, i, n) + ([s[n]] + (EscapedFrom(s, n + 1) + y)))
  {
    var n := NextSeparator(s, i);
    RangeSplit(s, i, n);
    RangeIsOneLine(s, i, n);
    if n < |s| {
      ChunkIsOneLine(s, n);
      Regrouped(EscapedRange(s, i, n), [s[n]], EscapedFrom(s, n + 1), y);
    }
  }

  type Reader = Text -> Option<Text>

  /** A line, its terminator and the lines after it. */
  predicate IsBreak(line: Text, c: Unit, after: Text) {
    IsOneLine(line) && IsTerminator(c)
  }

  /** What a search over lines does at a line break. */
  ghost predicate ReadsLines(first: Reader) {
    forall a: Text, c: Unit, b: Text {:trigger IsBreak(a, c, b)} :: IsBreak(a, c, b) ==>
      first(a + ([c] + b)) == if IsStamp(a) then Some(a[8..]) else first(b)
  }

  lemma {:induction false} ReadPast(first: Reader, a: Text, c: Unit, b: Text)
    requires ReadsLines(first) && IsOneLine(a) && IsTerminator(c)
    ensures first(a + ([c] + b)) == if IsStamp(a) then Some(a[8..]) else first(b)
  {
    assert IsBreak(a, c, b);
  }

  lemma {:induction false} NoStampIn(p: Text)
    requires IsPoisoned(p)
    ensures !IsStamp(p)
  {
    PoisonStays(p, []);
    assert p + [] == p;
  }

  lemma {:induction false} FirstLineReads(first: Reader, s: Text, i: nat, y: Text)
    requires ReadsLines(first) && i <= |s| && NextSeparator(s, i) < |s|
    ensures var n := NextSeparator(s, i);
      first(EscapedFrom(s, i) + y) ==
        if IsStamp(s[i..n]) then Some(s[i + 8..n]) else first(EscapedFrom(s, n + 1) + y)
  {
    var n := NextSeparator(s, i);
    FirstLine(s, i, y);
    ReadPast(first, EscapedRange(s, i, n), s[n], EscapedFrom(s, n + 1) + y);
    RangeIsStamp(s, i, n);
  }

  lemma {:induction false} LineThenRest(first: Reader, s: Text, i: nat, y: Text, last: Option<Text>)
    requires ReadsLines(first) && i <= |s| && NextSeparator(s, i) < |s|
    requires first(EscapedFrom(s, NextSeparator(s, i) + 1) + y) == OrElse(ForgedFrom(s, NextSeparator(s, i) + 1), last)
    ensures first(EscapedFrom(s, i) + y) == OrElse(ForgedFrom(s, i), last)
  {
    FirstLineReads(first, s, i, y);
  }

  lemma {:induction false} LastLine(s: Text, i: nat, y: Text) returns (p: Text)
    requires i <= |s| && NextSeparator(s, i) == |s|
    ensures IsPoisoned(p) && EscapedFrom(s, i) + y == p + y
  {
    FirstLine(s, i, y);
    p := EscapedRange(s, i, |s|) + [QUOTE];
    QuotePoisons(EscapedRange(s, i, |s|));
  }

  /** From the start of a line inside a quoted string to its closing quote. */
  lemma {:induction false} InnerStamps(first: Reader, s: Text, i: nat, y: Text) returns (p: Text)
    requires ReadsLines(first) && i <= |s|
    ensures IsPoisoned(p)
    ensures first(EscapedFrom(s, i) + y) == OrElse(ForgedFrom(s, i), first(p + y))
    decreases |s| - i
  {
    var n := NextSeparator(s, i);
    if n == |s| {
      p := LastLine(s, i, y);
    } else {
      p := InnerStamps(first, s, n + 1, y);
      LineThenRest(first, s, i, y, first(p + y));
    }
  }

  /** The first line of a quoted string, with what stands before it. */
  lemma {:induction false} FirstQuotedLine(before: Text, s: Text, y: Text)
    ensures var n := NextSeparator(s, 0); var line := (before + [QUOTE]) + EscapedRange(s, 0, n);
      && (n == |s| ==> before + (Quoted(s) + y) == (line + [QUOTE]) + y)
      && (n < |s| ==> before + (Quoted(s) + y) == line + ([s[n]] + (EscapedFrom(s, n + 1) + y)))
  {
    var n := NextSeparator(s, 0);
    var start, range := before + [QUOTE], EscapedRange(s, 0, n);
    Regrouped(before, [QUOTE], EscapedFrom(s, 0), y);
    FirstLine(s, 0, y);
    if n == |s| {
      Regrouped(start, range, [QUOTE], y);
    } else {
      Grouped(start, range, [s[n]] + (EscapedFrom(s, n + 1) + y));
    }
  }

  lemma {:induction false} QuotedLineIsPoisoned(before: Text, s: Text)
    requires IsPoisoned(before)
    ensures IsPoisoned((before + [QUOTE]) + EscapedRange(s, 0, NextSeparator(s, 0)))
  {
    RangeIsOneLine(s, 0, NextSeparator(s, 0));
    PoisonStays(before, [QUOTE]);
    PoisonStays(before + [QUOTE], EscapedRange(s, 0, NextSeparator(s, 0)));
  }

  lemma {:induction false} QuotedLineReads(first: Reader, before: Text, s: Text, y: Text)
    requires ReadsLines(first) && IsPoisoned(before) && NextSeparator(s, 0) < |s|
    ensures first(before + (Quoted(s) + y)) == first(EscapedFrom(s, NextSeparator(s, 0) + 1) + y)
  {
    var n := NextSeparator(s, 0);
    var line := (before + [QUOTE]) + EscapedRange(s, 0, n);
    FirstQuotedLine(before, s, y);
    QuotedLineIsPoisoned(before, s);
    NoStampIn(line);
    ReadPast(first, line, s[n], EscapedFrom(s, n + 1) + y);
  }

  lemma {:induction false} QuotedStamps(first: Reader, before: Text, s: Text, y: Text) returns (p: Text)
    requires ReadsLines(first) && IsPoisoned(before)
    ensures IsPoisoned(p)
    ensures first(before + (Quoted(s) + y)) == OrElse(Forged(s), first(p + y))
  {
    var n := NextSeparator(s, 0);
    if n == |s| {
      var line := (before + [QUOTE]) + EscapedRange(s, 0, n);
      FirstQuotedLine(before, s, y);
      QuotedLineIsPoisoned(before, s);
      PoisonStays(line, [QUOTE]);
      p := line + [QUOTE];
    } else {
      QuotedLineReads(first, before, s, y);
      p := InnerStamps(first, s, n + 1, y);
    }
  }

  lemma {:induction false} ItemGrouped(before: Text, comma: Text, q: Text, rest: Text, y: Text)
    ensures before + ((comma + (q + rest)) + y) == (before + comma) + (q + (rest + y))
  {
    Grouped(q, rest, y);
    Grouped(comma, q + rest, y);
    Grouped(before, comma, q + (rest + y));
  }

  lemma {:induction false} ItemsStamps(first: Reader, before: Text, values: seq<Text>, i: nat, y: Text)
    returns (p: Text)
    requires ReadsLines(first) && IsPoisoned(before) && i <= |values|
    ensures IsPoisoned(p)
    ensures first(before + (ItemsFrom(values, i) + y)) == OrElse(ForgedItems(values, i), first(p + y))
    decreases |values| - i
  {
    if i == |values| {
      p := before + Lit("]");
      PoisonStays(before, Lit("]"));
      Grouped(before, Lit("]"), y);
    } else {
      var comma := if i > 0 then Lit(", ") else [];
      var rest := ItemsFrom(values, i + 1);
      PoisonStays(before, comma);
      ItemGrouped(before, comma, Quoted(values[i]), rest, y);
      var q := QuotedStamps(first, before + comma, values[i], rest + y);
      p := ItemsStamps(first, q, values, i + 1, y);
    }
  }

  lemma {:induction false} PlainIsOneLine(s: string)
    requires IsPlain(s)
    ensures IsOneLine(Lit(s))
  {
  }

  lemma {:induction false} NameIsPoisoned(name: string)
    requires IsName(name)
    ensures IsPoisoned(Lit(name))
  {
    PlainIsOneLine(name);
    var k :| 0 <= k < 8 && k < |name| && name[k] as int != STAMP[k];
    assert Deviates(Lit(name), k);
  }

  lemma {:induction false} FieldStamps(first: Reader, f: Field, y: Text) returns (p: Text)
    requires ReadsLines(first) && IsGood(f)
    ensures IsPoisoned(p)
    ensures first(FieldText(f) + y) == OrElse(ForgedValue(f.value), first(p + y))
  {
    var name := Lit(f.name);
    NameIsPoisoned(f.name);
    match f.value {
      case Bare(text) =>
        p := name + Lit(text);
        PlainIsOneLine(text);
        PoisonStays(name, Lit(text));
      case Quote(value) =>
        Grouped(name, Quoted(value), y);
        p := QuotedStamps(first, name, value, y);
      case Quotes(values) =>
        var open := Lit("[");
        PoisonStays(name, open);
        Grouped(name, open, ItemsFrom(values, 0));
        Grouped(name + open, ItemsFrom(values, 0), y);
        p := ItemsStamps(first, name + open, values, 0, y);
    }
  }

  lemma {:induction false} ChecksumLine(d: Digest)
    ensures FirstStamp(FieldText(ChecksumField(d))) == Some(Lit(d))
  {
    var line := FieldText(ChecksumField(d));
    assert line == Lit("sha256: ") + Lit(d);
    assert forall k :: 8 <= k < 72 ==> line[k] == Lit(d)[k - 8] == d[k - 8] as int;
    assert IsStamp(line) && IsOneLine(line);
    StampAtEnd(line);
    assert line[8..] == Lit(d);
  }

  lemma {:induction false} JoinedReads(first: Reader, fs: seq<Field>, d: Digest)
    requires ReadsLines(first) && AllGood(fs) && first(FieldText(ChecksumField(d))) == Some(Lit(d))
    ensures first(Joined(fs + [ChecksumField(d)])) == OrElse(ForgedFields(fs), Some(Lit(d)))
  {
    var all := fs + [ChecksumField(d)];
    if fs != [] {
      var after := Joined(fs[1..] + [ChecksumField(d)]);
      assert all[1..] == fs[1..] + [ChecksumField(d)];
      var p := FieldStamps(first, fs[0], [NEWLINE] + after);
      ReadPast(first, p, NEWLINE, after);
      NoStampIn(p);
      JoinedReads(first, fs[1..], d);
      Regrouped([], FieldText(fs[0]), [NEWLINE], after);
    }
  }

  lemma {:induction false} LinesAreRead(first: Reader)
    requires forall t :: first(t) == FirstStamp(t)
    ensures ReadsLines(first)
  {
    forall a: Text, c: Unit, b: Text | IsBreak(a, c, b)
      ensures first(a + ([c] + b)) == if IsStamp(a) then Some(a[8..]) else first(b)
    {
      StampBeforeBreak(a, c, b);
    }
  }

  /** The validator reads the first forged checksum if there is one, and the real one otherwise. */
  lemma {:induction false} JoinedStamps(fs: seq<Field>, d: Digest)
    requires AllGood(fs)
    ensures FirstStamp(Joined(fs + [ChecksumField(d)])) == OrElse(ForgedFields(fs), Some(Lit(d)))
  {
    var first: Reader := t => FirstStamp(t);
    LinesAreRead(first);
    ChecksumLine(d);
    JoinedReads(first, fs, d);
  }

  // ----- Objects

  lemma {:induction false} DigitsArePlain(n: nat)
    ensures IsPlain(Decimal.Print(n))
  {
    Decimal.PrintIsCanonical(n);
    forall k | 0 <= k < |Decimal.Print(n)| ensures 0x20 <= Decimal.Print(n)[k] as int < 0x7F {
      assert Decimal.IsDigit(Decimal.Print(n)[k]);
    }
  }

  lemma {:induction false} NameAt(s: string, k: nat)
    requires IsPlain(s) && k < |s| && k < 8 && s[0] != '-' && s[k] as int != STAMP[k]
    ensures IsName(s)
  {
  }

  lemma {:induction false} KindsAreWords()
    ensures forall i :: 0 <= i < |KINDS| ==> IsWord(KINDS[i])
  {
  }

  lemma {:induction false} OtherWords()
    ensures forall i :: 0 <= i < |CLASSES| ==> IsWord(CLASSES[i])
    ensures forall i :: 0 <= i < |SCOPES| ==> IsWord(SCOPES[i])
    ensures forall i :: 0 <= i < |STATUSES| ==> IsWord(STATUSES[i])
  {
  }

  lemma {:induction false} WordsArePlain(s: string)
    requires s in KINDS || s in CLASSES || s in SCOPES || s in STATUSES
    ensures IsPlain(s) && IsWord(s)
  {
    KindsAreWords();
    OtherWords();
    assert IsWord(s);
    forall k | 0 <= k < |s| ensures 0x20 <= s[k] as int < 0x7F {
      assert IsUnreserved(s[k] as int);
    }
  }

  // The first unit of a name, or for some its second, differs from that of a stamp.

  lemma {:induction false} IdentityNames()
    ensures IsName("project_id: ") && IsName("project_version: ") && IsName("memory_id: ")
  {
    NameAt("project_id: ", 0);
    NameAt("project_version: ", 0);
    NameAt("memory_id: ", 0);
  }

  lemma {:induction false} VersionNames()
    ensures IsName("revision_id: ") && IsName("memory_version: ") && IsName("canonical_uri: ")
      && IsName("revision_uri: ")
  {
    NameAt("revision_id: ", 0);
    NameAt("memory_version: ", 0);
    NameAt("canonical_uri: ", 0);
    NameAt("revision_uri: ", 0);
  }

  lemma {:induction false} TaxonomyNames()
    ensures IsName("kind: ") && IsName("memory_class: ") && IsName("status: ")
  {
    NameAt("kind: ", 0);
    NameAt("memory_class: ", 0);
    NameAt("status: ", 1);
  }

  lemma {:induction false} ScopeNames()
    ensures IsName("scope: ") && IsName("scope_id: ")
  {
    NameAt("scope: ", 1);
    NameAt("scope_id: ", 1);
  }

  lemma {:induction false} ValidityNames()
    ensures IsName("valid_from: ") && IsName("valid_until: ") && IsName("evidence_ids: ")
  {
    NameAt("valid_from: ", 0);
    NameAt("valid_until: ", 0);
    NameAt("evidence_ids: ", 0);
  }

  lemma {:induction false} IdentityIsGood(m: Memory)
    requires ValidMemory(m)
    ensures AllGood(IdentityFields(m))
  {
    IdentityNames();
    VersionNames();
    DigitsArePlain(m.projectVersion);
    DigitsArePlain(m.memoryVersion);
  }

  lemma {:induction false} UrisAreGood(project: string, memory: string, version: nat)
    ensures AllGood(UriFields(project, memory, version))
  {
    VersionNames();
  }

  lemma {:induction false} TaxonomyIsGood(m: Memory)
    requires ValidMemory(m)
    ensures AllGood(TaxonomyFields(m))
  {
    TaxonomyNames();
    ScopeNames();
    WordsArePlain(m.kind);
    WordsArePlain(m.memoryClass);
    WordsArePlain(m.scope);
    WordsArePlain(m.status);
  }

  lemma {:induction false} ValidityIsGood(m: Memory)
    ensures AllGood(ValidityFields(m))
  {
    ValidityNames();
    assert IsPlain("null");
  }

  lemma {:induction false} MemoryFieldsAreGood(m: Memory, project: string, memory: string)
    requires ValidMemory(m)
    ensures AllGood(MemoryFields(m, project, memory))
  {
    IdentityIsGood(m);
    UrisAreGood(project, memory, m.memoryVersion);
    TaxonomyIsGood(m);
    ValidityIsGood(m);
  }

  lemma {:induction false} GoodFieldsAreSteady(fs: seq<Field>, d: Digest)
    requires AllGood(fs)
    ensures IsSteady(Joined(fs + [ChecksumField(d)]))
  {
    var all := fs + [ChecksumField(d)];
    forall i | 0 <= i < |all|
      ensures NoNewline(FieldText(all[i])) && FieldText(all[i]) != [] && FieldText(all[i])[0] != DASH
    {
      if i < |fs| {
        FieldHasNoNewline(fs[i]);
      } else {
        assert FieldText(all[i]) == Lit("sha256: ") + Lit(d);
      }
    }
    JoinedIsSteady(all);
  }

  lemma {:induction false} TypeIsGood(t: ObjectType)
    ensures IsGood(TypeField(t))
  {
    NameAt("projection_object: ", 0);
  }

  /** Every object gives its content back; its checksum is accepted if and only if the memory is honest. */
  lemma {:induction false} ObjectReadsBack(sha256: Text -> Digest, fs: seq<Field>, t: ObjectType, content: Text)
    requires AllGood(fs)
    ensures var front := FrontMatter(fs, t, sha256(content)); var body := Body(front, content);
      && Opened(body) == Some(Envelope(front, content))
      && (EnvelopeIsValid(sha256, body) <==> IsHonest(sha256, fs, content))
  {
    var d := sha256(content);
    var all := [TypeField(t)] + fs;
    TypeIsGood(t);
    assert [TypeField(t)] + fs + [ChecksumField(d)] == all + [ChecksumField(d)];
    GoodFieldsAreSteady(all, d);
    EnvelopeReadsBack(FrontMatter(fs, t, d), content);
    JoinedStamps(all, d);
    assert all[1..] == fs;
    assert ForgedFields(all) == ForgedFields(fs);
  }

  predicate HasNoSeparator(s: Text) {
    forall k :: 0 <= k < |s| ==> !IsSeparator(s[k])
  }

  predicate ValueHasNoSeparator(v: Value) {
    match v
    case Bare(_) => true
    case Quote(value) => HasNoSeparator(value)
    case Quotes(values) => forall i :: 0 <= i < |values| ==> HasNoSeparator(values[i])
  }

  lemma {:induction false} ItemsAreNotForged(values: seq<Text>, i: nat)
    requires i <= |values| && forall k :: 0 <= k < |values| ==> HasNoSeparator(values[k])
    ensures ForgedItems(values, i) == None
    decreases |values| - i
  {
    if i < |values| {
      ItemsAreNotForged(values, i + 1);
    }
  }

  lemma {:induction false} FieldsAreNotForged(fs: seq<Field>)
    requires forall i :: 0 <= i < |fs| ==> ValueHasNoSeparator(fs[i].value)
    ensures ForgedFields(fs) == None
  {
    if fs != [] {
      FieldsAreNotForged(fs[1..]);
      if fs[0].value.Quotes? {
        ItemsAreNotForged(fs[0].value.values, 0);
      }
    }
  }

  predicate OptionalHasNoSeparator(v: Option<Text>) {
    v.Some? ==> HasNoSeparator(v.value)
  }

  lemma {:induction false} DistinctHas(ids: seq<Text>)
    ensures forall x :: x in Distinct(ids) <==> x in ids
  {
    if ids != [] {
      DistinctHas(ids[..|ids| - 1]);
      assert ids == ids[..|ids| - 1] + [ids[|ids| - 1]];
    }
  }

  /** A memory whose identifiers hold neither U+2028 nor U+2029 is honest. */
  lemma {:induction false} PlainMemoryIsHonest(sha256: Text -> Digest, m: Memory, project: string, memory: string)
    requires ValidMemory(m) && IsSegment(project) && IsSegment(memory)
    requires HasNoSeparator(m.projectId) && HasNoSeparator(m.memoryId) && HasNoSeparator(m.revisionId)
    requires HasNoSeparator(m.scopeId) && OptionalHasNoSeparator(m.validFrom) && OptionalHasNoSeparator(m.validUntil)
    requires forall i :: 0 <= i < |m.evidenceIds| ==> HasNoSeparator(m.evidenceIds[i])
    ensures IsHonest(sha256, MemoryFields(m, project, memory), m.content)
  {
    var fs := MemoryFields(m, project, memory);
    var ids := NormalizedEvidence(m.evidenceIds);
    DistinctHas(m.evidenceIds);
    Ordering.SortHas(Distinct(m.evidenceIds), TextLess());
    forall i | 0 <= i < |ids| ensures HasNoSeparator(ids[i]) {
      assert ids[i] in m.evidenceIds;
    }
    UriHasNoSeparator(project, memory, m.memoryVersion);
    forall i | 0 <= i < |fs| ensures ValueHasNoSeparator(fs[i].value) {
    }
    FieldsAreNotForged(fs);
  }

  lemma {:induction false} AsciiHasNoSeparator(s: string)
    requires forall k :: 0 <= k < |s| ==> s[k] as int < 0x80
    ensures HasNoSeparator(Lit(s))
  {
  }

  lemma {:induction false} UriHasNoSeparator(project: string, memory: string, version: nat)
    requires IsSegment(project) && IsSegment(memory)
    ensures HasNoSeparator(Lit(MemoryUri(project, memory)))
    ensures HasNoSeparator(Lit(RevisionUri(project, memory, version)))
  {
    DigitsArePlain(version);
    assert IsPlain("memory://projects/") && IsPlain("/memories/") && IsPlain("/versions/");
    assert IsPlain(project) && IsPlain(memory);
    AsciiHasNoSeparator(MemoryUri(project, memory));
    AsciiHasNoSeparator(RevisionUri(project, memory, version));
  }
}
