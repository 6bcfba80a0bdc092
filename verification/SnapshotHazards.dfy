/** Inputs whose plan the validator refuses although the builder made it, and inputs that are certainly fine. */
module SnapshotHazards {
  import opened Common
  import opened JsonText
  import opened ProjectionPaths
  import opened ProjectionEnvelope
  import opened SnapshotInput
  import opened SnapshotPlan
  import opened SnapshotCheck
  import opened SnapshotResults
  import SnapshotKeys

  // ----- Plain identifiers

  /** No identifier of the memory holds U+2028 or U+2029. */
  predicate IsPlainMemory(m: Memory) {
    && HasNoSeparator(m.projectId) && HasNoSeparator(m.memoryId) && HasNoSeparator(m.revisionId)
    && HasNoSeparator(m.scopeId) && OptionalHasNoSeparator(m.validFrom) && OptionalHasNoSeparator(m.validUntil)
    && forall i :: 0 <= i < |m.evidenceIds| ==> HasNoSeparator(m.evidenceIds[i])
  }

  lemma {:induction false} PlainIsHonest(js: Platform, m: Memory)
    requires IsEncodable(m) && IsPlainMemory(m)
    ensures HeadIsHonest(js, m)
  {
    PlainMemoryIsHonest(js.sha256, m, Segment(m.projectId).value, Segment(m.memoryId).value);
  }

  predicate IsPlainInput(input: Input) {
    && !IsReserved(input.projectId) && !IsReserved(input.snapshotId)
    && forall i :: 0 <= i < |input.heads| ==> !IsReserved(input.heads[i].scopeId) && IsPlainMemory(input.heads[i])
  }

  lemma {:induction false} PlainIsUnambiguous(js: Platform, input: Input)
    requires AllEncodable(input.heads) && IsPlainInput(input)
    ensures IsUnambiguous(js, input)
  {
    forall i | 0 <= i < |input.heads| ensures HeadIsHonest(js, input.heads[i]) {
      PlainIsHonest(js, input.heads[i]);
    }
  }

  /** Every plan built from plain identifiers, none of them named like an object directory, is valid. */
  lemma {:induction false} PlainPlanIsValid(js: Platform, input: Input)
    requires IsLawful(js) && IsBuildable(input) && IsPlainInput(input)
    ensures PlanIsValid(js, PlanOf(js, input))
  {
    PlainIsUnambiguous(js, input);
    BuiltPlanIsValidIff(js, input);
  }

  // ----- A project named like an object directory

  /** The empty snapshot of a project called `objects`. */
  function ReservedInput(): Input {
    Input(Lit("objects"), 0, Lit("s"), [], [])
  }

  lemma {:induction false} ReservedIsBuildable()
    ensures IsBuildable(ReservedInput()) && IsReserved(ReservedInput().projectId)
  {
    WordSegment("objects");
    WordSegment("s");
  }

  lemma {:induction false} ReservedProjectFails(js: Platform)
    requires IsLawful(js)
    ensures IsBuildable(ReservedInput()) && !PlanIsValid(js, PlanOf(js, ReservedInput()))
  {
    var input := ReservedInput();
    ReservedIsBuildable();
    BuiltPlanIsValidIff(js, input);
  }

  // ----- A checksum line inside an identifier

  /** A stamp between two line separators. */
  function Disguised(d: Digest): Text {
    [0x2028] + (STAMP + (Lit(d) + [0x2028]))
  }

  function DisguisedMemory(d: Digest, content: Text): Memory {
    Memory(
      Lit("p"), 0, Lit("s"), Lit("m"), Lit("r"), 1, "fact", "semantic", "project", Lit("p"), "active",
      Some(Disguised(d)), None, [], content)
  }

  function DisguisedInput(d: Digest, content: Text): Input {
    Input(Lit("p"), 0, Lit("s"), [DisguisedMemory(d, content)], [DisguisedMemory(d, content)])
  }

  lemma {:induction false} DisguiseIsForged(d: Digest)
    ensures Forged(Disguised(d)) == Some(Lit(d))
  {
    var s := Disguised(d);
    assert |s| == 74 && s[73] == 0x2028;
    assert forall k :: 8 <= k < 72 ==> s[1..73][k] == Lit(d)[k - 8] == d[k - 8] as int;
    assert forall k :: 0 <= k < 8 ==> s[1..73][k] == STAMP[k];
    assert IsStamp(s[1..73]);
    SeparatorAt(s);
    assert s[9..73] == Lit(d);
  }

  lemma {:induction false} SeparatorAt(s: Text)
    requires |s| == 74 && s[0] == 0x2028 && s[73] == 0x2028 && IsStamp(s[1..73])
    ensures NextSeparator(s, 0) == 0 && NextSeparator(s, 1) == 73
  {
    StampIsOfStampUnits(s[1..73]);
    forall k | 1 <= k < 73 ensures !IsSeparator(s[k]) {
      assert s[k] == s[1..73][k - 1];
    }
  }

  lemma {:induction false} ForgedConcat(a: seq<Field>, b: seq<Field>)
    ensures ForgedFields(a + b) == OrElse(ForgedFields(a), ForgedFields(b))
  {
    if a == [] {
      assert a + b == b;
    } else {
      assert (a + b)[1..] == a[1..] + b;
      ForgedConcat(a[1..], b);
    }
  }

  lemma {:induction false} WordHasNoSeparator(s: string)
    requires IsWord(s)
    ensures HasNoSeparator(Lit(s))
  {
  }

  lemma {:induction false} OtherFieldsAreNotForged(m: Memory)
    requires m.projectVersion >= 0 && m.memoryVersion >= 0
    requires HasNoSeparator(m.projectId) && HasNoSeparator(m.memoryId) && HasNoSeparator(m.revisionId)
    requires HasNoSeparator(m.scopeId)
    ensures ForgedFields(IdentityFields(m)) == None && ForgedFields(TaxonomyFields(m)) == None
  {
    FieldsAreNotForged(IdentityFields(m));
    FieldsAreNotForged(TaxonomyFields(m));
  }

  lemma {:induction false} UrisAreNotForged(project: string, memory: string, version: nat)
    requires IsSegment(project) && IsSegment(memory)
    ensures ForgedFields(UriFields(project, memory, version)) == None
  {
    UriHasNoSeparator(project, memory, version);
    FieldsAreNotForged(UriFields(project, memory, version));
  }

  lemma {:induction false} FirstForged(fs: seq<Field>, t: Text)
    requires fs != [] && ForgedValue(fs[0].value) == Some(t)
    ensures ForgedFields(fs) == Some(t)
  {
  }

  lemma {:induction false} DisguisedFields(d: Digest, content: Text)
    ensures ForgedFields(MemoryFields(DisguisedMemory(d, content), "p", "m")) == Some(Lit(d))
  {
    var m := DisguisedMemory(d, content);
    WordHasNoSeparator("p");
    WordHasNoSeparator("m");
    WordHasNoSeparator("r");
    OtherFieldsAreNotForged(m);
    UrisAreNotForged("p", "m", 1);
    DisguiseIsForged(d);
    FirstForged(ValidityFields(m), Lit(d));
    ForgedConcat(IdentityFields(m), UriFields("p", "m", 1));
    ForgedConcat(TaxonomyFields(m), ValidityFields(m));
    ForgedConcat(IdentityFields(m) + UriFields("p", "m", 1), TaxonomyFields(m) + ValidityFields(m));
  }

  lemma {:induction false} PathLength(cs: seq<string>, n: nat)
    requires |cs| > 0 && forall i :: 0 <= i < |cs| ==> |cs[i]| <= n
    ensures |Path(cs)| <= |cs| * (n + 1)
  {
    if |cs| > 1 {
      PathLength(cs[1..], n);
    }
  }

  lemma {:induction false} ShortScope()
    ensures HasScopeKey(Root("p", "s"), Lit("p"))
  {
    WordSegment("p");
    var cs := PrefixParts(Root("p", "s")) + Parts(ScopePlace(Lit("p")));
    assert forall i :: 0 <= i < |cs| ==> |cs[i]| <= 11;
    PathLength(cs, 11);
  }

  lemma {:induction false} DisguisedIsEncodable(d: Digest, content: Text)
    ensures IsEncodable(DisguisedMemory(d, content))
  {
    var m := DisguisedMemory(d, content);
    WordSegment("p");
    WordSegment("s");
    WordSegment("m");
    WordSegment("r");
    DisguiseIsIdentifier(d);
    assert KINDS[1] == "fact" && CLASSES[0] == "semantic" && SCOPES[0] == "project" && STATUSES[0] == "active";
    assert ValidMemory(m);
  }

  lemma {:induction false} DisguiseIsIdentifier(d: Digest)
    ensures IsIdentifier(Disguised(d))
  {
    forall k | 0 <= k < 64 ensures Lit(d)[k] != 0 {
      assert IsHexDigit(d[k]);
    }
    assert 0 !in STAMP && 0 !in Lit(d);
  }

  lemma {:induction false} DisguisedIsBuildable(d: Digest, content: Text)
    ensures IsBuildable(DisguisedInput(d, content))
  {
    var input, m := DisguisedInput(d, content), DisguisedMemory(d, content);
    DisguisedIsEncodable(d, content);
    WordSegment("p");
    WordSegment("s");
    ShortScope();
    assert input.heads[0] == m && input.revisions[0] == m;
    assert IsCurrent(m, input.heads) && HasRevision(m, input.revisions);
    assert ValidInput(input);
  }

  lemma {:induction false} DigestsDiffer(a: Digest, b: Digest)
    ensures Lit(a) == Lit(b) ==> a == b
  {
    if Lit(a) == Lit(b) {
      assert SnapshotKeys.IsAscii(a) && SnapshotKeys.IsAscii(b);
      SnapshotKeys.LitInjective(a, b);
    }
  }

  lemma {:induction false} DisguisedIsNotHonest(js: Platform, d: Digest, content: Text)
    requires d != js.sha256(content) && IsEncodable(DisguisedMemory(d, content))
    ensures !HeadIsHonest(js, DisguisedMemory(d, content))
  {
    WordSegment("p");
    WordSegment("m");
    DisguisedFields(d, content);
    DigestsDiffer(d, js.sha256(content));
  }

  /** A start of validity that holds any checksum but the right one between two U+2028 makes the plan invalid. */
  lemma {:induction false} ForgedChecksumFails(js: Platform, d: Digest, content: Text)
    requires IsLawful(js) && d != js.sha256(content)
    ensures IsBuildable(DisguisedInput(d, content)) && !PlanIsValid(js, PlanOf(js, DisguisedInput(d, content)))
  {
    var input := DisguisedInput(d, content);
    DisguisedIsBuildable(d, content);
    DisguisedIsEncodable(d, content);
    DisguisedIsNotHonest(js, d, content);
    assert input.heads[0] == DisguisedMemory(d, content);
    BuiltPlanIsValidIff(js, input);
  }
}
