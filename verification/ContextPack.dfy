/** Packing excerpts into a token budget (src/search/pipeline.ts). */
module ContextPack {
  import opened Common
  import opened Unicode

  /** `Math.ceil(n / 4)` */
  function CeilQuarter(n: nat): nat {
    if n == 0 then 0 else if n <= 4 then 1 else 1 + CeilQuarter(n - 4)
  }

  lemma {:induction false} CeilQuarterIsCeiling(n: nat)
    ensures CeilQuarter(n) == (n + 3) / 4
  {
    if n > 4 {
      CeilQuarterIsCeiling(n - 4);
    }
  }

  lemma {:induction false} CeilQuarterSteps(n: nat)
    ensures CeilQuarter(n) <= CeilQuarter(n + 1) <= CeilQuarter(n) + 1
    ensures n > 0 ==> CeilQuarter(n) >= 1
  {
    if n > 4 {
      CeilQuarterSteps(n - 4);
    }
  }

  /** A run of ASCII split in two costs no less than the whole run. */
  lemma {:induction false} CeilQuarterSplit(m: nat, n: nat)
    ensures CeilQuarter(m) <= CeilQuarter(m + n) <= CeilQuarter(m) + CeilQuarter(n)
  {
    CeilQuarterIsCeiling(m);
    CeilQuarterIsCeiling(n);
    CeilQuarterIsCeiling(m + n);
  }

  /** Tokens counted so far, and the length of the ASCII run still open. */
  datatype Count = Count(tokens: nat, run: nat)

  function Add(k: Count, c: CodePoint): Count {
    if c <= 0x7F then Count(k.tokens, k.run + 1) else Count(k.tokens + CeilQuarter(k.run) + Utf8ByteLength(c), 0)
  }

  /** The count of the first n code points. */
  function CountTo(t: Text, n: nat): Count
    requires n <= |t|
  {
    if n == 0 then Count(0, 0) else Add(CountTo(t, n - 1), t[n - 1])
  }

  function Cost(k: Count): nat {
    k.tokens + CeilQuarter(k.run)
  }

  function AtLeastOne(n: nat): nat {
    if n == 0 then 1 else n
  }

  function PrefixTokens(t: Text, n: nat): nat
    requires n <= |t|
  {
    AtLeastOne(Cost(CountTo(t, n)))
  }

  function Tokens(t: Text): nat {
    PrefixTokens(t, |t|)
  }

  method EstimateTokens(content: Text) returns (n: nat)
    ensures n == Tokens(content)
  {
    var tokens: nat, run: nat := 0, 0;
    for k := 0 to |content|
      invariant Count(tokens, run) == CountTo(content, k)
    {
      if content[k] <= 0x7F {
        run := run + 1;
        continue;
      }
      tokens := tokens + CeilQuarter(run) + Utf8ByteLength(content[k]);
      run := 0;
    }
    n := AtLeastOne(tokens + CeilQuarter(run));
  }

  lemma {:induction false} CountsAgree(t: Text, u: Text, n: nat)
    requires n <= |t| && n <= |u| && forall i :: 0 <= i < n ==> t[i] == u[i]
    ensures CountTo(t, n) == CountTo(u, n)
  {
    if n > 0 {
      CountsAgree(t, u, n - 1);
    }
  }

  lemma {:induction false} TokensOfPrefix(t: Text, n: nat)
    requires n <= |t|
    ensures Tokens(t[..n]) == PrefixTokens(t, n)
  {
    CountsAgree(t[..n], t, n);
  }

  /**
   How counting b goes on from the count of a: either all of b still belongs to a's last ASCII run, or it does not.
   */
  predicate Continues(k: Count, l: Count, length: nat, m: Count) {
    if l.tokens == 0 && l.run == length then m == Count(k.tokens, k.run + length)
    else m.run == l.run && Cost(k) <= m.tokens <= Cost(k) + l.tokens
  }

  lemma {:induction false} ContinuesNext(k: Count, l: Count, length: nat, m: Count, c: CodePoint)
    requires Continues(k, l, length, m) && l.run <= length && (l.run == length <==> l.tokens == 0)
    ensures Continues(k, Add(l, c), length + 1, Add(m, c))
  {
    CeilQuarterSplit(k.run, l.run);
  }

  lemma {:induction false} ContinuesCost(k: Count, l: Count, length: nat, m: Count)
    requires Continues(k, l, length, m) && l.run <= length
    ensures Cost(k) <= Cost(m) <= Cost(k) + Cost(l)
  {
    CeilQuarterSplit(k.run, l.run);
  }

  lemma {:induction false} CountOfConcat(t: Text, b: Text, m: nat, n: nat)
    requires n <= |b| && m + n <= |t| && forall i :: 0 <= i < n ==> t[m + i] == b[i]
    ensures Continues(CountTo(t, m), CountTo(b, n), n, CountTo(t, m + n))
    ensures CountTo(b, n).run <= n && (CountTo(b, n).run == n <==> CountTo(b, n).tokens == 0)
  {
    if n > 0 {
      CountOfConcat(t, b, m, n - 1);
      ContinuesNext(CountTo(t, m), CountTo(b, n - 1), n - 1, CountTo(t, m + n - 1), b[n - 1]);
    }
  }

  /** The estimate of a concatenation is at most the sum of the estimates. */
  lemma {:induction false} TokensSubadditive(a: Text, b: Text)
    ensures Tokens(a + b) <= Tokens(a) + Tokens(b)
  {
    CountOfConcat(a + b, b, |a|, |b|);
    ContinuesCost(CountTo(a + b, |a|), CountTo(b, |b|), |b|, CountTo(a + b, |a| + |b|));
    CountsAgree(a + b, a, |a|);
  }

  /** A longer prefix never costs less. */
  lemma {:induction false} TokensMonotone(t: Text, m: nat, n: nat)
    requires m <= n <= |t|
    ensures PrefixTokens(t, m) <= PrefixTokens(t, n)
  {
    CountOfConcat(t, t[m..n], m, n - m);
    ContinuesCost(CountTo(t, m), CountTo(t[m..n], n - m), n - m, CountTo(t, n));
  }

  // ----- Truncation

  function LongestFrom(content: Text, budget: nat, n: nat): (k: nat)
    requires n <= |content|
    ensures k <= n
  {
    if n == 0 || PrefixTokens(content, n) <= budget then n else LongestFrom(content, budget, n - 1)
  }

  function Truncated(content: Text, budget: nat): Text {
    content[..LongestFrom(content, budget, |content|)]
  }

  lemma {:induction false} LongestIsLongest(content: Text, budget: nat, n: nat)
    requires n <= |content| && budget >= 1
    ensures PrefixTokens(content, LongestFrom(content, budget, n)) <= budget
    ensures forall m :: LongestFrom(content, budget, n) < m <= n ==> PrefixTokens(content, m) > budget
  {
    if n > 0 && PrefixTokens(content, n) > budget {
      LongestIsLongest(content, budget, n - 1);
    }
  }

  lemma {:induction false} FitsUpToLongest(content: Text, budget: nat, n: nat)
    requires n <= |content| && budget >= 1
    ensures PrefixTokens(content, n) <= budget <==> n <= LongestFrom(content, budget, |content|)
  {
    var k := LongestFrom(content, budget, |content|);
    LongestIsLongest(content, budget, |content|);
    if n <= k {
      TokensMonotone(content, n, k);
    }
  }

  lemma {:induction false} TruncatedFits(content: Text, budget: nat)
    requires budget >= 1
    ensures Tokens(Truncated(content, budget)) <= budget
  {
    FitsUpToLongest(content, budget, LongestFrom(content, budget, |content|));
    TokensOfPrefix(content, LongestFrom(content, budget, |content|));
  }

  /** The truncated text is the longest prefix within the budget. */
  lemma {:induction false} TruncatedIsLongestPrefix(content: Text, budget: nat, n: nat)
    requires n <= |content| && budget >= 1
    ensures Tokens(Truncated(content, budget)) <= budget
    ensures Tokens(content[..n]) <= budget <==> n <= |Truncated(content, budget)|
  {
    TruncatedFits(content, budget);
    FitsUpToLongest(content, budget, n);
    TokensOfPrefix(content, n);
  }

  lemma {:induction false} OnlyOneLongest(content: Text, budget: nat, k: nat)
    requires k <= |content| && budget >= 1 && PrefixTokens(content, k) <= budget
    requires k < |content| ==> PrefixTokens(content, k + 1) > budget
    ensures Truncated(content, budget) == content[..k]
  {
    FitsUpToLongest(content, budget, k);
    if k < |content| {
      FitsUpToLongest(content, budget, k + 1);
    }
  }

  /** `Math.ceil((lower + upper) / 2)` */
  function Midpoint(lower: nat, upper: nat): (m: nat)
    requires lower < upper
    ensures lower < m <= upper
  {
    (lower + upper + 1) / 2
  }

  /** `truncateToTokenBudget`, a binary search over prefixes. */
  method TruncateToTokenBudget(content: Text, budget: nat) returns (excerpt: Text)
    requires budget >= 1
    ensures excerpt == Truncated(content, budget)
  {
    var whole := EstimateTokens(content);
    if whole <= budget {
      OnlyOneLongest(content, budget, |content|);
      assert content[..|content|] == content;
      return content;
    }
    var longest := SearchLongest(content, budget);
    excerpt := content[..longest];
  }

  method SearchLongest(content: Text, budget: nat) returns (longest: nat)
    requires budget >= 1
    ensures longest == LongestFrom(content, budget, |content|)
  {
    ghost var sought := LongestFrom(content, budget, |content|);
    var lower: nat, upper: nat := 0, |content|;
    while lower < upper
      invariant lower <= sought <= upper <= |content|
    {
      var midpoint := Midpoint(lower, upper);
      var estimate := EstimatePrefix(content, midpoint);
      FitsUpToLongest(content, budget, midpoint);
      if estimate <= budget {
        lower := midpoint;
      } else {
        upper := midpoint - 1;
      }
    }
    longest := lower;
  }

  method EstimatePrefix(content: Text, n: nat) returns (tokens: nat)
    requires n <= |content|
    ensures tokens == PrefixTokens(content, n)
  {
    TokensOfPrefix(content, n);
    tokens := EstimateTokens(content[..n]);
  }

  // ----- Packing

  /** A candidate by its rendered citation, trailing space included, and its chunk. */
  datatype Candidate = Candidate(citation: Text, chunk: Text)

  datatype Entry = Entry(citation: Text, excerpt: Text)

  const SEPARATOR: Text := [0x0A, 0x0A]

  function Rendered(e: Entry): Text {
    e.citation + e.excerpt
  }

  /** `buildContextPack` */
  function Pack(entries: seq<Entry>): Text {
    if entries == [] then []
    else if |entries| == 1 then Rendered(entries[0])
    else Pack(entries[..|entries| - 1]) + SEPARATOR + Rendered(entries[|entries| - 1])
  }

  function Fit(c: Candidate, budget: int): Option<Entry> {
    var excerptBudget := budget - Tokens(c.citation);
    if excerptBudget < 1 then None
    else
      var excerpt := Truncated(c.chunk, excerptBudget);
      if excerpt == [] then None
      else if Tokens(c.citation + excerpt) <= budget then Some(Entry(c.citation, excerpt))
      else None
  }

  /** The final estimate check never rejects: an entry fits whenever any of its chunk does. */
  lemma {:induction false} FinalCheckNeverRejects(c: Candidate, budget: int)
    ensures Fit(c, budget).Some? <==>
      budget - Tokens(c.citation) >= 1 && Truncated(c.chunk, budget - Tokens(c.citation)) != []
  {
    var excerptBudget := budget - Tokens(c.citation);
    if excerptBudget >= 1 {
      ExcerptFits(c.citation, c.chunk, excerptBudget);
    }
  }

  lemma {:induction false} ExcerptFits(citation: Text, chunk: Text, budget: nat)
    requires budget >= 1
    ensures Tokens(citation + Truncated(chunk, budget)) <= Tokens(citation) + budget
  {
    TruncatedFits(chunk, budget);
    TokensSubadditive(citation, Truncated(chunk, budget));
  }

  datatype Packing = Packing(entries: seq<Entry>, consumed: nat)

  function Separator(p: Packing): nat {
    if p.entries == [] then 0 else Tokens(SEPARATOR)
  }

  function Left(p: Packing, budget: nat): int {
    budget - p.consumed - Separator(p)
  }

  function PackOne(p: Packing, c: Candidate, limit: nat, budget: nat): Packing {
    if |p.entries| == limit then p
    else
      var e := Fit(c, Left(p, budget));
      if e == None then p
      else Packing(p.entries + [e.value], p.consumed + Separator(p) + Tokens(Rendered(e.value)))
  }

  function PackAll(candidates: seq<Candidate>, limit: nat, budget: nat): Packing {
    if candidates == [] then Packing([], 0)
    else PackOne(PackAll(candidates[..|candidates| - 1], limit, budget), candidates[|candidates| - 1], limit, budget)
  }

  lemma {:induction false} FullStaysFull(candidates: seq<Candidate>, limit: nat, budget: nat, n: nat)
    requires n <= |candidates| && |PackAll(candidates[..n], limit, budget).entries| == limit
    ensures PackAll(candidates, limit, budget) == PackAll(candidates[..n], limit, budget)
    decreases |candidates|
  {
    if n < |candidates| {
      assert candidates[..|candidates| - 1][..n] == candidates[..n];
      FullStaysFull(candidates[..|candidates| - 1], limit, budget, n);
    } else {
      assert candidates[..n] == candidates;
    }
  }

  /** The packing loop of the search pipeline. */
  method PackContext(candidates: seq<Candidate>, limit: nat, budget: nat) returns (entries: seq<Entry>, pack: Text)
    ensures entries == PackAll(candidates, limit, budget).entries && pack == Pack(entries)
  {
    entries := [];
    var consumed: nat := 0;
    for n := 0 to |candidates|
      invariant Packing(entries, consumed) == PackAll(candidates[..n], limit, budget)
    {
      assert candidates[..n + 1][..n] == candidates[..n];
      if |entries| == limit {
        FullStaysFull(candidates, limit, budget, n);
        break;
      }
      var separator := if entries == [] then 0 else Tokens(SEPARATOR);
      var fitted := FitMemoryToContextBudget(candidates[n], budget - consumed - separator);
      if fitted == None {
        continue;
      }
      var estimated := EstimateTokens(Rendered(fitted.value));
      entries := entries + [fitted.value];
      consumed := consumed + separator + estimated;
    }
    assert candidates[..|candidates|] == candidates;
    pack := Pack(entries);
  }

  method FitMemoryToContextBudget(c: Candidate, budget: int) returns (e: Option<Entry>)
    ensures e == Fit(c, budget)
  {
    var citation := EstimateTokens(c.citation);
    if budget - citation < 1 {
      return None;
    }
    var excerpt := TruncateToTokenBudget(c.chunk, budget - citation);
    if excerpt == [] {
      return None;
    }
    var estimated := EstimateTokens(c.citation + excerpt);
    e := if estimated <= budget then Some(Entry(c.citation, excerpt)) else None;
  }

  lemma {:induction false} PackGrows(entries: seq<Entry>, e: Entry)
    ensures Tokens(Pack(entries + [e])) <=
      (if entries == [] then 0 else Tokens(Pack(entries)) + Tokens(SEPARATOR)) + Tokens(Rendered(e))
  {
    assert (entries + [e])[..|entries|] == entries;
    if entries != [] {
      TokensSubadditive(Pack(entries) + SEPARATOR, Rendered(e));
      TokensSubadditive(Pack(entries), SEPARATOR);
    }
  }

  /** However many candidates there are, the pack stays within the token budget and the result limit. */
  lemma {:induction false} PackFits(candidates: seq<Candidate>, limit: nat, budget: nat)
    ensures var p := PackAll(candidates, limit, budget);
      && |p.entries| <= limit && p.consumed <= budget
      && (p.entries != [] ==> Tokens(Pack(p.entries)) <= p.consumed)
  {
    if candidates != [] {
      var front, c := candidates[..|candidates| - 1], candidates[|candidates| - 1];
      PackFits(front, limit, budget);
      var p := PackAll(front, limit, budget);
      if |p.entries| < limit && Fit(c, Left(p, budget)).Some? {
        PackGrows(p.entries, Fit(c, Left(p, budget)).value);
      }
    }
  }

  /** Each packed excerpt is the longest prefix of its chunk that the budget left for it allows. */
  lemma {:induction false} ExcerptsAreLongest(candidates: seq<Candidate>, limit: nat, budget: nat, i: nat)
    returns (n: nat, left: nat)
    requires i < |PackAll(candidates, limit, budget).entries|
    ensures n < |candidates| && |PackAll(candidates[..n], limit, budget).entries| == i
    ensures left >= 1 && left + Tokens(candidates[n].citation) == Left(PackAll(candidates[..n], limit, budget), budget)
    ensures PackAll(candidates, limit, budget).entries[i] ==
      Entry(candidates[n].citation, Truncated(candidates[n].chunk, left))
    ensures PackAll(candidates, limit, budget).entries[i].excerpt != []
  {
    var last := |candidates| - 1;
    var front := candidates[..last];
    var p := PackAll(front, limit, budget);
    if i < |p.entries| {
      n, left := ExcerptsAreLongest(front, limit, budget, i);
      assert front[..n] == candidates[..n];
    } else {
      n := last;
      left := Left(p, budget) - Tokens(candidates[last].citation);
    }
  }

  // ----- The pack without its loop

  /** What entries cost, each but the first with a separator before it. */
  function Spent(entries: seq<Entry>): nat {
    if entries == [] then 0
    else
      var n := |entries| - 1;
      Spent(entries[..n]) + (if n == 0 then 0 else Tokens(SEPARATOR)) + Tokens(Rendered(entries[n]))
  }

  /** What is left for citation and excerpt after some entries. */
  function LeftAfter(entries: seq<Entry>, budget: nat): int {
    budget - Spent(entries) - (if entries == [] then 0 else Tokens(SEPARATOR))
  }

  /** The entry shows the citation and as much of the chunk as fits, which is something. */
  predicate Shows(e: Entry, c: Candidate, left: int) {
    && e.citation == c.citation && e.excerpt != [] && e.excerpt <= c.chunk
    && Tokens(c.citation) + Tokens(e.excerpt) <= left
    && (e.excerpt == c.chunk || Tokens(c.citation) + Tokens(c.chunk[..|e.excerpt| + 1]) > left)
  }

  /** Not even one code point of the chunk fits beside the citation. */
  predicate FitsNothing(c: Candidate, left: int) {
    c.chunk == [] || Tokens(c.citation) + Tokens(c.chunk[..1]) > left
  }

  /** The candidate is passed over when the first `i` entries are packed. */
  predicate IsPassedOver(
    candidates: seq<Candidate>, limit: nat, budget: nat, entries: seq<Entry>, picks: seq<nat>, n: nat, i: nat)
    requires n < |candidates| && i <= |entries| == |picks|
  {
    && (forall k :: 0 <= k < i ==> picks[k] < n) && (forall k :: i <= k < |picks| ==> n < picks[k])
    && (i == limit || FitsNothing(candidates[n], LeftAfter(entries[..i], budget)))
  }

  /** The entries show the picked candidates in order; a candidate is passed over only if it has to be. */
  ghost predicate IsGreedyPack(
    candidates: seq<Candidate>, limit: nat, budget: nat, entries: seq<Entry>, picks: seq<nat>)
  {
    && |entries| == |picks| <= limit
    && (forall i, j :: 0 <= i < j < |picks| ==> picks[i] < picks[j])
    && (forall i :: 0 <= i < |picks| ==>
          picks[i] < |candidates| && Shows(entries[i], candidates[picks[i]], LeftAfter(entries[..i], budget)))
    && (forall n :: 0 <= n < |candidates| && n !in picks ==>
          exists i :: 0 <= i <= |entries| && IsPassedOver(candidates, limit, budget, entries, picks, n, i))
  }

  lemma {:induction false} FitShows(c: Candidate, left: int)
    ensures match Fit(c, left)
            case Some(e) => Shows(e, c, left)
            case None => FitsNothing(c, left)
  {
    FinalCheckNeverRejects(c, left);
    var budget := left - Tokens(c.citation);
    if c.chunk != [] && budget >= 1 {
      TruncatedIsLongestPrefix(c.chunk, budget, 1);
      var n := |Truncated(c.chunk, budget)|;
      if n < |c.chunk| {
        TruncatedIsLongestPrefix(c.chunk, budget, n + 1);
      } else {
        TruncatedIsLongestPrefix(c.chunk, budget, n);
      }
    }
  }

  lemma {:induction false} ConsumedIsSpent(candidates: seq<Candidate>, limit: nat, budget: nat)
    ensures var p := PackAll(candidates, limit, budget);
      p.consumed == Spent(p.entries) && Left(p, budget) == LeftAfter(p.entries, budget)
  {
    if candidates != [] {
      var front, c := candidates[..|candidates| - 1], candidates[|candidates| - 1];
      ConsumedIsSpent(front, limit, budget);
      var p := PackAll(front, limit, budget);
      var e := Fit(c, Left(p, budget));
      if e.Some? {
        assert (p.entries + [e.value])[..|p.entries|] == p.entries;
      }
    }
  }

  lemma {:induction false} PassedOverStays(
    candidates: seq<Candidate>, c: Candidate, limit: nat, budget: nat, entries: seq<Entry>, picks: seq<nat>, n: nat,
    i: nat, e: Entry)
    requires n < |candidates| && i <= |entries| == |picks|
    requires IsPassedOver(candidates, limit, budget, entries, picks, n, i)
    ensures IsPassedOver(candidates + [c], limit, budget, entries, picks, n, i)
    ensures IsPassedOver(candidates + [c], limit, budget, entries + [e], picks + [|candidates|], n, i)
  {
    assert (entries + [e])[..i] == entries[..i];
  }

  lemma {:induction false} PackPassesOver(
    candidates: seq<Candidate>, c: Candidate, limit: nat, budget: nat, entries: seq<Entry>, picks: seq<nat>)
    requires IsGreedyPack(candidates, limit, budget, entries, picks)
    requires |entries| == limit || FitsNothing(c, LeftAfter(entries, budget))
    ensures IsGreedyPack(candidates + [c], limit, budget, entries, picks)
  {
    var all := candidates + [c];
    assert entries[..|entries|] == entries;
    forall n | 0 <= n < |all| && n !in picks
      ensures exists i :: 0 <= i <= |entries| && IsPassedOver(all, limit, budget, entries, picks, n, i)
    {
      if n == |candidates| {
        assert IsPassedOver(all, limit, budget, entries, picks, n, |entries|);
      } else {
        var i :| 0 <= i <= |entries| && IsPassedOver(candidates, limit, budget, entries, picks, n, i);
        PassedOverStays(candidates, c, limit, budget, entries, picks, n, i, Entry([], []));
      }
    }
  }

  lemma {:induction false} PackPicks(
    candidates: seq<Candidate>, c: Candidate, limit: nat, budget: nat, entries: seq<Entry>, picks: seq<nat>, e: Entry)
    requires IsGreedyPack(candidates, limit, budget, entries, picks) && |entries| < limit
    requires Shows(e, c, LeftAfter(entries, budget))
    ensures IsGreedyPack(candidates + [c], limit, budget, entries + [e], picks + [|candidates|])
  {
    var all, more, longer := candidates + [c], entries + [e], picks + [|candidates|];
    forall i | 0 <= i < |longer|
      ensures longer[i] < |all| && Shows(more[i], all[longer[i]], LeftAfter(more[..i], budget))
    {
      assert more[..i] == entries[..i];
      assert i == |entries| ==> entries[..i] == entries;
    }
    forall n | 0 <= n < |all| && n !in longer
      ensures exists i :: 0 <= i <= |more| && IsPassedOver(all, limit, budget, more, longer, n, i)
    {
      assert n != |candidates| by { assert longer[|picks|] == |candidates|; }
      assert n !in picks by { assert forall k :: 0 <= k < |picks| ==> longer[k] == picks[k]; }
      var i :| 0 <= i <= |entries| && IsPassedOver(candidates, limit, budget, entries, picks, n, i);
      PassedOverStays(candidates, c, limit, budget, entries, picks, n, i, e);
    }
  }

  /**
   Packing is greedy: the pack shows candidates in order, each with the longest excerpt that fits, and a candidate is
   passed over only if the result limit is reached or not one code point of its chunk fits beside its citation.
   */
  lemma {:induction false} PackIsGreedy(candidates: seq<Candidate>, limit: nat, budget: nat) returns (picks: seq<nat>)
    ensures IsGreedyPack(candidates, limit, budget, PackAll(candidates, limit, budget).entries, picks)
  {
    if candidates == [] {
      picks := [];
    } else {
      var front, c := candidates[..|candidates| - 1], candidates[|candidates| - 1];
      assert candidates == front + [c];
      picks := PackIsGreedy(front, limit, budget);
      var p := PackAll(front, limit, budget);
      ConsumedIsSpent(front, limit, budget);
      FitShows(c, Left(p, budget));
      var e := Fit(c, Left(p, budget));
      if |p.entries| == limit || e.None? {
        PackPassesOver(front, c, limit, budget, p.entries, picks);
      } else {
        PackPicks(front, c, limit, budget, p.entries, picks, e.value);
        picks := picks + [|front|];
      }
    }
  }

  // ----- What a text costs

  function Raw(t: Text): nat {
    Cost(CountTo(t, |t|))
  }

  lemma {:induction false} CountOfAscii(t: Text, n: nat)
    requires n <= |t| && forall i :: 0 <= i < n ==> t[i] < 0x80
    ensures CountTo(t, n) == Count(0, n)
  {
    if n > 0 {
      CountOfAscii(t, n - 1);
    }
  }

  lemma {:induction false} CountAfterWide(a: Text, c: CodePoint, b: Text, n: nat)
    requires c >= 0x80 && n <= |b|
    ensures CountTo(a + [c] + b, |a| + 1 + n) ==
      Count(Raw(a) + Utf8ByteLength(c) + CountTo(b, n).tokens, CountTo(b, n).run)
  {
    var t := a + [c] + b;
    if n == 0 {
      CountsAgree(t, a, |a|);
    } else {
      CountAfterWide(a, c, b, n - 1);
    }
  }

  /** Four ASCII characters in a row, or what is left of them, are a token; any other character is one for each byte. */
  lemma {:induction false} CostByRuns(a: Text, c: CodePoint, b: Text)
    ensures Tokens(a) == AtLeastOne(Raw(a))
    ensures (forall i :: 0 <= i < |a| ==> a[i] < 0x80) ==> Raw(a) == (|a| + 3) / 4
    ensures c >= 0x80 ==> Raw(a + [c] + b) == Raw(a) + Utf8ByteLength(c) + Raw(b)
  {
    if forall i :: 0 <= i < |a| ==> a[i] < 0x80 {
      CountOfAscii(a, |a|);
      CeilQuarterIsCeiling(|a|);
    }
    if c >= 0x80 {
      CountAfterWide(a, c, b, |b|);
    }
  }
}
