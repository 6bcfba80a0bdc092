/** The tables of the Markdown indexes, read back line by line: a memory has a row exactly where it belongs. */
module SnapshotTables {
  import opened Common
  import opened JsonText
  import opened ProjectionPaths
  import opened ProjectionEnvelope
  import opened SnapshotInput
  import opened SnapshotPlan
  import opened SnapshotResults
  import opened SnapshotIndexes
  import opened SnapshotEntries
  import CanonicalJson
  import Decimal
  import SnapshotKeys

  const BLANK: Unit := 0x20

  // ----- Lines

  function Lines(t: Text): (r: seq<Text>)
    ensures r != []
  {
    if t == [] then [[]]
    else
      var rest := Lines(t[1..]);
      if t[0] == NEWLINE then [[]] + rest else [[t[0]] + rest[0]] + rest[1..]
  }

  lemma {:induction false} OneLine(line: Text)
    requires NoNewline(line)
    ensures Lines(line) == [line]
  {
    if line != [] {
      OneLine(line[1..]);
      assert line == [line[0]] + line[1..];
    }
  }

  lemma {:induction false} LineAndMore(line: Text, t: Text)
    requires NoNewline(line)
    ensures Lines(line + [NEWLINE] + t) == [line] + Lines(t)
  {
    var all := line + [NEWLINE] + t;
    if line == [] {
      assert all[1..] == t;
    } else {
      LineAndMore(line[1..], t);
      assert all[1..] == line[1..] + [NEWLINE] + t;
      assert line == [line[0]] + line[1..];
    }
  }

  lemma {:induction false} JoinedLines(lines: seq<Text>)
    requires lines != [] && forall i :: 0 <= i < |lines| ==> NoNewline(lines[i])
    ensures Lines(JoinLines(lines)) == lines
  {
    if |lines| == 1 {
      OneLine(lines[0]);
    } else {
      JoinedLines(lines[1..]);
      LineAndMore(lines[0], JoinLines(lines[1..]));
      assert lines == [lines[0]] + lines[1..];
    }
  }

  lemma {:induction false} JoinSplits(a: seq<Text>, b: seq<Text>)
    requires a != [] && b != []
    ensures JoinLines(a + b) == JoinLines(a) + [NEWLINE] + JoinLines(b)
  {
    if |a| == 1 {
      assert (a + b)[1..] == b;
    } else {
      JoinSplits(a[1..], b);
      assert (a + b)[1..] == a[1..] + b;
      assert JoinLines(a + b) == a[0] + [NEWLINE] + (JoinLines(a[1..]) + [NEWLINE] + JoinLines(b));
    }
  }

  // ----- Rows

  predicate IsText(s: string) {
    forall k :: 0 <= k < |s| ==> 0x20 < s[k] as int < 0x7F
  }

  const SHORTEST_URI: nat := 30

  /** Nothing but the identifier can break a line. */
  predicate IsRowEntry(e: IndexEntry) {
    && IsText(e.status) && e.status != "" && IsText(e.canonicalUri) && |e.canonicalUri| >= SHORTEST_URI
    && e.memoryId != []
  }

  lemma {:induction false} CellHasNoNewline(s: Text)
    ensures NoNewline(TableCell(s))
  {
    if s != [] {
      CellHasNoNewline(s[1..]);
    }
  }

  lemma {:induction false} PlainHasNoNewline(s: string)
    requires IsPlain(s)
    ensures NoNewline(Lit(s))
  {
  }

  lemma {:induction false} ConcatHasNoNewline(a: Text, b: Text)
    requires NoNewline(a) && NoNewline(b)
    ensures NoNewline(a + b)
  {
  }

  /** All of a row but its address and its end. */
  function RowFront(e: IndexEntry): Text {
    Lit("| ") + TableCell(e.memoryId) + Lit(" | ") + SnapshotPlan.Number(e.memoryVersion) + Lit(" | ")
      + Lit(e.status) + Lit(" |")
  }

  lemma {:induction false} RowParts(e: IndexEntry)
    ensures EntryRow(e) == RowFront(e) + [BLANK] + Lit(e.canonicalUri) + Lit(" |")
  {
    assert Lit(" | ") == Lit(" |") + [BLANK];
  }

  lemma {:induction false} RowIsOneLine(e: IndexEntry)
    requires IsRowEntry(e)
    ensures NoNewline(EntryRow(e))
  {
    RowParts(e);
    CellHasNoNewline(e.memoryId);
    DigitsArePlain(if e.memoryVersion >= 0 then e.memoryVersion else 0);
    PlainHasNoNewline(Decimal.Print(if e.memoryVersion >= 0 then e.memoryVersion else 0));
    assert NoNewline(Lit("| ")) && NoNewline(Lit(" | ")) && NoNewline(Lit(" |"));
    assert NoNewline(RowFront(e));
    assert NoNewline(Lit(e.canonicalUri));
  }

  /** What follows the last blank. */
  function LastWord(t: Text): Text {
    if t == [] || t[|t| - 1] == BLANK then [] else LastWord(t[..|t| - 1]) + [t[|t| - 1]]
  }

  lemma {:induction false} LastWordOf(before: Text, word: Text)
    requires BLANK !in word
    ensures LastWord(before + [BLANK] + word) == word
  {
    var t := before + [BLANK] + word;
    if word != [] {
      var n := |word| - 1;
      LastWordOf(before, word[..n]);
      assert t[..|t| - 1] == before + [BLANK] + word[..n];
      assert word == word[..n] + [word[n]];
    }
  }

  function Address(row: Text): Text {
    if |row| < 2 then [] else LastWord(row[..|row| - 2])
  }

  lemma {:induction false} RowTellsAddress(e: IndexEntry)
    requires IsRowEntry(e)
    ensures Address(EntryRow(e)) == Lit(e.canonicalUri)
  {
    RowParts(e);
    var row := EntryRow(e);
    assert row[..|row| - 2] == RowFront(e) + [BLANK] + Lit(e.canonicalUri);
    LastWordOf(RowFront(e), Lit(e.canonicalUri));
  }

  // ----- Tables

  /** The text ends in a table with these rows, and nothing else. */
  ghost predicate EndsInTable(body: Text, rows: seq<Text>) {
    exists n :: 0 <= n <= |body| && Lines(body[n..]) == rows + [[]]
  }

  const COLUMNS: string := "| Memory | Version | Status | Canonical URI |"

  lemma {:induction false} JoinedIsPlain(a: string, b: string, s: string)
    requires IsPlain(a) && IsPlain(b) && s == a + b
    ensures IsPlain(s)
  {
  }

  lemma {:induction false} FirstColumns()
    ensures IsPlain("| Memory | Version |")
  {
  }

  lemma {:induction false} LastColumns()
    ensures IsPlain(" Status | Canonical URI |")
  {
  }

  lemma {:induction false} AllColumns()
    ensures COLUMNS == "| Memory | Version |" + " Status | Canonical URI |"
  {
  }

  lemma {:induction false} ColumnsAreOneLine()
    ensures NoNewline(Lit(COLUMNS))
  {
    AllColumns();
    FirstColumns();
    LastColumns();
    JoinedIsPlain("| Memory | Version |", " Status | Canonical URI |", COLUMNS);
    PlainHasNoNewline(COLUMNS);
  }

  lemma {:induction false} RulesAreOneLine()
    ensures NoNewline(Lit("_No memories._")) && NoNewline(Lit("| --- | ---: | --- | --- |"))
  {
    PlainHasNoNewline("_No memories._");
    PlainHasNoNewline("| --- | ---: | --- | --- |");
  }

  lemma {:induction false} RowsAreLines(entries: seq<IndexEntry>)
    requires forall i :: 0 <= i < |entries| ==> IsRowEntry(entries[i])
    ensures var rows := EntryRows(entries); forall i :: 0 <= i < |rows| ==> NoNewline(rows[i])
  {
    ColumnsAreOneLine();
    RulesAreOneLine();
    if entries != [] {
      var rows := EntryRows(entries);
      assert rows[0] == Lit(COLUMNS);
      forall i | 2 <= i < |rows| ensures NoNewline(rows[i]) {
        RowIsOneLine(entries[i - 2]);
      }
    }
  }

  lemma {:induction false} IndexEndsInTable(input: Input, dimension: string, value: string, entries: seq<IndexEntry>)
    requires forall i :: 0 <= i < |entries| ==> IsRowEntry(entries[i])
    ensures EndsInTable(MarkdownIndex(input, dimension, value, entries), EntryRows(entries))
  {
    var title := [HASH] + Lit(" Memories by ") + Lit(dimension) + Lit(": ") + Lit(value) + [NEWLINE];
    var first := [[], Coded("Project: ", input.projectId), [],
                  Coded("Project version: ", SnapshotPlan.Number(input.projectVersion)), []];
    var table := EntryRows(entries) + [[]];
    var body := MarkdownIndex(input, dimension, value, entries);
    assert first + EntryRows(entries) + [[]] == first + table;
    JoinSplits(first, table);
    var front := title + (JoinLines(first) + [NEWLINE]);
    assert body == front + JoinLines(table);
    assert body[|front|..] == JoinLines(table);
    RowsAreLines(entries);
    JoinedLines(table);
  }

  // ----- Who has a row

  lemma {:induction false} RowIsLong(e: IndexEntry)
    requires IsRowEntry(e)
    ensures |EntryRow(e)| > |COLUMNS|
  {
    CellIsNotShorter(e.memoryId);
    Decimal.PrintIsCanonical(if e.memoryVersion >= 0 then e.memoryVersion else 0);
    assert |SnapshotPlan.Number(e.memoryVersion)| >= 1;
    RowParts(e);
  }

  lemma {:induction false} CellIsNotShorter(s: Text)
    ensures |TableCell(s)| >= |s|
  {
    if s != [] {
      CellIsNotShorter(s[1..]);
    }
  }

  predicate UrisDiffer(entries: seq<IndexEntry>) {
    forall a, b :: a in entries && b in entries && Lit(a.canonicalUri) == Lit(b.canonicalUri) ==> a == b
  }

  lemma {:induction false} RowAt(shown: seq<IndexEntry>, k: nat)
    requires shown != [] && k < |shown| + 2
    ensures |EntryRows(shown)| == |shown| + 2
    ensures k >= 2 ==> EntryRows(shown)[k] == EntryRow(shown[k - 2])
    ensures k < 2 ==> |EntryRows(shown)[k]| <= |COLUMNS|
  {
  }

  lemma {:induction false} RowIsOfShown(shown: seq<IndexEntry>, e: IndexEntry) returns (of: IndexEntry)
    requires IsRowEntry(e) && EntryRow(e) in EntryRows(shown) && forall x :: x in shown ==> IsRowEntry(x)
    ensures of in shown && Lit(of.canonicalUri) == Lit(e.canonicalUri)
  {
    RowIsLong(e);
    assert shown != [];
    var k :| 0 <= k < |EntryRows(shown)| && EntryRows(shown)[k] == EntryRow(e);
    RowAt(shown, 0);
    RowAt(shown, k);
    of := shown[k - 2];
    RowTellsAddress(e);
    RowTellsAddress(of);
  }

  lemma {:induction false} ShownHasRow(shown: seq<IndexEntry>, e: IndexEntry)
    requires e in shown
    ensures EntryRow(e) in EntryRows(shown)
  {
    var i :| 0 <= i < |shown| && shown[i] == e;
    RowAt(shown, i + 2);
    assert EntryRows(shown)[i + 2] == EntryRow(e);
  }

  /** Among entries with different addresses, a table has the rows of exactly those it is made of. */
  lemma {:induction false} RowIsShownIff(all: seq<IndexEntry>, shown: seq<IndexEntry>, e: IndexEntry)
    requires (forall x :: x in all ==> IsRowEntry(x)) && UrisDiffer(all)
    requires e in all && forall x :: x in shown ==> x in all
    ensures EntryRow(e) in EntryRows(shown) <==> e in shown
  {
    if e in shown {
      ShownHasRow(shown, e);
    }
    if EntryRow(e) in EntryRows(shown) {
      var of := RowIsOfShown(shown, e);
    }
  }

  lemma {:induction false} UriIsText(project: string, memory: string)
    requires IsSegment(project) && IsSegment(memory)
    ensures IsText(MemoryUri(project, memory)) && |MemoryUri(project, memory)| >= SHORTEST_URI
  {
    assert IsText("memory://projects/") && IsText("/memories/") && IsText(project) && IsText(memory);
  }

  lemma {:induction false} UriTellsMemory(project: string, memory: string, other: string)
    requires MemoryUri(project, memory) == MemoryUri(project, other)
    ensures memory == other
  {
    var front := "memory://projects/" + project + "/memories/";
    assert MemoryUri(project, memory)[|front|..] == memory;
    assert MemoryUri(project, other)[|front|..] == other;
  }

  lemma {:induction false} EntryIsRowEntry(js: Platform, ws: seq<Write>, m: Memory, e: IndexEntry)
    requires IsEncodable(m) && IsEntryOf(js, ws, m, e)
    ensures IsRowEntry(e)
  {
    UriIsText(Segment(m.projectId).value, Segment(m.memoryId).value);
    WordsArePlain(m.status);
  }

  lemma {:induction false} SameUriIsSameMemory(
    js: Platform, ws: seq<Write>, m: Memory, e: IndexEntry, m': Memory, e': IndexEntry)
    requires IsEncodable(m) && IsEncodable(m') && IsEntryOf(js, ws, m, e) && IsEntryOf(js, ws, m', e')
    requires m.projectId == m'.projectId && Lit(e.canonicalUri) == Lit(e'.canonicalUri)
    ensures m.memoryId == m'.memoryId
  {
    UriIsText(Segment(m.projectId).value, Segment(m.memoryId).value);
    UriIsText(Segment(m'.projectId).value, Segment(m'.memoryId).value);
    SnapshotKeys.LitInjective(e.canonicalUri, e'.canonicalUri);
    UriTellsMemory(Segment(m.projectId).value, Segment(m.memoryId).value, Segment(m'.memoryId).value);
    SegmentInjective(m.memoryId, m'.memoryId);
  }

  // ----- The tables of a plan

  lemma {:induction false} EntriesAreRows(js: Platform, ws: seq<Write>, ms: seq<Memory>, entries: seq<IndexEntry>)
    requires TellMemories(js, ws, ms, entries)
    ensures forall e :: e in entries ==> IsRowEntry(e)
  {
    forall e | e in entries ensures IsRowEntry(e) {
      var i :| 0 <= i < |entries| && entries[i] == e;
      EntryIsRowEntry(js, ws, ms[i], entries[i]);
    }
  }

  lemma {:induction false} IdIsItsOwn(ms: seq<Memory>, i: nat, j: nat)
    requires IdsAscend(ms) && i < |ms| && j < |ms|
    ensures ms[i].memoryId == ms[j].memoryId ==> i == j
  {
    CanonicalJson.LessIsTotal(ms[i].memoryId, ms[j].memoryId);
  }

  lemma {:induction false} UriIsItsOwn(
    js: Platform, ws: seq<Write>, ms: seq<Memory>, entries: seq<IndexEntry>, i: nat, j: nat)
    requires TellMemories(js, ws, ms, entries) && IdsAscend(ms) && i < |ms| && j < |ms|
    requires ms[i].projectId == ms[j].projectId && Lit(entries[i].canonicalUri) == Lit(entries[j].canonicalUri)
    ensures i == j
  {
    IdIsItsOwn(ms, i, j);
    SameUriIsSameMemory(js, ws, ms[i], entries[i], ms[j], entries[j]);
  }

  lemma {:induction false} UrisOfOrdered(js: Platform, ws: seq<Write>, ms: seq<Memory>, entries: seq<IndexEntry>)
    requires TellMemories(js, ws, ms, entries) && IdsAscend(ms)
    requires forall i, j :: 0 <= i < |ms| && 0 <= j < |ms| ==> ms[i].projectId == ms[j].projectId
    ensures UrisDiffer(entries)
  {
    forall a, b | a in entries && b in entries && Lit(a.canonicalUri) == Lit(b.canonicalUri) ensures a == b {
      var i :| 0 <= i < |entries| && entries[i] == a;
      var j :| 0 <= j < |entries| && entries[j] == b;
      UriIsItsOwn(js, ws, ms, entries, i, j);
    }
  }

  lemma {:induction false} OneProject(input: Input, ms: seq<Memory>)
    requires ValidInput(input) && multiset(ms) == multiset(input.heads)
    ensures forall i :: 0 <= i < |ms| ==> ms[i].projectId == input.projectId
  {
    forall i | 0 <= i < |ms| ensures ms[i].projectId == input.projectId {
      assert ms[i] in multiset(input.heads);
      assert ms[i] in input.heads;
    }
  }

  lemma {:induction false} SelectedIsShown(
    all: seq<IndexEntry>, shown: seq<IndexEntry>, dimension: string, value: string)
    requires (forall e :: e in all ==> IsRowEntry(e)) && UrisDiffer(all)
    requires shown == Selected(all, dimension, Lit(value))
    ensures forall e :: e in all ==> (EntryRow(e) in EntryRows(shown) <==> HasValue(e, dimension, Lit(value)))
    ensures forall e :: e in shown ==> IsRowEntry(e)
  {
    forall e ensures e in shown <==> e in all && HasValue(e, dimension, Lit(value)) {
      SelectedHas(all, dimension, Lit(value), e);
    }
    forall e | e in all ensures EntryRow(e) in EntryRows(shown) <==> HasValue(e, dimension, Lit(value)) {
      RowIsShownIff(all, shown, e);
    }
  }

  lemma {:induction false} ManifestEntriesAreRows(js: Platform, input: Input, d: Document)
    requires IsLawful(js) && IsBuildable(input)
    requires IsManifestOf(js, InputRoot(input), PlanOf(js, input).writes, d)
    ensures (forall e :: e in d.memories ==> IsRowEntry(e)) && UrisDiffer(d.memories)
  {
    var heads, revisions := ManifestTellsMemories(js, input, d);
    OneProject(input, heads);
    EntriesAreRows(js, PlanOf(js, input).writes, heads, d.memories);
    UrisOfOrdered(js, PlanOf(js, input).writes, heads, d.memories);
  }

  lemma {:induction false} ManifestIsExact(js: Platform, input: Input, d: Document)
    requires IsLawful(js) && IsBuildable(input)
    requires IsManifestOf(js, InputRoot(input), PlanOf(js, input).writes, d)
    ensures IndexesAreExact(js, InputRoot(input), input, d.memories, PlanOf(js, input).writes)
  {
    var built := IndexesSortMemories(js, input);
    BuiltKeysDiffer(js, input);
    ManifestIsUnique(js, InputRoot(input), PlanOf(js, input).writes, d, built);
  }

  lemma {:induction false} TableOf(
    root: Root, input: Input, all: seq<IndexEntry>, w: Write, dimension: string, value: string)
    returns (rows: seq<Text>)
    requires (forall e :: e in all ==> IsRowEntry(e)) && UrisDiffer(all)
    requires IsMarkdownIndexOf(root, input, all, w, dimension, value)
    ensures EndsInTable(w.body, rows)
    ensures forall e :: e in all ==> (EntryRow(e) in rows <==> HasValue(e, dimension, Lit(value)))
  {
    var shown := Selected(all, dimension, Lit(value));
    SelectedIsShown(all, shown, dimension, value);
    rows := EntryRows(shown);
    IndexEndsInTable(input, dimension, value, shown);
  }

  lemma {:induction false} WriteOfIndex(
    js: Platform, root: Root, input: Input, all: seq<IndexEntry>, ws: seq<Write>, dimension: string, value: string)
    returns (w: Write)
    requires IndexesAreExact(js, root, input, all, ws) && IsIndexedInMarkdown(dimension, value)
    ensures w in ws && IsMarkdownIndexOf(root, input, all, w, dimension, value)
  {
    assert HasMarkdownIndexOf(root, input, all, ws, dimension, value);
    w :| w in ws && IsMarkdownIndexOf(root, input, all, w, dimension, value);
  }

  /** The Markdown index of a kind or class ends in a table in which exactly the memories of the word have a row. */
  lemma {:induction false} TablesShowMemories(js: Platform, input: Input, d: Document, dimension: string, value: string)
    returns (w: Write, rows: seq<Text>)
    requires IsLawful(js) && IsBuildable(input) && IsIndexedInMarkdown(dimension, value)
    requires IsManifestOf(js, InputRoot(input), PlanOf(js, input).writes, d)
    ensures w in PlanOf(js, input).writes && w.key == IndexKey(InputRoot(input), dimension, value, "index.md")
    ensures EndsInTable(w.body, rows)
    ensures forall e :: e in d.memories ==> (EntryRow(e) in rows <==> HasValue(e, dimension, Lit(value)))
  {
    ManifestIsExact(js, input, d);
    ManifestEntriesAreRows(js, input, d);
    w := WriteOfIndex(js, InputRoot(input), input, d.memories, PlanOf(js, input).writes, dimension, value);
    rows := TableOf(InputRoot(input), input, d.memories, w, dimension, value);
  }
}
