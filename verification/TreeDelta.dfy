/**
 GitHub tree manifests and the four delta statements between two of them
 (src/github/tree-manifest-sql.ts, migrations/0011_github_tree_manifests.sql).
 */
module TreeDelta {
  import opened Common

  /** A 256-bit digest, as its number. */
  type Digest = nat
  type ManifestId = Digest
  type Path = Digest

  datatype Disposition = Text | BinaryExcluded | GeneratedExcluded | SensitiveTombstone | Partial

  datatype Entry = Entry(blob: Digest, disposition: Disposition, safePath: Option<string>, byteSize: nat)

  type Entries = map<Path, Entry>

  /** What a delta row records about one side of a path. */
  datatype Value = Value(blob: Digest, disposition: Disposition)

  type Tree = map<Path, Value>

  datatype Kind = Added | Changed | Withdrawn | Deleted

  datatype DeltaId = DeltaId(kind: Kind, prior: Option<ManifestId>, next: ManifestId, path: Path)

  datatype Delta = Delta(
    kind: Kind, prior: Option<ManifestId>, next: ManifestId, path: Path, safePath: Option<string>,
    before: Option<Value>, after: Option<Value>)

  type DeltaTable = map<DeltaId, Delta>

  function ValueOf(e: Entry): Value {
    Value(e.blob, e.disposition)
  }

  function TreeOf(entries: Entries): Tree {
    map p | p in entries :: ValueOf(entries[p])
  }

  predicate Excluded(d: Disposition) {
    d.BinaryExcluded? || d.GeneratedExcluded? || d.SensitiveTombstone?
  }

  predicate Withdraws(prior: Entry, next: Entry) {
    prior.disposition == Text && Excluded(next.disposition)
  }

  /** The identifier of an `added` row leaves the old manifest out. */
  function AddedRows(prior: Option<ManifestId>, next: ManifestId, before: Entries, after: Entries): DeltaTable {
    map p | p in after && (prior == None || p !in before) ::
      DeltaId(Added, None, next, p) := Delta(Added, prior, next, p, after[p].safePath, None, Some(ValueOf(after[p])))
  }

  function ChangedRows(prior: ManifestId, next: ManifestId, before: Entries, after: Entries): DeltaTable {
    map p | p in after && p in before
            && (before[p].blob != after[p].blob || before[p].disposition != after[p].disposition)
            && !Withdraws(before[p], after[p]) ::
      DeltaId(Changed, Some(prior), next, p) :=
        Delta(Changed, Some(prior), next, p, after[p].safePath, Some(ValueOf(before[p])), Some(ValueOf(after[p])))
  }

  function WithdrawnRows(prior: ManifestId, next: ManifestId, before: Entries, after: Entries): DeltaTable {
    map p | p in after && p in before && Withdraws(before[p], after[p]) ::
      DeltaId(Withdrawn, Some(prior), next, p) :=
        Delta(Withdrawn, Some(prior), next, p, None, Some(ValueOf(before[p])), Some(ValueOf(after[p])))
  }

  function DeletedRows(prior: ManifestId, next: ManifestId, before: Entries, after: Entries): DeltaTable {
    map p | p in before && p !in after ::
      DeltaId(Deleted, Some(prior), next, p) :=
        Delta(Deleted, Some(prior), next, p, before[p].safePath, Some(ValueOf(before[p])), None)
  }

  /** All the rows one activation writes; without an old manifest only the `added` statement is sent. */
  function DeltaRows(prior: Option<ManifestId>, next: ManifestId, before: Entries, after: Entries): DeltaTable {
    var added := AddedRows(prior, next, before, after);
    if prior == None then added
    else added + ChangedRows(prior.value, next, before, after) + WithdrawnRows(prior.value, next, before, after)
           + DeletedRows(prior.value, next, before, after)
  }

  /** The rows of the log that belong to one step between two manifests. */
  ghost function StepRows(log: DeltaTable, prior: Option<ManifestId>, next: ManifestId): set<Delta> {
    set id | id in log && log[id].prior == prior && log[id].next == next :: log[id]
  }

  ghost predicate HasRow(rows: set<Delta>, p: Path) {
    exists d :: d in rows && d.path == p
  }

  ghost predicate OneRowPerPath(rows: set<Delta>) {
    forall d, e :: d in rows && e in rows && d.path == e.path ==> d == e
  }

  ghost function RowAt(rows: set<Delta>, p: Path): (d: Delta)
    requires HasRow(rows, p)
    ensures d in rows && d.path == p
  {
    var d :| d in rows && d.path == p; d
  }

  ghost function After(tree: Tree, rows: set<Delta>, p: Path): Option<Value> {
    if HasRow(rows, p) then RowAt(rows, p).after
    else if p in tree then Some(tree[p]) else None
  }

  /** Replaying a step's rows on a tree. */
  ghost function Replay(tree: Tree, rows: set<Delta>): Tree {
    map p | p in tree.Keys + (set d | d in rows :: d.path) && After(tree, rows, p).Some? ::
      After(tree, rows, p).value
  }

  ghost function TreeBefore(prior: Option<ManifestId>, before: Entries): Tree {
    if prior == None then map[] else TreeOf(before)
  }

  function ValueAt(tree: Tree, p: Path): Option<Value> {
    if p in tree then Some(tree[p]) else None
  }

  function KindAt(was: Tree, becomes: Tree, p: Path): Option<Kind> {
    if p !in was then (if p in becomes then Some(Added) else None)
    else if p !in becomes then Some(Deleted)
    else if was[p].disposition == Text && Excluded(becomes[p].disposition) then Some(Withdrawn)
    else if was[p] != becomes[p] then Some(Changed)
    else None
  }

  function IdAt(kind: Kind, prior: Option<ManifestId>, next: ManifestId, p: Path): DeltaId {
    DeltaId(kind, if kind == Added then None else prior, next, p)
  }

  /** A table holding exactly one row for every path whose value differs between the trees. */
  ghost predicate DescribesStep(table: DeltaTable, prior: Option<ManifestId>, next: ManifestId, was: Tree,
    becomes: Tree)
  {
    && (forall id :: id in table ==>
          && KindAt(was, becomes, id.path) == Some(id.kind)
          && id == IdAt(id.kind, prior, next, id.path)
          && table[id].kind == id.kind && table[id].prior == prior && table[id].next == next
          && table[id].path == id.path
          && table[id].before == ValueAt(was, id.path) && table[id].after == ValueAt(becomes, id.path))
    && (forall p :: KindAt(was, becomes, p).Some? ==> IdAt(KindAt(was, becomes, p).value, prior, next, p) in table)
  }

  ghost predicate RecordsBoth(d: Delta, id: DeltaId, prior: Option<ManifestId>, was: Tree, becomes: Tree) {
    && d.kind == id.kind && d.prior == prior && d.next == id.next && d.path == id.path
    && d.before == ValueAt(was, id.path) && d.after == ValueAt(becomes, id.path)
  }

  /** One statement's rows: exactly the ids of its kind. */
  ghost predicate IsStatement(rows: DeltaTable, kind: Kind, prior: Option<ManifestId>, next: ManifestId,
                              was: Tree, becomes: Tree)
  {
    && (forall id :: id in rows ==>
          && id == IdAt(kind, prior, next, id.path)
          && KindAt(was, becomes, id.path) == Some(kind)
          && RecordsBoth(rows[id], id, prior, was, becomes))
    && (forall p :: KindAt(was, becomes, p) == Some(kind) ==> IdAt(kind, prior, next, p) in rows)
  }

  lemma {:induction false} AddedStatement(prior: Option<ManifestId>, next: ManifestId, before: Entries, after: Entries)
    ensures IsStatement(AddedRows(prior, next, before, after), Added, prior, next,
                        TreeBefore(prior, before), TreeOf(after))
  {
  }

  lemma {:induction false} ChangedStatement(prior: ManifestId, next: ManifestId, before: Entries, after: Entries)
    ensures IsStatement(ChangedRows(prior, next, before, after), Changed, Some(prior), next,
                        TreeOf(before), TreeOf(after))
  {
  }

  lemma {:induction false} WithdrawnStatement(prior: ManifestId, next: ManifestId, before: Entries, after: Entries)
    ensures IsStatement(WithdrawnRows(prior, next, before, after), Withdrawn, Some(prior), next,
                        TreeOf(before), TreeOf(after))
  {
  }

  lemma {:induction false} DeletedStatement(prior: ManifestId, next: ManifestId, before: Entries, after: Entries)
    ensures IsStatement(DeletedRows(prior, next, before, after), Deleted, Some(prior), next,
                        TreeOf(before), TreeOf(after))
  {
  }

  lemma {:induction false} UnionOfStatements(a: DeltaTable, c: DeltaTable, w: DeltaTable, d: DeltaTable,
                          prior: Option<ManifestId>, next: ManifestId, was: Tree, becomes: Tree)
    requires IsStatement(a, Added, prior, next, was, becomes) && IsStatement(c, Changed, prior, next, was, becomes)
    requires IsStatement(w, Withdrawn, prior, next, was, becomes) && IsStatement(d, Deleted, prior, next, was, becomes)
    ensures DescribesStep(a + c + w + d, prior, next, was, becomes)
  {
    var table := a + c + w + d;
    forall p | KindAt(was, becomes, p).Some? ensures IdAt(KindAt(was, becomes, p).value, prior, next, p) in table {
      var kind := KindAt(was, becomes, p).value;
      var id := IdAt(kind, prior, next, p);
      assert id in (match kind case Added => a case Changed => c case Withdrawn => w case Deleted => d);
    }
    forall id | id in table
      ensures KindAt(was, becomes, id.path) == Some(id.kind) && id == IdAt(id.kind, prior, next, id.path)
      ensures RecordsBoth(table[id], id, prior, was, becomes)
    {
      if id in d {
      } else if id in w {
      } else if id in c {
      } else {
        assert id in a;
      }
    }
  }

  lemma {:induction false} DeltaRowsDescribeStep(prior: Option<ManifestId>, next: ManifestId, before: Entries,
    after: Entries)
    ensures DescribesStep(DeltaRows(prior, next, before, after), prior, next, TreeBefore(prior, before), TreeOf(after))
  {
    var was, becomes := TreeBefore(prior, before), TreeOf(after);
    AddedStatement(prior, next, before, after);
    if prior == None {
      assert forall p :: KindAt(was, becomes, p) in {None, Some(Added)};
      forall p | KindAt(was, becomes, p).Some?
        ensures IdAt(Added, prior, next, p) in AddedRows(prior, next, before, after) {
        assert IdAt(Added, prior, next, p).path == p;
      }
    } else {
      ChangedStatement(prior.value, next, before, after);
      WithdrawnStatement(prior.value, next, before, after);
      DeletedStatement(prior.value, next, before, after);
      UnionOfStatements(AddedRows(prior, next, before, after), ChangedRows(prior.value, next, before, after),
                        WithdrawnRows(prior.value, next, before, after), DeletedRows(prior.value, next, before, after),
                        prior, next, was, becomes);
    }
  }

  lemma {:induction false} RowsOfStep(table: DeltaTable, prior: Option<ManifestId>, next: ManifestId, was: Tree,
    becomes: Tree)
    requires DescribesStep(table, prior, next, was, becomes)
    ensures OneRowPerPath(table.Values)
    ensures forall p :: HasRow(table.Values, p) <==> KindAt(was, becomes, p).Some?
    ensures forall d :: d in table.Values ==> d.before == ValueAt(was, d.path) && d.after == ValueAt(becomes, d.path)
  {
    forall d | d in table.Values
      ensures KindAt(was, becomes, d.path) == Some(d.kind)
      ensures IdAt(d.kind, prior, next, d.path) in table && table[IdAt(d.kind, prior, next, d.path)] == d
      ensures d.before == ValueAt(was, d.path) && d.after == ValueAt(becomes, d.path)
    {
      var id :| id in table && table[id] == d;
    }
    forall p | KindAt(was, becomes, p).Some? ensures HasRow(table.Values, p) {
      var id := IdAt(KindAt(was, becomes, p).value, prior, next, p);
      assert table[id] in table.Values && table[id].path == p;
    }
  }

  lemma {:induction false} StepCoversDifferences(table: DeltaTable, prior: Option<ManifestId>, next: ManifestId,
    was: Tree, becomes: Tree,
                              p: Path)
    requires DescribesStep(table, prior, next, was, becomes)
    ensures OneRowPerPath(table.Values)
    ensures HasRow(table.Values, p) <==> ValueAt(was, p) != ValueAt(becomes, p)
    ensures HasRow(table.Values, p) ==>
      RowAt(table.Values, p).before == ValueAt(was, p) && RowAt(table.Values, p).after == ValueAt(becomes, p)
  {
    RowsOfStep(table, prior, next, was, becomes);
  }

  /**
   The four statements split the differing paths between them: a path has a row exactly when its (blob, disposition)
   differs, never two, and the row records both sides.
   */
  lemma {:induction false} DeltaRowsCoverDifferences(prior: Option<ManifestId>, next: ManifestId, before: Entries,
    after: Entries, p: Path)
    ensures var rows := DeltaRows(prior, next, before, after).Values;
      var was, becomes := ValueAt(TreeBefore(prior, before), p), ValueAt(TreeOf(after), p);
      && OneRowPerPath(rows)
      && (HasRow(rows, p) <==> was != becomes)
      && (HasRow(rows, p) ==> (RowAt(rows, p).before == was && RowAt(rows, p).after == becomes))
  {
    DeltaRowsDescribeStep(prior, next, before, after);
    StepCoversDifferences(DeltaRows(prior, next, before, after), prior, next, TreeBefore(prior, before), TreeOf(after),
      p);
  }

  /** What a row of one path should say, told by what the path was and has become. */
  predicate IsNamedAs(d: Delta, was: Option<Entry>, becomes: Option<Entry>) {
    if was.None? then d.kind == Added && becomes.Some? && d.safePath == becomes.value.safePath
    else if becomes.None? then d.kind == Deleted && d.safePath == was.value.safePath
    else if was.value.disposition == Text && Excluded(becomes.value.disposition) then
      d.kind == Withdrawn && d.safePath == None
    else d.kind == Changed && d.safePath == becomes.value.safePath
  }

  function EntryAt(entries: Entries, p: Path): Option<Entry> {
    if p in entries then Some(entries[p]) else None
  }

  ghost predicate AreNamed(rows: DeltaTable, prior: Option<ManifestId>, next: ManifestId, before: Entries,
    after: Entries)
  {
    forall id :: id in rows ==>
      && rows[id].prior == prior && rows[id].next == next
      && IsNamedAs(rows[id], if prior == None then None else EntryAt(before, rows[id].path),
           EntryAt(after, rows[id].path))
  }

  lemma {:induction false} AddedAreNamed(prior: Option<ManifestId>, next: ManifestId, before: Entries, after: Entries)
    ensures AreNamed(AddedRows(prior, next, before, after), prior, next, before, after)
  {
  }

  lemma {:induction false} ChangedAreNamed(prior: ManifestId, next: ManifestId, before: Entries, after: Entries)
    ensures AreNamed(ChangedRows(prior, next, before, after), Some(prior), next, before, after)
  {
  }

  lemma {:induction false} WithdrawnAreNamed(prior: ManifestId, next: ManifestId, before: Entries, after: Entries)
    ensures AreNamed(WithdrawnRows(prior, next, before, after), Some(prior), next, before, after)
  {
  }

  lemma {:induction false} DeletedAreNamed(prior: ManifestId, next: ManifestId, before: Entries, after: Entries)
    ensures AreNamed(DeletedRows(prior, next, before, after), Some(prior), next, before, after)
  {
  }

  lemma {:induction false} UnionIsNamed(a: DeltaTable, b: DeltaTable, prior: Option<ManifestId>, next: ManifestId,
    before: Entries, after: Entries)
    requires AreNamed(a, prior, next, before, after) && AreNamed(b, prior, next, before, after)
    ensures AreNamed(a + b, prior, next, before, after)
  {
  }

  /** A row names its path as the new manifest does, or as the old one did; what is withdrawn is not named any more. */
  lemma {:induction false} DeltaRowsNamePaths(prior: Option<ManifestId>, next: ManifestId, before: Entries,
    after: Entries)
    ensures AreNamed(DeltaRows(prior, next, before, after), prior, next, before, after)
  {
    var added := AddedRows(prior, next, before, after);
    AddedAreNamed(prior, next, before, after);
    if prior.Some? {
      var changed := ChangedRows(prior.value, next, before, after);
      var withdrawn := WithdrawnRows(prior.value, next, before, after);
      ChangedAreNamed(prior.value, next, before, after);
      WithdrawnAreNamed(prior.value, next, before, after);
      DeletedAreNamed(prior.value, next, before, after);
      UnionIsNamed(added, changed, prior, next, before, after);
      UnionIsNamed(added + changed, withdrawn, prior, next, before, after);
      UnionIsNamed(added + changed + withdrawn, DeletedRows(prior.value, next, before, after), prior, next, before,
        after);
    }
  }

  lemma {:induction false} ReplayOfStep(table: DeltaTable, prior: Option<ManifestId>, next: ManifestId, was: Tree,
    becomes: Tree)
    requires DescribesStep(table, prior, next, was, becomes)
    ensures Replay(was, table.Values) == becomes
  {
    RowsOfStep(table, prior, next, was, becomes);
    var replayed := Replay(was, table.Values);
    forall p ensures After(was, table.Values, p) == ValueAt(becomes, p) {
      if HasRow(table.Values, p) {
        assert RowAt(table.Values, p).path == p;
      }
    }
    forall p ensures p in replayed <==> p in becomes {
      if p in becomes && p !in was {
        assert RowAt(table.Values, p).path == p;
      }
    }
  }

  /** Replaying a step's rows turns the old manifest's tree into the new one's. */
  lemma {:induction false} ReplayReachesNewTree(prior: Option<ManifestId>, next: ManifestId, before: Entries,
    after: Entries)
    ensures Replay(TreeBefore(prior, before), DeltaRows(prior, next, before, after).Values) == TreeOf(after)
  {
    DeltaRowsDescribeStep(prior, next, before, after);
    ReplayOfStep(DeltaRows(prior, next, before, after), prior, next, TreeBefore(prior, before), TreeOf(after));
  }

  /** A log keyed by its own manifests gives back what a step wrote, if the step's new manifest is fresh to it. */
  lemma {:induction false} StepRowsOfInsertion(log: DeltaTable, rows: DeltaTable, prior: Option<ManifestId>,
    next: ManifestId)
    requires forall id :: id in log ==> id.next == log[id].next != next
    requires forall id :: id in rows ==> id.next == rows[id].next == next && rows[id].prior == prior
    ensures StepRows(log + rows, prior, next) == rows.Values
    ensures forall o, n :: n != next ==> StepRows(log + rows, o, n) == StepRows(log, o, n)
  {
    var grown := log + rows;
    assert forall id :: id in rows ==> id in grown && grown[id] == rows[id];
    assert forall id :: id in log ==> id in grown && grown[id] == log[id];
    forall d ensures d in StepRows(grown, prior, next) <==> d in rows.Values {
    }
    forall o, n, d | n != next ensures d in StepRows(grown, o, n) <==> d in StepRows(log, o, n) {
    }
  }
}
