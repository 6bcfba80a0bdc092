/**
 Publishing a project's projection snapshots: create-once objects, then one activation batch
 (src/projection/cloudflare.ts, migrations/0001_initial.sql).
 */
module SnapshotActivation {
  import opened Common

  type Version = nat

  /**
   A plan's files with their contents' checksums; the manifest lists exactly these, so its checksum tells the files.
   */
  type Files = map<nat, nat>

  datatype Key = FileKey(version: Version, name: nat) | ManifestKey(version: Version)

  datatype Digest = Content(checksum: nat) | ManifestOf(files: Files)

  datatype Status = Building | Ready | Active | Superseded | Failed

  /** The snapshot's identifier is the project's and the version's, so rows are keyed by version. */
  datatype Row = Row(status: Status, manifest: Files)

  datatype Tables = Tables(version: Version, active: Option<Version>, rows: map<Version, Row>)

  predicate IsTarget(rows: map<Version, Row>, v: Version) {
    v in rows && rows[v].status in {Ready, Active}
  }

  function Readied(rows: map<Version, Row>, v: Version, manifest: Files): map<Version, Row> {
    if v !in rows then rows[v := Row(Ready, manifest)]
    else if rows[v].status in {Active, Superseded} then rows
    else rows[v := Row(Ready, manifest)]
  }

  function OthersSuperseded(rows: map<Version, Row>, v: Version): map<Version, Row> {
    map w | w in rows :: if w != v && rows[w].status == Active then rows[w].(status := Superseded) else rows[w]
  }

  /** The activation batch as a whole. */
  function Activated(t: Tables, v: Version, manifest: Files): Tables {
    if t.version != v then t
    else
      var rows := Readied(t.rows, v, manifest);
      if IsTarget(rows, v)
      then Tables(v, Some(v), OthersSuperseded(rows, v)[v := rows[v].(status := Active)])
      else if t.active == Some(v) then t.(rows := rows[v := rows[v].(status := Active)])
      else t.(rows := rows)
  }

  class ProjectionDb {
    var version: Version
    var active: Option<Version>
    var rows: map<Version, Row>

    function Snapshot(): Tables
      reads this
    {
      Tables(version, active, rows)
    }

    /** The four statements of `activateSnapshot` in order. */
    method ActivateSnapshot(v: Version, manifest: Files) returns (activated: bool)
      modifies this
      ensures Snapshot() == Activated(old(Snapshot()), v, manifest)
      ensures activated == old(version == v && IsTarget(Readied(rows, v, manifest), v))
      ensures activated ==> active == Some(v) && v in rows && rows[v].status == Active
    {
      if version == v && (v !in rows || rows[v].status !in {Active, Superseded}) {
        rows := rows[v := Row(Ready, manifest)];
      }
      if version == v && IsTarget(rows, v) {
        rows := OthersSuperseded(rows, v);
      }
      var pointed := version == v && IsTarget(rows, v);
      if pointed {
        active := Some(v);
      }
      var marked := v in rows && version == v && active == Some(v);
      if marked {
        rows := rows[v := rows[v].(status := Active)];
      }
      activated := pointed && marked;
    }
  }

  // ----- Runs

  /** A publisher works from the plan it built from its own reads, whatever others built for the same version. */
  datatype Publisher = Publisher(version: Version, files: Files, done: set<Key>)

  datatype State = State(tables: Tables, objects: map<Key, Digest>, publishers: map<nat, Publisher>)

  datatype Event =
    | Bump
    | Start(id: nat, files: Files)
    | Put(id: nat, key: Key)
    | Activate(id: nat)
    | Stop(id: nat)

  function Planned(v: Version, files: Files, key: Key): Option<Digest> {
    match key
    case FileKey(w, name) => if w == v && name in files then Some(Content(files[name])) else None
    case ManifestKey(w) => if w == v then Some(ManifestOf(files)) else None
  }

  /** Everything planned has been stored or found stored. */
  predicate IsComplete(p: Publisher) {
    ManifestKey(p.version) in p.done && forall name :: name in p.files ==> FileKey(p.version, name) in p.done
  }

  /** An object is created once; a publisher that finds another checksum in its place fails. */
  function PutStep(s: State, id: nat, key: Key): State {
    if id !in s.publishers || Planned(s.publishers[id].version, s.publishers[id].files, key) == None then s
    else
      var p := s.publishers[id];
      var digest := Planned(p.version, p.files, key).value;
      if key in s.objects && s.objects[key] != digest then s.(publishers := s.publishers - {id})
      else
        s.(objects := s.objects[key := digest],
           publishers := s.publishers[id := p.(done := p.done + {key})])
  }

  /** A publisher reads the version before and after its rows. */
  function Step(s: State, e: Event): State {
    match e
    case Bump => s.(tables := s.tables.(version := s.tables.version + 1))
    case Start(id, files) =>
      if id in s.publishers then s
      else s.(publishers := s.publishers[id := Publisher(s.tables.version, files, {})])
    case Put(id, key) => PutStep(s, id, key)
    case Activate(id) =>
      if id in s.publishers && IsComplete(s.publishers[id])
      then s.(tables := Activated(s.tables, s.publishers[id].version, s.publishers[id].files))
      else s
    case Stop(id) => s.(publishers := s.publishers - {id})
  }

  ghost function Run(events: seq<Event>): State
    decreases |events|
  {
    if events == [] then State(Tables(0, None, map[]), map[], map[])
    else Step(Run(events[..|events| - 1]), events[|events| - 1])
  }

  ghost predicate Stored(v: Version, files: Files, objects: map<Key, Digest>) {
    forall k :: Planned(v, files, k).Some? ==> k in objects && objects[k] == Planned(v, files, k).value
  }

  ghost predicate RowsOk(t: Tables) {
    && (forall v :: v in t.rows ==> v <= t.version && t.rows[v].status in {Ready, Active, Superseded})
    && (forall v :: v in t.rows && t.rows[v].status == Active <==> t.active == Some(v))
    && (forall v :: v in t.rows && t.rows[v].status == Superseded ==> t.active.Some? && v < t.active.value)
  }

  ghost predicate PublisherOk(s: State, p: Publisher) {
    && p.version <= s.tables.version
    && forall k :: k in p.done ==>
         && Planned(p.version, p.files, k).Some? && k in s.objects
           && s.objects[k] == Planned(p.version, p.files, k).value
  }

  ghost predicate Inv(s: State) {
    && RowsOk(s.tables)
    && (forall v :: v in s.tables.rows ==> Stored(v, s.tables.rows[v].manifest, s.objects))
    && (forall id :: id in s.publishers ==> PublisherOk(s, s.publishers[id]))
  }

  /** Rows keep their manifest, except the activated one, which may get its publisher's. */
  ghost predicate ManifestsKept(t: Tables, u: Tables, v: Version, manifest: Files) {
    forall w :: w in u.rows ==>
      || (w in t.rows && u.rows[w].manifest == t.rows[w].manifest)
      || (w == v && u.rows[w].manifest == manifest)
  }

  lemma {:induction false} ActivationKeepsManifests(t: Tables, v: Version, manifest: Files)
    ensures ManifestsKept(t, Activated(t, v, manifest), v, manifest)
  {
    var rows := Readied(t.rows, v, manifest);
    assert ManifestsKept(t, t.(rows := rows), v, manifest);
  }

  lemma {:induction false} SwitchKeepsRows(t: Tables, v: Version, rows: map<Version, Row>)
    requires RowsOk(t) && v == t.version && IsTarget(rows, v) && rows.Keys == t.rows.Keys + {v}
    requires forall w :: w in rows && w != v ==> rows[w] == t.rows[w]
    ensures RowsOk(Tables(v, Some(v), OthersSuperseded(rows, v)[v := rows[v].(status := Active)]))
  {
  }

  lemma {:induction false} ActivationKeepsRows(t: Tables, v: Version, manifest: Files)
    requires RowsOk(t) && v <= t.version
    ensures RowsOk(Activated(t, v, manifest))
  {
    if t.version == v {
      var rows := Readied(t.rows, v, manifest);
      if IsTarget(rows, v) {
        SwitchKeepsRows(t, v, rows);
      }
    }
  }

  lemma {:induction false} CompleteIsStored(s: State, p: Publisher)
    requires PublisherOk(s, p) && IsComplete(p)
    ensures Stored(p.version, p.files, s.objects)
  {
    forall k | Planned(p.version, p.files, k).Some?
      ensures k in s.objects && s.objects[k] == Planned(p.version, p.files, k).value
    {
      assert k in p.done;
    }
  }

  lemma {:induction false} ActivateKeepsInv(s: State, id: nat)
    requires Inv(s)
    ensures Inv(Step(s, Activate(id)))
  {
    if id in s.publishers && IsComplete(s.publishers[id]) {
      var p := s.publishers[id];
      assert PublisherOk(s, p);
      CompleteIsStored(s, p);
      ActivationKeepsRows(s.tables, p.version, p.files);
      ActivationKeepsManifests(s.tables, p.version, p.files);
      var u := Step(s, Activate(id));
      forall i | i in u.publishers ensures PublisherOk(u, u.publishers[i]) {
        assert PublisherOk(s, s.publishers[i]);
      }
    }
  }

  ghost predicate Kept(before: map<Key, Digest>, after: map<Key, Digest>) {
    forall k :: k in before ==> k in after && after[k] == before[k]
  }

  lemma {:induction false} PutKeepsInv(s: State, id: nat, key: Key)
    requires Inv(s)
    ensures Inv(Step(s, Put(id, key))) && Kept(s.objects, Step(s, Put(id, key)).objects)
  {
    var u := Step(s, Put(id, key));
    assert Kept(s.objects, u.objects);
    forall i | i in u.publishers ensures PublisherOk(u, u.publishers[i]) {
      assert PublisherOk(s, s.publishers[i]);
    }
    forall v | v in u.tables.rows ensures Stored(v, u.tables.rows[v].manifest, u.objects) {
      assert Stored(v, s.tables.rows[v].manifest, s.objects);
    }
  }

  lemma {:induction false} StepKeepsInv(s: State, e: Event)
    requires Inv(s)
    ensures Inv(Step(s, e))
  {
    match e
    case Activate(id) => ActivateKeepsInv(s, id);
    case Put(id, key) => PutKeepsInv(s, id, key);
    case _ =>
      var u := Step(s, e);
      forall i | i in u.publishers ensures PublisherOk(u, u.publishers[i]) {
        assert i in s.publishers ==> PublisherOk(s, s.publishers[i]);
      }
  }

  lemma {:induction false} RunsKeepInv(events: seq<Event>)
    ensures Inv(Run(events))
  {
    if events != [] {
      RunsKeepInv(events[..|events| - 1]);
      StepKeepsInv(Run(events[..|events| - 1]), events[|events| - 1]);
    }
  }

  /**
   At most one snapshot is active, and the project points to exactly that one; all objects its manifest lists are
   stored with the checksums it gives, and so is the manifest.
   */
  lemma {:induction false} ActivePointerIsExact(events: seq<Event>, v: Version)
    ensures var s := Run(events);
      && (s.tables.active == Some(v) <==> v in s.tables.rows && s.tables.rows[v].status == Active)
      && (s.tables.active == Some(v) ==> Stored(v, s.tables.rows[v].manifest, s.objects))
  {
    RunsKeepInv(events);
  }

  /** Of publishers that built different plans for one version, at most one gets all its objects stored. */
  lemma {:induction false} CompletePlansAgree(events: seq<Event>, a: nat, b: nat)
    requires a in Run(events).publishers && b in Run(events).publishers
    requires IsComplete(Run(events).publishers[a]) && IsComplete(Run(events).publishers[b])
    requires Run(events).publishers[a].version == Run(events).publishers[b].version
    ensures Run(events).publishers[a].files == Run(events).publishers[b].files
  {
    RunsKeepInv(events);
    var s := Run(events);
    var p, q := s.publishers[a], s.publishers[b];
    assert PublisherOk(s, p) && PublisherOk(s, q);
    assert s.objects[ManifestKey(p.version)] == ManifestOf(p.files) == ManifestOf(q.files);
  }

  ghost predicate Later(s: State, u: State) {
    && (s.tables.active.Some? ==> u.tables.active.Some? && s.tables.active.value <= u.tables.active.value)
    && (forall v :: v in s.tables.rows && s.tables.rows[v].status == Superseded ==>
          v in u.tables.rows && u.tables.rows[v].status == Superseded)
    && Kept(s.objects, u.objects)
  }

  lemma {:induction false} StepIsLater(s: State, e: Event)
    requires Inv(s)
    ensures Later(s, Step(s, e))
  {
    if e.Put? {
      PutKeepsInv(s, e.id, e.key);
    } else if e.Activate? && e.id in s.publishers {
      assert PublisherOk(s, s.publishers[e.id]);
    }
  }

  /** The active version never decreases, a superseded snapshot stays superseded, and stored objects never change. */
  lemma {:induction false} RunsOnlyAdvance(events: seq<Event>, i: nat)
    requires i <= |events|
    ensures Later(Run(events[..i]), Run(events))
    decreases |events|
  {
    if i == |events| {
      assert events[..i] == events;
    } else {
      var earlier := events[..|events| - 1];
      assert earlier[..i] == events[..i];
      RunsOnlyAdvance(earlier, i);
      RunsKeepInv(earlier);
      StepIsLater(Run(earlier), events[|events| - 1]);
    }
  }

  /** In a reachable state the current version is not superseded, and if it is active its files are the publisher's. */
  lemma {:induction false} CurrentVersion(s: State, p: Publisher)
    requires Inv(s) && PublisherOk(s, p) && IsComplete(p) && p.version == s.tables.version
    ensures p.version in s.tables.rows ==>
      s.tables.rows[p.version].status != Superseded && s.tables.rows[p.version].manifest == p.files
  {
    if p.version in s.tables.rows {
      var row := s.tables.rows[p.version];
      assert Stored(p.version, row.manifest, s.objects);
      assert Planned(p.version, row.manifest, ManifestKey(p.version)) == Some(ManifestOf(row.manifest));
      assert s.objects[ManifestKey(p.version)] == ManifestOf(p.files);
    }
  }

  /**
   A publisher switches the project to its snapshot exactly if everything it planned is stored and no newer version
   exists; whatever was active is superseded then, and nothing else changes.
   */
  lemma {:induction false} ActivatesIff(events: seq<Event>, id: nat)
    requires id in Run(events).publishers
    ensures var s := Run(events); var p, t, n := s.publishers[id], s.tables, Step(s, Activate(id)).tables;
      if p.version == t.version && ManifestKey(p.version) in p.done
         && forall name :: name in p.files ==> FileKey(p.version, name) in p.done
      then
        && n == Tables(t.version, Some(p.version), n.rows) && n.rows.Keys == t.rows.Keys + {p.version}
        && n.rows[p.version] == Row(Active, p.files)
        && forall v :: v in t.rows && v != p.version ==>
             n.rows[v] == if t.active == Some(v) then Row(Superseded, t.rows[v].manifest) else t.rows[v]
      else n == t
  {
    RunsKeepInv(events);
    var s := Run(events);
    var p := s.publishers[id];
    assert PublisherOk(s, p);
    if IsComplete(p) && p.version == s.tables.version {
      CurrentVersion(s, p);
    }
  }

  /** An object is stored exactly if none is stored in its place; a publisher goes on exactly if its own is there. */
  lemma {:induction false} PutsOnce(events: seq<Event>, id: nat, key: Key)
    requires var s := Run(events);
      id in s.publishers && Planned(s.publishers[id].version, s.publishers[id].files, key).Some?
    ensures var s := Run(events); var n := Step(s, Put(id, key)); var p := s.publishers[id];
      var digest := Planned(p.version, p.files, key).value;
      && n.objects == (if key in s.objects then s.objects else s.objects[key := digest])
      && (id in n.publishers <==> n.objects[key] == digest)
      && (id in n.publishers ==> n.publishers[id] == p.(done := p.done + {key}))
      && n.publishers - {id} == s.publishers - {id} && n.tables == s.tables
  {
    var s := Run(events);
    if key in s.objects && s.objects[key] == Planned(s.publishers[id].version, s.publishers[id].files, key).value {
      assert s.objects[key := s.objects[key]] == s.objects;
    }
  }
}
