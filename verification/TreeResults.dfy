/** What holds over every run of the tree protocol. */
module TreeResults {
  import opened Common
  import opened TreeDelta
  import opened TreeManifest
  import opened TreeStore
  import opened TreeProtocol

  /** The tree that replaying the delta log of versions 1 .. n on nothing gives. */
  ghost function FoldLog(t: Tables, n: nat): Tree
    requires forall v :: 1 <= v <= n ==> v in t.receipts
  {
    if n == 0 then map[]
    else
      var q := t.receipts[n].request;
      Replay(FoldLog(t, n - 1), StepRows(t.deltas, HeadManifest(q.expectedHead), q.manifest))
  }

  ghost function TreeAt(t: Tables, n: nat): Tree
    requires 1 <= n ==> n in t.receipts
  {
    if n == 0 then map[] else TreeOf(EntriesOf(t, Some(t.receipts[n].request.manifest)))
  }

  lemma {:induction false} TreeBeforeStep(t: Tables, n: nat)
    requires ReceiptsAreHistory(t) && n in t.receipts
    ensures n >= 1 && (n > 1 ==> n - 1 in t.receipts)
    ensures var prior := HeadManifest(t.receipts[n].request.expectedHead);
      TreeAt(t, n - 1) == TreeBefore(prior, EntriesOf(t, prior))
  {
    assert ReceiptOk(t, n);
  }

  lemma {:induction false} FoldedLog(t: Tables, n: nat)
    requires ReceiptsAreHistory(t) && LogIsExact(t) && n <= HeadVersion(t.head)
    ensures FoldLog(t, n) == TreeAt(t, n)
  {
    if n > 0 {
      FoldedLog(t, n - 1);
      TreeBeforeStep(t, n);
      var q := t.receipts[n].request;
      var prior := HeadManifest(q.expectedHead);
      ReplayReachesNewTree(prior, q.manifest, EntriesOf(t, prior), EntriesOf(t, Some(q.manifest)));
    }
  }

  /** In every run, the whole delta log replayed from nothing gives the current head's tree. */
  lemma {:induction false} LogReplaysToHead(repository: Repository, cursor: Cursor, events: seq<Event>)
    ensures var t := Run(Init(repository, cursor), events).tables;
      && (forall v :: v in t.receipts <==> 1 <= v <= HeadVersion(t.head))
      && FoldLog(t, HeadVersion(t.head)) == TreeOf(EntriesOf(t, HeadManifest(t.head)))
  {
    RunsKeepInv(repository, cursor, events);
    var t := Run(Init(repository, cursor), events).tables;
    ReceiptsEndAtHead(t);
    FoldedLog(t, HeadVersion(t.head));
  }

  ghost predicate Commits(s: State, e: Event) {
    e.Activate? && MayActivate(s.tables, e.request, s.clock)
  }

  lemma {:induction false} ActivatedHead(t: Tables, q: Request, at: Time)
    requires q.run in t.runs
    ensures Activated(t, q, at).head == Some(NextHead(q))
    ensures Activated(t, q, at).receipts == t.receipts[NextHead(q).version := Receipt(q, at)]
  {
  }

  lemma {:induction false} ReceiptFound(t: Tables, v: nat)
    requires v in t.receipts
    ensures HasReceipt(t, t.receipts[v].request)
  {
  }

  ghost predicate Raised(t: Tables, u: Tables, q: Request, at: Time) {
    && u.head == Some(Head(q.manifest, HeadVersion(t.head) + 1))
    && HeadVersion(t.head) + 1 !in t.receipts
    && u.receipts == t.receipts[HeadVersion(t.head) + 1 := Receipt(q, at)]
  }

  ghost predicate Unraised(t: Tables, u: Tables) {
    u.head == t.head && u.receipts == t.receipts
  }

  /** A version rises by exactly one, with the request's own receipt, and only when an activation commits. */
  lemma {:induction false} StepRaisesVersion(s: State, e: Event)
    requires ReceiptsAreHistory(s.tables) && RunsAreScheduledOnce(s.tables)
    ensures if Commits(s, e) then Raised(s.tables, Effect(s, e), e.request, e.at) else Unraised(s.tables, Effect(s, e))
  {
    if Commits(s, e) {
      ReceiptsEndAtHead(s.tables);
      CommitEffect(s, e);
      CommitRaises(s.tables, Effect(s, e), e.request, e.at);
    } else {
      OtherStep(s, e);
    }
  }

  lemma {:induction false} CommitRaises(t: Tables, u: Tables, q: Request, at: Time)
    requires t.head == q.expectedHead && forall v :: v in t.receipts ==> v <= HeadVersion(t.head)
    requires u.head == Some(NextHead(q)) && u.receipts == t.receipts[NextHead(q).version := Receipt(q, at)]
    ensures Raised(t, u, q, at)
  {
  }

  lemma {:induction false} CommitEffect(s: State, e: Event)
    requires Commits(s, e)
    ensures s.tables.head == e.request.expectedHead
    ensures Effect(s, e).head == Some(NextHead(e.request))
    ensures Effect(s, e).receipts == s.tables.receipts[NextHead(e.request).version := Receipt(e.request, e.at)]
  {
    assert e.request.run in s.tables.runs;
    assert Effect(s, e) == Activated(s.tables, e.request, e.at);
    ActivatedHead(s.tables, e.request, e.at);
  }

  lemma {:induction false} OtherStep(s: State, e: Event)
    requires RunsAreScheduledOnce(s.tables) && !Commits(s, e)
    ensures Effect(s, e).head == s.tables.head && Effect(s, e).receipts == s.tables.receipts
  {
    if !e.Activate? {
      OnlyActivationMakesHistory(s, e);
    }
  }

  ghost predicate ReceiptsGrew(t: Tables, u: Tables) {
    && HeadVersion(t.head) <= HeadVersion(u.head)
    && (forall v :: v in t.receipts ==> v in u.receipts && u.receipts[v] == t.receipts[v])
  }

  lemma {:induction false} RunGrows(repository: Repository, cursor: Cursor, events: seq<Event>, i: nat)
    requires i <= |events|
    ensures ReceiptsGrew(Run(Init(repository, cursor), events[..i]).tables,
      Run(Init(repository, cursor), events).tables)
    ensures ManifestsEvolved(Run(Init(repository, cursor), events[..i]).tables,
      Run(Init(repository, cursor), events).tables)
    decreases |events|
  {
    if i == |events| {
      assert events[..i] == events;
    } else {
      var earlier := events[..|events| - 1];
      assert earlier[..i] == events[..i];
      RunGrows(repository, cursor, earlier, i);
      RunsKeepInv(repository, cursor, earlier);
      var s, e := Run(Init(repository, cursor), earlier), events[|events| - 1];
      StepRaisesVersion(s, e);
      GrewThen(Run(Init(repository, cursor), events[..i]).tables, s.tables, Effect(s, e), e);
      EveryEventEvolves(Run(Init(repository, cursor), earlier), events[|events| - 1]);
      EvolvedThen(Run(Init(repository, cursor), events[..i]).tables, Run(Init(repository, cursor), earlier).tables,
                  Run(Init(repository, cursor), events).tables);
    }
  }

  lemma {:induction false} GrewThen(t: Tables, u: Tables, v: Tables, e: Event)
    requires ReceiptsGrew(t, u) && (Unraised(u, v) || (e.Activate? && Raised(u, v, e.request, e.at)))
    ensures ReceiptsGrew(t, v)
  {
  }

  ghost predicate ManifestsEvolved(t: Tables, u: Tables) {
    forall i :: i in t.manifests && t.manifests[i].status != Staging ==>
      && i in u.manifests && u.manifests[i].status != Staging
      && u.manifests[i].frozen == t.manifests[i].frozen && u.manifests[i].entryCount == t.manifests[i].entryCount
      && (t.manifests[i].status == Complete ==> u.manifests[i] == t.manifests[i])
  }

  lemma {:induction false} EvolvedThen(t: Tables, u: Tables, v: Tables)
    requires ManifestsEvolved(t, u) && ManifestsEvolve(u, v)
    ensures ManifestsEvolved(t, v)
  {
    forall i | i in t.manifests && t.manifests[i].status != Staging
      ensures i in v.manifests && TransitionOk(u.manifests[i], v.manifests[i])
    {
      assert i in u.manifests;
    }
  }

  /** Of all the activations that expect one head, at most one ever commits. */
  lemma {:induction false} OneCommitPerExpectedHead(repository: Repository, cursor: Cursor, events: seq<Event>, i: nat,
    j: nat)
    requires i < j < |events|
    requires Commits(Run(Init(repository, cursor), events[..i]), events[i])
    requires Commits(Run(Init(repository, cursor), events[..j]), events[j])
    ensures events[i].request.expectedHead != events[j].request.expectedHead
  {
    RunsKeepInv(repository, cursor, events[..i]);
    assert events[..i + 1][..i] == events[..i] && events[..j][..i + 1] == events[..i + 1];
    StepRaisesVersion(Run(Init(repository, cursor), events[..i]), events[i]);
    RunGrows(repository, cursor, events[..j], i + 1);
  }

  lemma {:induction false} ReceiptLasts(t: Tables, u: Tables, q: Request)
    requires HasReceipt(t, q) && ReceiptsGrew(t, u)
    ensures HasReceipt(u, q)
  {
    var v :| v in t.receipts && t.receipts[v].request == q;
    assert u.receipts[v].request == q;
  }

  lemma {:induction false} CommittedKeepsReceipt(repository: Repository, cursor: Cursor, events: seq<Event>, i: nat)
    requires i < |events| && Commits(Run(Init(repository, cursor), events[..i]), events[i])
    ensures HasReceipt(Run(Init(repository, cursor), events).tables, events[i].request)
  {
    RunsKeepInv(repository, cursor, events[..i]);
    assert events[..i + 1][..i] == events[..i];
    StepRaisesVersion(Run(Init(repository, cursor), events[..i]), events[i]);
    ReceiptFound(Run(Init(repository, cursor), events[..i + 1]).tables,
                 HeadVersion(Run(Init(repository, cursor), events[..i]).tables.head) + 1);
    RunGrows(repository, cursor, events, i + 1);
    ReceiptLasts(Run(Init(repository, cursor), events[..i + 1]).tables, Run(Init(repository, cursor), events).tables,
                 events[i].request);
  }

  /** A committed request keeps its receipt, and sending it again changes nothing. */
  lemma {:induction false} ReplayHasNoEffect(repository: Repository, cursor: Cursor, events: seq<Event>, i: nat,
    again: Time)
    requires i < |events| && Commits(Run(Init(repository, cursor), events[..i]), events[i])
    ensures var s := Run(Init(repository, cursor), events);
      HasReceipt(s.tables, events[i].request) && Step(s, Activate(events[i].request, again)) == s
  {
    CommittedKeepsReceipt(repository, cursor, events, i);
    RunsKeepInv(repository, cursor, events);
    var s := Run(Init(repository, cursor), events);
    ReceiptBlocksActivation(s.tables, events[i].request, s.clock);
    FailedActivationDoesNothing(s, Activate(events[i].request, again));
  }

  /** A guard that does not hold leaves nothing behind. */
  lemma {:induction false} FailedActivationDoesNothing(s: State, e: Event)
    requires e.Activate? && !MayActivate(s.tables, e.request, s.clock)
    ensures Step(s, e) == s
  {
  }

  /** A manifest that is complete, is the head, or is named by a delta keeps every entry for ever. */
  lemma {:induction false} ReferencedNeverLosesEntries(repository: Repository, cursor: Cursor, events: seq<Event>,
    i: nat, id: ManifestId)
    requires i <= |events|
    requires var t := Run(Init(repository, cursor), events[..i]).tables;
      (id in t.manifests && t.manifests[id].status == Complete) || !Unreferenced(t, id)
    ensures var t, u := Run(Init(repository, cursor), events[..i]).tables, Run(Init(repository, cursor), events).tables;
      && id in t.manifests && id in u.manifests && u.manifests[id] == t.manifests[id]
      && !HasPartial(u.manifests[id].entries) && u.manifests[id].entries == u.manifests[id].frozen
  {
    RunsKeepInv(repository, cursor, events[..i]);
    RunGrows(repository, cursor, events, i);
    var t := Run(Init(repository, cursor), events[..i]).tables;
    if !Unreferenced(t, id) {
      ReferencedIsComplete(t, id);
    }
    assert ManifestOk(t.manifests[id], t.chunks, id);
  }

  lemma {:induction false} ConservedNow(repository: Repository, cursor: Cursor, events: seq<Event>, id: ManifestId)
    requires var t := Run(Init(repository, cursor), events).tables;
      id in t.manifests && t.manifests[id].status != Staging
    ensures var t := Run(Init(repository, cursor), events).tables;
      |t.manifests[id].entries| + LoggedCount(t.chunks, id) == t.manifests[id].entryCount
  {
    RunsKeepInv(repository, cursor, events);
    var t := Run(Init(repository, cursor), events).tables;
    assert ManifestOk(t.manifests[id], t.chunks, id);
    assert |t.manifests[id].entries.Keys| == |t.manifests[id].entries|;
  }

  /** Remaining plus logged entries are the same number at any two moments after the manifest was frozen. */
  lemma {:induction false} RemainingPlusLoggedIsConstant(repository: Repository, cursor: Cursor, events: seq<Event>,
    i: nat, id: ManifestId)
    requires i <= |events|
    requires var t := Run(Init(repository, cursor), events[..i]).tables;
      id in t.manifests && t.manifests[id].status != Staging
    ensures var t, u := Run(Init(repository, cursor), events[..i]).tables, Run(Init(repository, cursor), events).tables;
      && id in u.manifests
      && |u.manifests[id].entries| + LoggedCount(u.chunks, id) == |t.manifests[id].entries| + LoggedCount(t.chunks, id)
  {
    RunGrows(repository, cursor, events, i);
    ConservedNow(repository, cursor, events[..i], id);
    ConservedNow(repository, cursor, events, id);
  }

  ghost predicate LogsPath(chunks: seq<PurgedChunk>, id: ManifestId, p: Path, i: int) {
    0 <= i < |chunks| && chunks[i].manifest == id && p in chunks[i].paths
  }

  lemma {:induction false} LoggedSomewhere(chunks: seq<PurgedChunk>, id: ManifestId, p: Path) returns (i: nat)
    requires p in Logged(chunks, id)
    ensures LogsPath(chunks, id, p, i)
  {
    var last := chunks[|chunks| - 1];
    if last.manifest == id && p in last.paths {
      i := |chunks| - 1;
    } else {
      i := LoggedSomewhere(chunks[..|chunks| - 1], id, p);
    }
  }

  /** A purged manifest is empty, and each entry it was frozen with was logged in exactly one chunk. */
  lemma {:induction false} PurgedMeansLoggedOnce(repository: Repository, cursor: Cursor, events: seq<Event>,
    id: ManifestId, p: Path)
    requires var t := Run(Init(repository, cursor), events).tables;
      id in t.manifests && t.manifests[id].status == Purged
    ensures var t := Run(Init(repository, cursor), events).tables;
      && t.manifests[id].entries == map[]
      && LoggedCount(t.chunks, id) == t.manifests[id].entryCount
      && (p in t.manifests[id].frozen <==> exists i :: LogsPath(t.chunks, id, p, i))
      && (forall i, j :: LogsPath(t.chunks, id, p, i) && LogsPath(t.chunks, id, p, j) ==> i == j)
  {
    RunsKeepInv(repository, cursor, events);
    var t := Run(Init(repository, cursor), events).tables;
    ConservedNow(repository, cursor, events, id);
    assert ManifestOk(t.manifests[id], t.chunks, id);
    assert p in t.manifests[id].frozen <==> p in Logged(t.chunks, id);
    if p in t.manifests[id].frozen {
      var i := LoggedSomewhere(t.chunks, id, p);
    }
    forall i | LogsPath(t.chunks, id, p, i) ensures p in t.manifests[id].frozen {
      LoggedHolds(t.chunks, i);
    }
  }

  /** In every run the logged chunks are pairwise different, as their key requires of the table. */
  lemma {:induction false} ChunksAreDistinct(repository: Repository, cursor: Cursor, events: seq<Event>)
    ensures var chunks := Run(Init(repository, cursor), events).tables.chunks;
      forall i, j :: 0 <= i < j < |chunks| ==> chunks[i] != chunks[j]
  {
    RunsKeepInv(repository, cursor, events);
    var chunks := Run(Init(repository, cursor), events).tables.chunks;
    forall i, j | 0 <= i < j < |chunks| ensures chunks[i] != chunks[j] {
      if chunks[i].manifest == chunks[j].manifest {
        var p :| p in chunks[i].paths;
        assert p !in chunks[j].paths;
      }
    }
  }
}
