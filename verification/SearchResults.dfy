/** What the search projection promises: safety of returned publications, exactly when, and how receipts go. */
module SearchResults {
  import opened Common
  import opened Unicode
  import opened SearchProjection
  import opened SearchProtocol
  import Chunking

  // ----- In every run

  /** Once a publication has returned, no delete under way names one of its rows. */
  lemma {:induction false} CleanupNeverDeletesPublishedRow(tr: Trust, c: Contents, events: seq<Event>, d: Delete)
    requires IsCareful(tr) && d in Run(tr, c, events).inflight
    requires Run(tr, c, events).confirmed && !Retiring(Run(tr, c, events).tables)
    ensures d.vector !in Run(tr, c, events).tables.ledger
  {
    RunsKeepInv(tr, c, events);
  }

  /** The publisher's rows are the projected ones and nobody has recorded their deletion. */
  ghost predicate IsCurrentPublication(s: State, id: nat) {
    && Running(s, id, Returned) && s.workers[id].incarnation == s.incarnation
    && !Retiring(s.tables)
  }

  /** Every ledger row is in the vector index. */
  ghost predicate PublicationIsWhole(s: State) {
    s.tables.ledger <= s.vectors
  }

  /**
   Once a publisher has returned true, every ledger row is in the vector index, for as long as the rows it committed
   stay the projected ones and nobody has recorded their deletion.
   */
  lemma {:induction false} ReturnedPublicationStaysIndexed(tr: Trust, c: Contents, events: seq<Event>, id: nat)
    requires IsCareful(tr) && IsCurrentPublication(Run(tr, c, events), id)
    ensures PublicationIsWhole(Run(tr, c, events))
    ensures var s := Run(tr, c, events); var r := s.workers[id].head.revision;
      s.tables.ledger == Ids(r, |ChunksOf(c, r)|)
  {
    RunsKeepInv(tr, c, events);
    assert WorkerOk(c, Run(tr, c, events), Run(tr, c, events).workers[id]);
  }

  /** A head means exactly chunk-0 .. chunk-(n-1) of its revision, each FTS row holding the recomputed text. */
  lemma {:induction false} HeadMeansExactProjection(tr: Trust, c: Contents, events: seq<Event>)
    requires Run(tr, c, events).tables.head.Some?
    requires |ChunksOf(c, Run(tr, c, events).tables.head.value.revision)| <= MAX_SAFE_INTEGER
    ensures var t := Run(tr, c, events).tables; var r := t.head.value.revision;
      && t.lease == None
      && r in c
      && t.ledger == Ids(r, |ChunksOf(c, r)|)
      && t.fts.Keys == t.ledger
      && forall v :: v in t.fts ==>
           Chunking.SelectAuthoritativeMemoryChunk(c[r], Chunking.ChunkId(v.chunk)) == Success(t.fts[v])
  {
    RunsKeepInv(tr, c, events);
    var t := Run(tr, c, events).tables;
    var content := c[t.head.value.revision];
    forall v | v in t.fts
      ensures Chunking.SelectAuthoritativeMemoryChunk(content, Chunking.ChunkId(v.chunk)) == Success(t.fts[v])
    {
      Chunking.SelectionFindsWrittenChunk(content, Chunking.ChunkId(v.chunk), t.fts[v]);
    }
  }

  /** A head that stays is the same one or supersedes it. */
  ghost predicate HeadAdvances(t: Tables, n: Tables) {
    t.head.Some? && n.head.Some? ==> n.head == t.head || Supersedes(n.head.value.version, n.head.value.revision, t.head)
  }

  lemma {:induction false} PublisherAdvancesHead(tr: Trust, c: Contents, s: State, e: Event)
    requires e.Upsert? || e.Commit? || e.Reject? || e.Discard? || e.UpsertAgain?
    ensures HeadAdvances(s.tables, PublisherStep(tr, c, s, e).tables)
  {
  }

  lemma {:induction false} CleanerKeepsHead(tr: Trust, s: State, e: Event)
    requires e.Check? || e.Issue? || e.ObserveAbsent? || e.Finalize? || e.Release?
    ensures CleanerStep(tr, s, e).tables.head == s.tables.head
  {
  }

  lemma {:induction false} StepAdvancesHead(tr: Trust, c: Contents, s: State, e: Event)
    ensures HeadAdvances(s.tables, Step(tr, c, s, e).tables)
  {
    if e.Upsert? || e.Commit? || e.Reject? || e.Discard? || e.UpsertAgain? {
      PublisherAdvancesHead(tr, c, s, e);
    } else if e.Check? || e.Issue? || e.ObserveAbsent? || e.Finalize? || e.Release? {
      CleanerKeepsHead(tr, s, e);
    }
  }

  /** While a head exists its version never decreases, and at an equal version its revision does not change. */
  lemma {:induction false} HeadOnlyAdvances(tr: Trust, c: Contents, events: seq<Event>, e: Event)
    requires Run(tr, c, events).tables.head.Some? && Run(tr, c, events + [e]).tables.head.Some?
    ensures var h, n := Run(tr, c, events).tables.head.value, Run(tr, c, events + [e]).tables.head.value;
      n.version > h.version || (n.version == h.version && n.revision == h.revision)
  {
    assert (events + [e])[..|events|] == events;
    StepAdvancesHead(tr, c, Run(tr, c, events), e);
  }

  // ----- How a receipt goes

  /** In every run, a claim that is no longer current never becomes current again. */
  ghost predicate NeverCurrent(s: State, v: VectorId, token: nat) {
    token < s.nextToken && !CurrentClaim(s.tables, v, token, s.clock)
  }

  /** A held claim concerns no projected revision, so it is current until it expires. */
  lemma {:induction false} HeldIsCurrent(tr: Trust, c: Contents, s: State, v: VectorId, token: nat)
    requires Inv(tr, c, s)
    ensures CurrentClaim(s.tables, v, token, s.clock) <==>
      HoldsClaim(s.tables, v, token) && s.tables.receipts[v].expiresAt > s.clock
  {
  }

  /** Tokens below the bound gain no claim, and what they keep stays as it was. */
  ghost predicate ClaimsEnd(t: Tables, n: Tables, bound: nat) {
    forall v: VectorId, token: nat {:trigger HoldsClaim(n, v, token)} :: token < bound && HoldsClaim(n, v, token) ==>
      HoldsClaim(t, v, token) && n.receipts[v] == t.receipts[v]
  }

  lemma {:induction false} PublishClaimsEnd(t: Tables, head: Head, chunks: seq<Text>, bound: nat)
    ensures ClaimsEnd(t, Publish(t, head, chunks), bound)
  {
  }

  lemma {:induction false} PublisherClaimsEnd(tr: Trust, c: Contents, s: State, e: Event)
    requires e.Upsert? || e.Commit? || e.Reject? || e.Discard? || e.UpsertAgain?
    ensures ClaimsEnd(s.tables, PublisherStep(tr, c, s, e).tables, s.nextToken)
  {
    if e.id in s.workers && s.workers[e.id].Publisher? {
      var head := s.workers[e.id].head;
      PublishClaimsEnd(s.tables, head, ChunksOf(c, head.revision), s.nextToken);
    }
  }

  lemma {:induction false} CleanerClaimsEnd(tr: Trust, s: State, e: Event)
    requires e.Check? || e.Issue? || e.ObserveAbsent? || e.Finalize? || e.Release?
    ensures ClaimsEnd(s.tables, CleanerStep(tr, s, e).tables, s.nextToken)
  {
    if e.id in s.workers && s.workers[e.id].Cleaner? {
      var w := s.workers[e.id];
      if e.Finalize? {
        FinalizeKeepsClaims(s.tables, w.published, w.claimed, w.token, s.clock);
      } else if e.Release? {
        ReleaseKeepsClaims(s.tables, w.token);
      }
    }
  }

  lemma {:induction false} RemoverClaimsEnd(tr: Trust, s: State, e: Event)
    requires e.IssueRetire? || e.Finish?
    ensures ClaimsEnd(s.tables, RemoverStep(tr, s, e).tables, s.nextToken)
  {
  }

  lemma {:induction false} NewClaimsAreNew(t: Tables, rows: set<VectorId>, token: nat, claimedAt: nat)
    ensures ClaimsEnd(t, ClaimReceipts(t, rows, token, claimedAt), token)
  {
  }

  /** A claim already given out is only ever lost, and its expiry is fixed. */
  lemma {:induction false} ClaimsOnlyEnd(tr: Trust, c: Contents, s: State, e: Event)
    ensures ClaimsEnd(s.tables, Step(tr, c, s, e).tables, s.nextToken)
  {
    if e.Upsert? || e.Commit? || e.Reject? || e.Discard? || e.UpsertAgain? {
      PublisherClaimsEnd(tr, c, s, e);
    } else if e.Check? || e.Issue? || e.ObserveAbsent? || e.Finalize? || e.Release? {
      CleanerClaimsEnd(tr, s, e);
    } else if e.IssueRetire? || e.Finish? {
      RemoverClaimsEnd(tr, s, e);
    } else if e.ClaimRows? && e.id in s.workers && s.workers[e.id].Looked? {
      var w := s.workers[e.id];
      NewClaimsAreNew(s.tables, w.rows - w.published, s.nextToken, w.startedAt);
    }
  }

  lemma {:induction false} NextTokenGrows(tr: Trust, c: Contents, s: State, e: Event)
    ensures s.nextToken <= Step(tr, c, s, e).nextToken && s.clock <= Step(tr, c, s, e).clock
  {
    if e.Upsert? || e.Commit? || e.Reject? || e.Discard? || e.UpsertAgain? {
      assert Step(tr, c, s, e) == PublisherStep(tr, c, s, e);
    } else if e.Check? || e.Issue? || e.ObserveAbsent? || e.Finalize? || e.Release? {
      assert Step(tr, c, s, e) == CleanerStep(tr, s, e);
    }
  }

  /**
   A failed check is final: from then on the token can never remove that row's receipt, so checking again after the
   delete only ends a hopeless cleanup early.
   */
  lemma {:induction false} FailedCheckIsFinal(
    tr: Trust, c: Contents, events: seq<Event>, more: seq<Event>, v: VectorId, token: nat)
    requires NeverCurrent(Run(tr, c, events), v, token)
    ensures NeverCurrent(Run(tr, c, events + more), v, token)
  {
    if more == [] {
      assert events + more == events;
    } else {
      var n := |more| - 1;
      FailedCheckIsFinal(tr, c, events, more[..n], v, token);
      assert (events + more)[..|events + more| - 1] == events + more[..n];
      var s := Run(tr, c, events + more[..n]);
      RunsKeepInv(tr, c, events + more[..n]);
      RunsKeepInv(tr, c, events + more);
      HeldIsCurrent(tr, c, s, v, token);
      HeldIsCurrent(tr, c, Run(tr, c, events + more), v, token);
      NextTokenGrows(tr, c, s, more[n]);
      ClaimsOnlyEnd(tr, c, s, more[n]);
    }
  }

  /** The holder of a token, in a run. */
  ghost predicate IsCleaner(s: State, id: nat, token: nat, claimed: set<VectorId>) {
    id in s.workers && s.workers[id].Cleaner? && s.workers[id].token == token && s.workers[id].claimed == claimed
  }

  /** At event `k` the cleaner found its rows absent, after its deletes were issued and its claims checked again. */
  ghost predicate SawAbsent(
    tr: Trust, c: Contents, events: seq<Event>, k: nat, id: nat, token: nat, claimed: set<VectorId>)
  {
    && k < |events| && events[k] == ObserveAbsent(id)
    && var s := Run(tr, c, events[..k]);
    && IsCleaner(s, id, token, claimed) && s.workers[id].clean == Rechecked && claimed !! s.vectors
  }

  lemma {:induction false} CleanerKeepsClaimed(tr: Trust, c: Contents, s: State, e: Event, id: nat)
    requires id in Step(tr, c, s, e).workers && Step(tr, c, s, e).workers[id].Cleaner?
    requires Step(tr, c, s, e).workers[id].clean in {Absent, Confirmed}
    ensures id in s.workers && s.workers[id].Cleaner?
    ensures IsCleaner(s, id, Step(tr, c, s, e).workers[id].token, Step(tr, c, s, e).workers[id].claimed)
    ensures s.workers[id].clean in {Absent, Confirmed} || (s.workers[id].clean == Rechecked && e == ObserveAbsent(id)
      && s.workers[id].claimed !! s.vectors)
  {
    if e.Upsert? || e.Commit? || e.Reject? || e.Discard? || e.UpsertAgain? {
      assert Step(tr, c, s, e) == PublisherStep(tr, c, s, e);
    } else if e.Check? || e.Issue? || e.ObserveAbsent? || e.Finalize? || e.Release? {
      assert Step(tr, c, s, e) == CleanerStep(tr, s, e);
    } else if e.IssueRetire? || e.Finish? {
      assert Step(tr, c, s, e) == RemoverStep(tr, s, e);
    }
  }

  lemma {:induction false} AbsenceWasSeen(tr: Trust, c: Contents, events: seq<Event>, id: nat) returns (k: nat)
    requires id in Run(tr, c, events).workers && Run(tr, c, events).workers[id].Cleaner?
    requires Run(tr, c, events).workers[id].clean in {Absent, Confirmed}
    ensures var w := Run(tr, c, events).workers[id]; SawAbsent(tr, c, events, k, id, w.token, w.claimed)
  {
    var n := |events| - 1;
    var before := events[..n];
    CleanerKeepsClaimed(tr, c, Run(tr, c, before), events[n], id);
    if Run(tr, c, before).workers[id].clean in {Absent, Confirmed} {
      k := AbsenceWasSeen(tr, c, before, id);
      assert events[..k] == before[..k];
    } else {
      k := n;
    }
  }

  lemma {:induction false} TokenStaysGiven(tr: Trust, c: Contents, events: seq<Event>, k: nat, token: nat)
    requires k <= |events| && token < Run(tr, c, events[..k]).nextToken
    ensures token < Run(tr, c, events).nextToken
  {
    if k == |events| {
      assert events[..k] == events;
    } else {
      var n := |events| - 1;
      assert events[..k] == events[..n][..k];
      TokenStaysGiven(tr, c, events[..n], k, token);
      NextTokenGrows(tr, c, Run(tr, c, events[..n]), events[n]);
    }
  }

  /** The receipt of an unpublished row goes with this event. */
  ghost predicate Forgets(tr: Trust, c: Contents, s: State, e: Event, v: VectorId) {
    v in s.tables.receipts && v !in s.tables.ledger && v !in Step(tr, c, s, e).tables.receipts
  }

  lemma {:induction false} PublishersForgetNothing(tr: Trust, c: Contents, s: State, e: Event)
    requires e.Upsert? || e.Commit? || e.Reject? || e.Discard? || e.UpsertAgain?
    ensures s.tables.receipts.Keys <= PublisherStep(tr, c, s, e).tables.receipts.Keys
  {
  }

  lemma {:induction false} OnlyFinalizeForgets(tr: Trust, c: Contents, s: State, e: Event, v: VectorId)
    requires Forgets(tr, c, s, e, v)
    ensures e.Finalize? && e.id in s.workers && s.workers[e.id].Cleaner? && s.workers[e.id].clean == Confirmed
    ensures var w := s.workers[e.id]; v in w.claimed && CurrentClaim(s.tables, v, w.token, s.clock)
  {
    if e.Upsert? || e.Commit? || e.Reject? || e.Discard? || e.UpsertAgain? {
      PublishersForgetNothing(tr, c, s, e);
    }
  }

  /**
   The receipt of an unpublished row goes only when one cleaner, holding one claim on it without a break, has issued
   the delete, found the claim current, seen the vector absent, and found the claim current again.
   */
  lemma {:induction false} ReceiptGoesUnderOneClaim(tr: Trust, c: Contents, events: seq<Event>, e: Event, v: VectorId)
    returns (k: nat)
    requires Forgets(tr, c, Run(tr, c, events), e, v)
    ensures e.Finalize? && e.id in Run(tr, c, events).workers && Run(tr, c, events).workers[e.id].Cleaner?
    ensures var w := Run(tr, c, events).workers[e.id];
      && v in w.claimed && SawAbsent(tr, c, events, k, e.id, w.token, w.claimed)
      && v !in Run(tr, c, events[..k]).vectors
      && forall j :: k <= j <= |events| ==>
        CurrentClaim(Run(tr, c, events[..j]).tables, v, w.token, Run(tr, c, events[..j]).clock)
  {
    var s := Run(tr, c, events);
    OnlyFinalizeForgets(tr, c, s, e, v);
    var w := s.workers[e.id];
    k := AbsenceWasSeen(tr, c, events, e.id);
    RunsKeepInv(tr, c, events[..k]);
    assert WorkerOk(c, Run(tr, c, events[..k]), Run(tr, c, events[..k]).workers[e.id]);
    forall j | k <= j <= |events|
      ensures CurrentClaim(Run(tr, c, events[..j]).tables, v, w.token, Run(tr, c, events[..j]).clock)
    {
      assert events[..j][..k] == events[..k];
      TokenStaysGiven(tr, c, events[..j], k, w.token);
      assert events[..j] + events[j..] == events;
      if NeverCurrent(Run(tr, c, events[..j]), v, w.token) {
        FailedCheckIsFinal(tr, c, events[..j], events[j..], v, w.token);
      }
    }
  }
}
