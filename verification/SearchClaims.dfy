/** Who may clean a row and when, and when a deletion is recorded and finished, told by runs alone. */
module SearchClaims {
  import opened Common
  import opened Unicode
  import opened SearchProjection
  import opened SearchProtocol
  import opened SearchResults
  import Chunking

  // ----- Claims on receipts

  /** The row's receipt is claimed under the token until the time. */
  predicate IsClaimed(t: Tables, v: VectorId, token: nat, until: nat) {
    v in t.receipts && t.receipts[v] == Claimed(token, until)
  }

  predicate IsFree(t: Tables, v: VectorId, at: nat) {
    v in t.receipts && (t.receipts[v].Unclaimed? || t.receipts[v].expiresAt <= at)
  }

  lemma {:induction false} ClaimedAt(t: Tables, rows: set<VectorId>, token: nat, at: nat, v: VectorId)
    requires v in t.receipts && t.receipts[v].Claimed? ==> t.receipts[v].token < token
    ensures var n := ClaimReceipts(t, rows, token, at);
      && (IsClaimed(n, v, token, at + 7_200_000) <==> v in rows && v !in t.ledger && IsFree(t, v, at))
      && (v in n.receipts <==> v in t.receipts)
      && (v in t.receipts && !IsClaimed(n, v, token, at + 7_200_000) ==> n.receipts[v] == t.receipts[v])
      && n == t.(receipts := n.receipts)
      && (Claimable(t, v, at) <==> v !in t.ledger && IsFree(t, v, at))
  {
  }

  /**
   A cleaner gets the rows of its page that it did not see published, that are not published now, and whose receipt
   nobody holds at the time it started; it holds them for two hours from then. All other receipts stay as they are.
   */
  lemma {:induction false} ClaimsIffFree(tr: Trust, c: Contents, events: seq<Event>, id: nat, lost: bool, v: VectorId)
    requires var s := Run(tr, c, events); id in s.workers && s.workers[id].Looked?
    ensures var s := Run(tr, c, events); var n := Step(tr, c, s, ClaimRows(id, lost)); var w := s.workers[id];
      && (IsClaimed(n.tables, v, s.nextToken, w.startedAt + 7_200_000) <==>
            v in w.rows && v !in w.published && v !in s.tables.ledger && IsFree(s.tables, v, w.startedAt))
      && (v in n.tables.receipts <==> v in s.tables.receipts)
      && (v in s.tables.receipts && !IsClaimed(n.tables, v, s.nextToken, w.startedAt + 7_200_000) ==>
            n.tables.receipts[v] == s.tables.receipts[v])
      && (!lost ==>
            && n.workers[id].Cleaner? && n.workers[id].token == s.nextToken
            && (v in n.workers[id].claimed <==> IsClaimed(n.tables, v, s.nextToken, w.startedAt + 7_200_000)))
      && n.tables == s.tables.(receipts := n.tables.receipts)
  {
    var s := Run(tr, c, events);
    RunsKeepInv(tr, c, events);
    var w := s.workers[id];
    ClaimedAt(s.tables, w.rows - w.published, s.nextToken, w.startedAt, v);
  }

  /** The event ends the cleaner's work: it takes its receipts away or gives its claims up. */
  predicate EndsClaim(s: State, e: Event, token: nat) {
    (e.Finalize? || e.Release?) && e.id in s.workers && s.workers[e.id].Cleaner? && s.workers[e.id].token == token
  }

  lemma {:induction false} PublisherKeepsClaim(tr: Trust, c: Contents, s: State, e: Event, v: VectorId, token: nat,
    until: nat)
    requires e.Upsert? || e.Commit? || e.Reject? || e.Discard? || e.UpsertAgain?
    requires IsClaimed(s.tables, v, token, until)
    ensures IsClaimed(PublisherStep(tr, c, s, e).tables, v, token, until)
  {
  }

  lemma {:induction false} CleanerKeepsClaim(tr: Trust, s: State, e: Event, v: VectorId, token: nat, until: nat)
    requires e.Check? || e.Issue? || e.ObserveAbsent? || e.Finalize? || e.Release?
    requires IsClaimed(s.tables, v, token, until) && !EndsClaim(s, e, token)
    ensures IsClaimed(CleanerStep(tr, s, e).tables, v, token, until)
  {
  }

  lemma {:induction false} ClaimIs(tr: Trust, c: Contents, s: State, id: nat, lost: bool)
    requires id in s.workers && s.workers[id].Looked?
    ensures var w := s.workers[id];
      Step(tr, c, s, ClaimRows(id, lost)).tables ==
        ClaimReceipts(s.tables, w.rows - w.published, s.nextToken, w.startedAt)
  {
  }

  lemma {:induction false} NoClaimOnClaimed(
    t: Tables, rows: set<VectorId>, new_: nat, at: nat, v: VectorId, token: nat, until: nat)
    requires IsClaimed(t, v, token, until) && at < until
    ensures IsClaimed(ClaimReceipts(t, rows, new_, at), v, token, until)
  {
  }

  lemma {:induction false} ClaimingKeepsClaim(tr: Trust, c: Contents, s: State, e: Event, v: VectorId, token: nat,
    until: nat)
    requires e.ClaimRows? && Inv(tr, c, s) && IsClaimed(s.tables, v, token, until) && s.clock < until
    ensures IsClaimed(Step(tr, c, s, e).tables, v, token, until)
  {
    if e.id in s.workers && s.workers[e.id].Looked? {
      var w := s.workers[e.id];
      assert WorkerOk(c, s, w);
      ClaimIs(tr, c, s, e.id, e.responseLost);
      NoClaimOnClaimed(s.tables, w.rows - w.published, s.nextToken, w.startedAt, v, token, until);
    } else {
      assert Step(tr, c, s, e) == s;
    }
  }

  lemma {:induction false} StepKeepsClaim(tr: Trust, c: Contents, s: State, e: Event, v: VectorId, token: nat,
    until: nat)
    requires Inv(tr, c, s) && IsClaimed(s.tables, v, token, until) && s.clock < until && !EndsClaim(s, e, token)
    ensures IsClaimed(Step(tr, c, s, e).tables, v, token, until)
  {
    if e.Upsert? || e.Commit? || e.Reject? || e.Discard? || e.UpsertAgain? {
      PublisherKeepsClaim(tr, c, s, e, v, token, until);
    } else if e.Check? || e.Issue? || e.ObserveAbsent? || e.Finalize? || e.Release? {
      CleanerKeepsClaim(tr, s, e, v, token, until);
    } else if e.ClaimRows? {
      ClaimingKeepsClaim(tr, c, s, e, v, token, until);
    } else if e.IssueRetire? || e.Finish? {
      RemoverKeepsReceipts(tr, s, e);
    }
  }

  lemma {:induction false} RemoverKeepsReceipts(tr: Trust, s: State, e: Event)
    requires e.IssueRetire? || e.Finish?
    ensures RemoverStep(tr, s, e).tables.receipts == s.tables.receipts
  {
  }

  /** A run, with the state before each event and after the last. */
  datatype Trace = Trace(states: seq<State>, events: seq<Event>)

  ghost predicate IsStep(tr: Trust, c: Contents, w: Trace, i: nat) {
    i + 1 < |w.states| && i < |w.events| && w.states[i + 1] == Step(tr, c, w.states[i], w.events[i])
  }

  ghost predicate IsTrace(tr: Trust, c: Contents, w: Trace) {
    && |w.states| == |w.events| + 1 && w.states[0] == Init()
    && forall i {:trigger IsStep(tr, c, w, i)} :: 0 <= i < |w.events| ==> IsStep(tr, c, w, i)
  }

  /** Every run is a trace, so what holds of traces holds of all runs. */
  lemma {:induction false} RunIsTrace(tr: Trust, c: Contents, events: seq<Event>) returns (w: Trace)
    ensures IsTrace(tr, c, w) && w.events == events
    ensures forall i :: 0 <= i <= |events| ==> w.states[i] == Run(tr, c, events[..i])
  {
    if events == [] {
      w := Trace([Init()], []);
    } else {
      var n := |events| - 1;
      var front := RunIsTrace(tr, c, events[..n]);
      w := Trace(front.states + [Step(tr, c, front.states[n], events[n])], events);
      assert forall i :: 0 <= i <= n ==> w.states[i] == front.states[i] && events[..n][..i] == events[..i];
      forall i | 0 <= i < |events| ensures IsStep(tr, c, w, i) {
        assert i < n ==> IsStep(tr, c, front, i);
      }
      assert events[..|events|] == events;
    }
  }

  lemma {:induction false} TraceKeepsInv(tr: Trust, c: Contents, w: Trace, i: nat)
    requires IsTrace(tr, c, w) && i < |w.states|
    ensures Inv(tr, c, w.states[i])
  {
    if i == 0 {
      RunsKeepInv(tr, c, []);
    } else {
      TraceKeepsInv(tr, c, w, i - 1);
      assert IsStep(tr, c, w, i - 1);
      StepKeepsInv(tr, c, w.states[i - 1], w.events[i - 1]);
    }
  }

  /** A claim stays its holder's until it expires, whatever others do, unless the holder ends its work. */
  lemma {:induction false} LiveClaimStays(
    tr: Trust, c: Contents, w: Trace, i: nat, j: nat, v: VectorId, token: nat, until: nat)
    requires IsTrace(tr, c, w) && i <= j < |w.states| && IsClaimed(w.states[i].tables, v, token, until)
    requires forall k :: i <= k < j ==> w.states[k].clock < until && !EndsClaim(w.states[k], w.events[k], token)
    ensures IsClaimed(w.states[j].tables, v, token, until)
  {
    if i < j {
      LiveClaimStays(tr, c, w, i, j - 1, v, token, until);
      TraceKeepsInv(tr, c, w, j - 1);
      assert IsStep(tr, c, w, j - 1);
      StepKeepsClaim(tr, c, w.states[j - 1], w.events[j - 1], v, token, until);
    }
  }

  /**
   A finalizing cleaner takes away the receipts of rows it found published, if nobody claims them, and of its own rows
   while its claim lives; it gives up what claims it has left, and touches no other receipt.
   */
  predicate IsFinalized(t: Tables, n: Tables, w: Worker, now: nat, v: VectorId)
    requires w.Cleaner? && v in t.receipts
  {
    var mine := IsClaimed(t, v, w.token, w.startedAt + 7_200_000);
    if v in w.published then
      if v in t.ledger && t.receipts[v].Unclaimed? then v !in n.receipts
      else v in n.receipts && n.receipts[v] == if mine then Unclaimed else t.receipts[v]
    else if mine then
      if v in w.claimed && now < w.startedAt + 7_200_000 then v !in n.receipts
      else v in n.receipts && n.receipts[v].Unclaimed?
    else v in n.receipts && n.receipts[v] == t.receipts[v]
  }

  lemma {:induction false} FinalizedAt(t: Tables, w: Worker, now: nat, v: VectorId)
    requires w.Cleaner? && v in t.receipts
    requires HoldsClaim(t, v, w.token) <==> IsClaimed(t, v, w.token, w.startedAt + 7_200_000)
    requires CurrentClaim(t, v, w.token, now) <==> HoldsClaim(t, v, w.token) && t.receipts[v].expiresAt > now
    ensures IsFinalized(t, FinalizeReceipts(t, w.published, w.claimed, w.token, now), w, now, v)
  {
  }

  lemma {:induction false} FinalizeIs(tr: Trust, c: Contents, s: State, id: nat)
    requires id in s.workers && s.workers[id].Cleaner? && s.workers[id].clean == Confirmed
    ensures var w := s.workers[id];
      Step(tr, c, s, Finalize(id)).tables == FinalizeReceipts(s.tables, w.published, w.claimed, w.token, s.clock)
  {
  }

  lemma {:induction false} FinalizesOwn(tr: Trust, c: Contents, events: seq<Event>, id: nat, v: VectorId)
    requires var s := Run(tr, c, events); id in s.workers && s.workers[id].Cleaner? && s.workers[id].clean == Confirmed
    requires v in Run(tr, c, events).tables.receipts
    ensures var s := Run(tr, c, events);
      IsFinalized(s.tables, Step(tr, c, s, Finalize(id)).tables, s.workers[id], s.clock, v)
  {
    var s := Run(tr, c, events);
    RunsKeepInv(tr, c, events);
    HeldByCleaner(tr, c, s, id, v);
    FinalizeIs(tr, c, s, id);
    FinalizedAt(s.tables, s.workers[id], s.clock, v);
  }

  lemma {:induction false} HeldByCleaner(tr: Trust, c: Contents, s: State, id: nat, v: VectorId)
    requires Inv(tr, c, s) && id in s.workers && s.workers[id].Cleaner?
    ensures var token := s.workers[id].token;
      && (HoldsClaim(s.tables, v, token) <==>
            IsClaimed(s.tables, v, token, s.workers[id].startedAt + 7_200_000))
      && (CurrentClaim(s.tables, v, token, s.clock) <==>
            HoldsClaim(s.tables, v, token) && s.tables.receipts[v].expiresAt > s.clock)
  {
    assert WorkerOk(c, s, s.workers[id]);
    HeldIsCurrent(tr, c, s, v, s.workers[id].token);
  }

  /** Giving up frees exactly the cleaner's own claims. */
  lemma {:induction false} ReleasesOwn(tr: Trust, c: Contents, events: seq<Event>, id: nat, v: VectorId)
    requires var s := Run(tr, c, events); id in s.workers && s.workers[id].Cleaner?
    requires v in Run(tr, c, events).tables.receipts
    ensures var s := Run(tr, c, events); var n := Step(tr, c, s, Release(id)).tables;
      v in n.receipts && n.receipts[v] ==
        if IsClaimed(s.tables, v, s.workers[id].token, s.workers[id].startedAt + 7_200_000) then Unclaimed
        else s.tables.receipts[v]
  {
    RunsKeepInv(tr, c, events);
    HeldByCleaner(tr, c, Run(tr, c, events), id, v);
    ReleaseIs(tr, c, Run(tr, c, events), id);
  }

  lemma {:induction false} ReleaseIs(tr: Trust, c: Contents, s: State, id: nat)
    requires id in s.workers && s.workers[id].Cleaner?
    ensures Step(tr, c, s, Release(id)).tables == ReleaseClaims(s.tables, s.workers[id].token)
  {
  }

  // ----- Deletions

  /** A deletion is recorded exactly if none is and it names the head as it is. */
  lemma {:induction false} RecordsDeletionIff(
    tr: Trust, c: Contents, events: seq<Event>, revision: RevisionId, version: nat, chunks: nat)
    ensures var t := Run(tr, c, events).tables;
      var n := Step(tr, c, Run(tr, c, events), RecordDeletion(revision, version, chunks)).tables;
      n == if t.deletion == None && t.head.Some? && t.head.value.revision == revision && t.head.value.version == version
                && t.head.value.chunkCount == chunks
           then t.(deletion := Some(Deletion(revision, version, chunks))) else t
  {
  }

  /**
   A remover that has issued its deletes removes head, ledger and texts if its deletion is the recorded one and the head
   still is of its revision; only the record goes if another revision was published meanwhile.
   */
  lemma {:induction false} FinishesOwnDeletion(tr: Trust, c: Contents, events: seq<Event>, id: nat)
    requires var s := Run(tr, c, events); id in s.workers && s.workers[id].Remover? && s.workers[id].issued
    ensures var s := Run(tr, c, events); var t := s.tables; var d := s.workers[id].deletion;
      Step(tr, c, s, Finish(id)).tables ==
        if t.deletion != Some(d) then t
        else if t.head.Some? && t.head.value.revision == d.revision then Tables(None, {}, map[], t.receipts, None, None)
        else t.(deletion := None)
  {
    var s := Run(tr, c, events);
    RunsKeepInv(tr, c, events);
  }
}
