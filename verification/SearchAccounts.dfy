/** No vector is forgotten: every row that leaves the ledger is accounted for, in every run. */
module SearchAccounts {
  import opened Common
  import opened Unicode
  import opened SearchProjection
  import opened SearchProtocol
  import opened SearchResults
  import Chunking

  /** The row leaves the ledger because its recorded deletion is finished. */
  ghost predicate Retires(tr: Trust, c: Contents, s: State, e: Event, v: VectorId) {
    && e.Finish? && s.tables.deletion.Some? && s.tables.deletion.value.revision == v.revision
    && v in s.tables.ledger && v !in Step(tr, c, s, e).tables.ledger
    && Step(tr, c, s, e).tables.deletion == None
  }

  /** Publishing keeps the receipts there are and makes one for every row it replaces. */
  lemma {:induction false} PublishKeepsAccounts(t: Tables, head: Head, chunks: seq<Text>, v: VectorId)
    ensures var n := Publish(t, head, chunks);
      && (v in t.ledger ==> v in n.ledger || v in n.receipts)
      && (v in t.receipts ==> v in n.receipts && n.receipts[v] == t.receipts[v])
      && (v !in t.receipts && v in n.receipts ==> n.receipts[v].Unclaimed?)
  {
  }

  lemma {:induction false} CommitAccounts(tr: Trust, c: Contents, s: State, e: Event, v: VectorId)
    requires e.Commit?
    ensures var n := Step(tr, c, s, e).tables;
      && (v in s.tables.ledger ==> v in n.ledger || v in n.receipts)
      && (v in s.tables.receipts ==> v in n.receipts && n.receipts[v] == s.tables.receipts[v])
      && (v !in s.tables.receipts && v in n.receipts ==> n.receipts[v].Unclaimed?)
  {
    if Running(s, e.id, Upserted) {
      var head := s.workers[e.id].head;
      PublishKeepsAccounts(s.tables, head, ChunksOf(c, head.revision), v);
    }
  }

  lemma {:induction false} FinishAccounts(tr: Trust, c: Contents, s: State, e: Event, v: VectorId)
    requires Inv(tr, c, s) && e.Finish? && v in s.tables.ledger
    ensures v in Step(tr, c, s, e).tables.ledger || Retires(tr, c, s, e, v)
    ensures Step(tr, c, s, e).tables.receipts == s.tables.receipts
  {
    if e.id in s.workers && s.workers[e.id].Remover? && s.workers[e.id].issued {
      var d := s.workers[e.id].deletion;
      var n := FinishDeletion(s.tables, d);
      assert Step(tr, c, s, e).tables == n;
      assert s.tables.head.Some? && v.revision == s.tables.head.value.revision;
    }
  }

  lemma {:induction false} OtherPublisherSteps(tr: Trust, c: Contents, s: State, e: Event)
    requires e.Upsert? || e.Reject? || e.Discard? || e.UpsertAgain?
    ensures Step(tr, c, s, e).tables.ledger == s.tables.ledger
    ensures s.tables.receipts.Keys <= Step(tr, c, s, e).tables.receipts.Keys
    ensures forall v :: v in s.tables.receipts ==> Step(tr, c, s, e).tables.receipts[v] == s.tables.receipts[v]
  {
  }

  lemma {:induction false} CleanerSteps(tr: Trust, c: Contents, s: State, e: Event)
    requires e.Check? || e.Issue? || e.ObserveAbsent? || e.Finalize? || e.Release?
    ensures Step(tr, c, s, e).tables.ledger == s.tables.ledger
  {
  }

  /**
   A row that leaves the ledger in a step has a receipt afterwards, unless the step finishes its recorded deletion; and
   a receipt it already had keeps its claim.
   */
  lemma {:induction false} LeavingRowHasReceipt(tr: Trust, c: Contents, events: seq<Event>, e: Event, v: VectorId)
    requires v in Run(tr, c, events).tables.ledger && v !in Step(tr, c, Run(tr, c, events), e).tables.ledger
    ensures var s, n := Run(tr, c, events).tables, Step(tr, c, Run(tr, c, events), e).tables;
      && (v in n.receipts || Retires(tr, c, Run(tr, c, events), e, v))
      && (v in s.receipts ==> v in n.receipts && n.receipts[v] == s.receipts[v])
      && (v !in s.receipts && v in n.receipts ==> n.receipts[v].Unclaimed?)
  {
    var s := Run(tr, c, events);
    RunsKeepInv(tr, c, events);
    if e.Commit? {
      CommitAccounts(tr, c, s, e, v);
    } else if e.Finish? {
      FinishAccounts(tr, c, s, e, v);
    } else if e.Upsert? || e.Reject? || e.Discard? || e.UpsertAgain? {
      OtherPublisherSteps(tr, c, s, e);
    } else if e.Check? || e.Issue? || e.ObserveAbsent? || e.Finalize? || e.Release? {
      CleanerSteps(tr, c, s, e);
    }
  }

  /** Only a finalizing cleaner takes a receipt away from a row outside the ledger. */
  lemma {:induction false} ReceiptsStay(tr: Trust, c: Contents, s: State, e: Event, v: VectorId)
    requires Inv(tr, c, s) && v in s.tables.receipts && v !in s.tables.ledger
    ensures v in Step(tr, c, s, e).tables.receipts || Forgets(tr, c, s, e, v)
  {
  }

  ghost predicate IsHeld(t: Tables, v: VectorId) {
    v in t.ledger || v in t.receipts
  }

  ghost predicate IsLetGo(tr: Trust, c: Contents, s: State, e: Event, v: VectorId) {
    Retires(tr, c, s, e, v) || Forgets(tr, c, s, e, v)
  }

  lemma {:induction false} HeldOrLetGo(tr: Trust, c: Contents, events: seq<Event>, e: Event, v: VectorId)
    requires IsHeld(Run(tr, c, events).tables, v)
    ensures IsHeld(Step(tr, c, Run(tr, c, events), e).tables, v) || IsLetGo(tr, c, Run(tr, c, events), e, v)
  {
    var s := Run(tr, c, events);
    RunsKeepInv(tr, c, events);
    if v !in s.tables.ledger {
      ReceiptsStay(tr, c, s, e, v);
    } else if v !in Step(tr, c, s, e).tables.ledger {
      LeavingRowHasReceipt(tr, c, events, e, v);
    }
  }

  ghost predicate IsLetGoAt(tr: Trust, c: Contents, events: seq<Event>, i: nat, j: nat, v: VectorId) {
    i <= j < |events| && IsLetGo(tr, c, Run(tr, c, events[..j]), events[j], v)
  }

  lemma {:induction false} RowIsTracked(tr: Trust, c: Contents, events: seq<Event>, i: nat, v: VectorId)
    requires i <= |events| && v in Run(tr, c, events[..i]).tables.ledger
    ensures IsHeld(Run(tr, c, events).tables, v) || exists j: nat :: IsLetGoAt(tr, c, events, i, j, v)
    decreases |events|
  {
    if i == |events| {
      assert events[..i] == events;
    } else {
      var n := |events| - 1;
      var before := events[..n];
      assert before[..i] == events[..i];
      RowIsTracked(tr, c, before, i, v);
      if IsHeld(Run(tr, c, before).tables, v) {
        HeldOrLetGo(tr, c, before, events[n], v);
        assert IsLetGo(tr, c, Run(tr, c, before), events[n], v) ==> IsLetGoAt(tr, c, events, i, n, v);
      } else {
        var j: nat :| IsLetGoAt(tr, c, before, i, j, v);
        assert before[..j] == events[..j];
        assert IsLetGoAt(tr, c, events, i, j, v);
      }
    }
  }

  /** The row was seen absent by one cleaner whose claim was current without a break until it took the receipt away. */
  ghost predicate WasSeenAbsent(tr: Trust, c: Contents, events: seq<Event>, k: nat, j: nat, v: VectorId) {
    && k < j < |events| && events[j].Finalize?
    && var s := Run(tr, c, events[..j]);
    && events[j].id in s.workers && s.workers[events[j].id].Cleaner? && v in s.workers[events[j].id].claimed
    && v !in Run(tr, c, events[..k]).vectors
    && forall m :: k <= m <= j ==>
      CurrentClaim(Run(tr, c, events[..m]).tables, v, s.workers[events[j].id].token, Run(tr, c, events[..m]).clock)
  }

  ghost predicate WasRetired(tr: Trust, c: Contents, events: seq<Event>, i: nat, j: nat, v: VectorId) {
    i <= j < |events| && Retires(tr, c, Run(tr, c, events[..j]), events[j], v)
  }

  lemma {:induction false} ForgottenWasSeenAbsent(tr: Trust, c: Contents, events: seq<Event>, j: nat, v: VectorId)
    returns (k: nat)
    requires j < |events| && Forgets(tr, c, Run(tr, c, events[..j]), events[j], v)
    ensures WasSeenAbsent(tr, c, events, k, j, v)
  {
    k := ReceiptGoesUnderOneClaim(tr, c, events[..j], events[j], v);
    assert forall m :: k <= m <= j ==> events[..j][..m] == events[..m];
  }

  /**
   Nothing leaks: in every run, every row that was ever in the ledger is in the ledger, has a cleanup receipt, was
   retired under a recorded deletion since, or was since then seen absent from the index under one unbroken claim.
   */
  lemma {:induction false} NoRowIsForgotten(tr: Trust, c: Contents, events: seq<Event>, i: nat, v: VectorId)
    requires i <= |events| && v in Run(tr, c, events[..i]).tables.ledger
    ensures var t := Run(tr, c, events).tables;
      || v in t.ledger || v in t.receipts
      || (exists j: nat :: WasRetired(tr, c, events, i, j, v))
      || (exists k: nat, j: nat :: i < k && WasSeenAbsent(tr, c, events, k, j, v))
  {
    RowIsTracked(tr, c, events, i, v);
    var t := Run(tr, c, events).tables;
    if v !in t.ledger && v !in t.receipts {
      var j: nat :| IsLetGoAt(tr, c, events, i, j, v);
      if Forgets(tr, c, Run(tr, c, events[..j]), events[j], v) {
        var k := ForgottenWasSeenAbsent(tr, c, events, j, v);
        assert k <= i ==> CurrentClaim(
          Run(tr, c, events[..i]).tables, v, Run(tr, c, events[..j]).workers[events[j].id].token,
          Run(tr, c, events[..i]).clock);
      } else {
        assert WasRetired(tr, c, events, i, j, v);
      }
    }
  }

  /** A publisher that gives up leaves none of its vectors unaccounted for. */
  lemma {:induction false} DiscardedHaveReceipts(tr: Trust, c: Contents, events: seq<Event>, id: nat, chunk: nat)
    requires Running(Run(tr, c, events), id, Rejected)
    requires chunk < Run(tr, c, events).workers[id].head.chunkCount
    ensures var s, n := Run(tr, c, events), Step(tr, c, Run(tr, c, events), Discard(id));
      var v := VectorId(s.workers[id].head.revision, chunk);
      v in n.tables.ledger || v in n.tables.receipts
  {
    RunsKeepInv(tr, c, events);
    assert WorkerOk(c, Run(tr, c, events), Run(tr, c, events).workers[id]);
  }

  /** When a commit is accepted, and what is published then. */
  lemma {:induction false} CommitPublishes(tr: Trust, c: Contents, events: seq<Event>, id: nat)
    requires Running(Run(tr, c, events), id, Upserted)
    ensures var s, n := Run(tr, c, events), Step(tr, c, Run(tr, c, events), Commit(id, false));
      var head, was := s.workers[id].head, s.tables;
      && (Running(n, id, Committed) <==>
           && (forall v :: v in was.receipts ==> v.revision != head.revision)
           && !(was.deletion.Some? && was.deletion.value.revision == head.revision)
           && (was.head.Some? ==>
                || head.version > was.head.value.version
                || (head.version == was.head.value.version && head.revision == was.head.value.revision)))
      && (Running(n, id, Committed) ==> n.tables.head == Some(head))
      && (!Running(n, id, Committed) ==> n.tables == s.tables)
  {
  }
}
