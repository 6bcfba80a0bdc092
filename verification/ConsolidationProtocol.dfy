/** Every interleaving of the workflow instances on one consolidation; any response may be lost after its commit. */
module ConsolidationProtocol {
  import opened Common
  import opened Consolidation
  import opened ConsolidationStore

  /** `tokens` are the ones some instance has learned; `grants` remembers every claim that ever succeeded. */
  datatype State = State(tables: Tables, tokens: set<Token>, grants: map<nat, Token>, clock: Time)

  datatype Event =
    | Tick
    | Claim(owner: nat, claim: nat)
    | Learn(owner: nat, claim: nat)
    | Renew(token: Token, seen: Time, until: Time)
    | Persist(batch: nat, receipt: Receipt)
    | Finish(token: Token, expected: nat)
    | Fail(token: Token)
    | Observe(id: nat, content: Content)
    | RejectCandidate(candidate: CandidateId)
    | InvalidateEvidence

  ghost function Effect(s: State, e: Event): Tables {
    var t := s.tables;
    match e
    case Tick => t
    case Learn(_, _) => t
    case Claim(owner, claim) => Claimed(t, owner, claim, s.clock)
    case Renew(token, seen, until) =>
      if token in s.tokens && until > seen then Renewed(t, token, seen, until, s.clock) else t
    case Persist(batch, r) =>
      if r.token in s.tokens && batch in Batches(t.inputs) && MayPersist(t, r.token, batch, r.manifest, s.clock)
      then Persisted(t, batch, r) else t
    case Finish(token, expected) => if token in s.tokens then Finished(t, token, expected, s.clock) else t
    case Fail(token) => if token in s.tokens then FailedBy(t, token) else t
    case Observe(id, content) =>
      if Other(id) in t.observations then t
      else t.(observations := t.observations[Other(id) := Observation(content, false)])
    case RejectCandidate(c) =>
      if c in t.observations then t.(observations := t.observations[c := t.observations[c].(rejected := true)]) else t
    case InvalidateEvidence =>
      if t.row.status in {Queued, Running, Failed} then t.(row := t.row.(postStateValid := false)) else t
  }

  ghost function Step(s: State, e: Event): State {
    var u := Effect(s, e);
    State(u,
          if e.Learn? && Interpret(s.tables.row, e.owner, e.claim, s.clock).Some?
          then s.tokens + {Interpret(s.tables.row, e.owner, e.claim, s.clock).value} else s.tokens,
          if e.Claim? && u.row.epoch > s.tables.row.epoch
          then s.grants[u.row.epoch := Token(e.owner, e.claim, u.row.epoch)] else s.grants,
          if e.Tick? then s.clock + 1 else s.clock)
  }

  ghost function Run(s: State, events: seq<Event>): State
    decreases |events|
  {
    if events == [] then s else Step(Run(s, events[..|events| - 1]), events[|events| - 1])
  }

  function Init(inputs: set<nat>): State {
    State(Tables(Row(Queued, None, 0, true), inputs, map[], map[], map[]), {}, map[], 0)
  }

  // ----- Invariants

  ghost predicate GrantsOk(s: State) {
    && (forall e :: e in s.grants <==> 1 <= e <= s.tables.row.epoch)
    && (forall e :: e in s.grants ==> s.grants[e].epoch == e)
    && (forall k :: k in s.tokens ==> k.epoch in s.grants && s.grants[k.epoch] == k)
    && (s.tables.row.status == Running ==>
          s.tables.row.epoch in s.grants && HoldsLease(s.tables.row, s.grants[s.tables.row.epoch]))
  }

  ghost predicate IsTerminal(row: Row) {
    row.status == Complete || row.status == Noop
  }

  /** A terminal status comes with the exact set of receipts. */
  ghost predicate TerminalExact(t: Tables) {
    IsTerminal(t.row) ==>
      && t.receipts.Keys == Batches(t.inputs)
      && (t.row.status == Noop <==> t.outputs == map[])
  }

  ghost predicate Inv(s: State) {
    LeaseOk(s.tables.row) && GrantsOk(s) && OutputsOk(s.tables) && TerminalExact(s.tables)
  }

  lemma {:induction false} StoredOutputCount(outputs: map<nat, CandidateId>, manifest: seq<Prepared>)
    requires forall i, j :: 0 <= i < j < |manifest| ==> manifest[i].order != manifest[j].order
    requires forall i :: 0 <= i < |manifest| ==> manifest[i].order !in outputs
    ensures |StoredOutputs(outputs, manifest)| == |outputs| + |manifest|
  {
    if manifest != [] {
      var n := |manifest| - 1;
      var shorter := manifest[..n];
      StoredOutputCount(outputs, shorter);
      StoredEntries(outputs, map[], shorter);
      assert !HasEntry(shorter, manifest[n].order);
      AddedOne(StoredOutputs(outputs, shorter), manifest[n].order, ForSlot(manifest[n].order));
    }
  }

  lemma {:induction false} AddedOne(outputs: map<nat, CandidateId>, o: nat, c: CandidateId)
    requires o !in outputs
    ensures |outputs[o := c]| == |outputs| + 1
  {
    assert outputs[o := c].Keys == outputs.Keys + {o};
  }

  lemma {:induction false} PersistKeepsReceipts(t: Tables, batch: nat, r: Receipt, b: nat)
    requires OutputsOk(t) && batch in Batches(t.inputs) && batch !in t.receipts && ManifestOk(batch, r.manifest)
    requires b in t.receipts || b == batch
    ensures ReceiptOk(Persisted(t, batch, r), b)
  {
    var u := Persisted(t, batch, r);
    StoredEntries(t.outputs, t.observations, r.manifest);
    if b != batch {
      assert ReceiptOk(t, b);
      forall i | 0 <= i < |t.receipts[b].manifest|
        ensures var p := t.receipts[b].manifest[i];
          && p.order in u.outputs && u.outputs[p.order] == ForSlot(p.order)
          && ForSlot(p.order) in u.observations && u.observations[ForSlot(p.order)].content == p.content
      {
        SlotsBelongToOneBatch(b, batch, t.receipts[b].manifest[i].order);
        assert !HasEntry(r.manifest, t.receipts[b].manifest[i].order);
      }
    }
  }

  lemma {:induction false} PersistKeepsOutput(t: Tables, batch: nat, r: Receipt, o: nat)
    requires OutputsOk(t) && batch !in t.receipts && ManifestOk(batch, r.manifest)
    requires o in Persisted(t, batch, r).outputs || ForSlot(o) in Persisted(t, batch, r).observations
    ensures OutputOk(Persisted(t, batch, r), o)
  {
    StoredEntries(t.outputs, t.observations, r.manifest);
    if HasEntry(r.manifest, o) {
      SlotsBelongToOneBatch(batch, batch, o);
    } else {
      assert OutputOk(t, o);
    }
  }

  lemma {:induction false} PersistKeepsOutputs(t: Tables, batch: nat, r: Receipt)
    requires OutputsOk(t) && batch in Batches(t.inputs) && batch !in t.receipts && ManifestOk(batch, r.manifest)
    ensures OutputsOk(Persisted(t, batch, r))
  {
    var u := Persisted(t, batch, r);
    forall b {:trigger ReceiptOk(u, b)} | b in u.receipts ensures ReceiptOk(u, b) {
      PersistKeepsReceipts(t, batch, r, b);
    }
    forall o {:trigger OutputOk(u, o)} | o in u.outputs || ForSlot(o) in u.observations ensures OutputOk(u, o) {
      PersistKeepsOutput(t, batch, r, o);
    }
    FreeSlots(t, batch);
    StoredOutputCount(t.outputs, r.manifest);
    SumWithout(u.receipts, batch);
    assert u.receipts - {batch} == t.receipts;
  }

  /** Only rejections and observations elsewhere touch the observations besides batches. */
  lemma {:induction false} ObservationsKeepOutputs(t: Tables, u: Tables)
    requires OutputsOk(t) && u.inputs == t.inputs && u.receipts == t.receipts && u.outputs == t.outputs
    requires forall c :: c in t.observations ==>
      c in u.observations && u.observations[c].content == t.observations[c].content
    requires forall o :: ForSlot(o) in u.observations ==> ForSlot(o) in t.observations
    ensures OutputsOk(u)
  {
    forall b {:trigger ReceiptOk(u, b)} | b in u.receipts ensures ReceiptOk(u, b) {
      assert ReceiptOk(t, b);
    }
    forall o {:trigger OutputOk(u, o)} | o in u.outputs || ForSlot(o) in u.observations ensures OutputOk(u, o) {
      assert OutputOk(t, o);
    }
  }

  lemma {:induction false} StepKeepsOutputs(s: State, e: Event)
    requires OutputsOk(s.tables)
    ensures OutputsOk(Effect(s, e))
  {
    var t, u := s.tables, Effect(s, e);
    if e.Persist? {
      if u != t {
        PersistKeepsOutputs(t, e.batch, e.receipt);
      }
    } else {
      ObservationsKeepOutputs(t, u);
    }
  }

  lemma {:induction false} StepKeepsLease(s: State, e: Event)
    requires LeaseOk(s.tables.row) && GrantsOk(s)
    ensures LeaseOk(Effect(s, e).row) && GrantsOk(Step(s, e))
  {
    var row, next := s.tables.row, Effect(s, e).row;
    if e.Claim? {
      assert MayClaim(row, s.clock) ==> next.epoch == row.epoch + 1;
    } else {
      assert next.epoch == row.epoch;
    }
  }

  lemma {:induction false} StepKeepsTerminal(s: State, e: Event)
    requires LeaseOk(s.tables.row) && TerminalExact(s.tables)
    ensures TerminalExact(Effect(s, e))
  {
  }

  lemma {:induction false} StepKeepsInv(s: State, e: Event)
    requires Inv(s)
    ensures Inv(Step(s, e))
  {
    StepKeepsLease(s, e);
    StepKeepsOutputs(s, e);
    StepKeepsTerminal(s, e);
  }

  lemma {:induction false} RunsKeepInv(inputs: set<nat>, events: seq<Event>)
    ensures Inv(Run(Init(inputs), events))
  {
    if events != [] {
      RunsKeepInv(inputs, events[..|events| - 1]);
      StepKeepsInv(Run(Init(inputs), events[..|events| - 1]), events[|events| - 1]);
    }
  }

  // ----- Theorems

  /** Two tokens with one epoch are the same token, and between batches nobody sees an operation in progress. */
  lemma {:induction false} OneTokenPerEpoch(inputs: set<nat>, events: seq<Event>, a: Token, b: Token)
    requires a in Run(Init(inputs), events).tokens && b in Run(Init(inputs), events).tokens
    ensures a.epoch == b.epoch ==> a == b
    ensures var row := Run(Init(inputs), events).tables.row;
      && a.epoch <= row.epoch && (row.lease.Some? ==> row.lease.value.operation == None)
  {
    RunsKeepInv(inputs, events);
  }

  ghost predicate Advanced(t: Tables, u: Tables) {
    && t.row.epoch <= u.row.epoch && u.inputs == t.inputs
    && (forall b :: b in t.receipts ==> b in u.receipts && u.receipts[b] == t.receipts[b])
    && (IsTerminal(t.row) ==> u.row == t.row && u.receipts == t.receipts && u.outputs == t.outputs)
  }

  lemma {:induction false} StepAdvances(s: State, e: Event)
    requires LeaseOk(s.tables.row)
    ensures Advanced(s.tables, Effect(s, e))
  {
  }

  /** Epochs never fall, receipts never change, and a terminal consolidation stays exactly as it is. */
  lemma {:induction false} RunAdvances(inputs: set<nat>, events: seq<Event>, i: nat)
    requires i <= |events|
    ensures Advanced(Run(Init(inputs), events[..i]).tables, Run(Init(inputs), events).tables)
    decreases |events|
  {
    if i == |events| {
      assert events[..i] == events;
    } else {
      var earlier := events[..|events| - 1];
      assert earlier[..i] == events[..i];
      RunAdvances(inputs, earlier, i);
      RunsKeepInv(inputs, earlier);
      StepAdvances(Run(Init(inputs), earlier), events[|events| - 1]);
    }
  }

  ghost predicate ClaimSucceeds(inputs: set<nat>, events: seq<Event>, i: nat)
    requires i < |events|
  {
    var s := Run(Init(inputs), events[..i]);
    events[i].Claim? && MayClaim(s.tables.row, s.clock)
  }

  predicate UsesToken(e: Event, token: Token) {
    || (e.Renew? && e.token == token) || (e.Persist? && e.receipt.token == token)
    || (e.Finish? && e.token == token) || (e.Fail? && e.token == token)
  }

  /** Once a later claim has succeeded, every step of an earlier token changes nothing, for ever. */
  lemma {:induction false} SupersededTokenChangesNothing(inputs: set<nat>, events: seq<Event>, i: nat, token: Token,
    e: Event)
    requires i < |events| && token in Run(Init(inputs), events[..i]).tokens && ClaimSucceeds(inputs, events, i)
    requires UsesToken(e, token)
    ensures Step(Run(Init(inputs), events), e) == Run(Init(inputs), events)
  {
    RunsKeepInv(inputs, events[..i]);
    assert events[..i + 1][..i] == events[..i];
    RunAdvances(inputs, events, i + 1);
    assert Run(Init(inputs), events).tables.row.epoch > token.epoch;
  }

  /** Two claims that both succeed get strictly increasing epochs. */
  lemma {:induction false} EpochsStrictlyGrow(inputs: set<nat>, events: seq<Event>, i: nat, j: nat)
    requires i < j < |events| && ClaimSucceeds(inputs, events, i) && ClaimSucceeds(inputs, events, j)
    ensures Run(Init(inputs), events[..i + 1]).tables.row.epoch < Run(Init(inputs), events[..j + 1]).tables.row.epoch
  {
    assert events[..j][..i + 1] == events[..i + 1];
    RunAdvances(inputs, events[..j], i + 1);
    ClaimRaisesEpoch(inputs, events, j);
  }

  lemma {:induction false} ClaimRaisesEpoch(inputs: set<nat>, events: seq<Event>, i: nat)
    requires i < |events| && ClaimSucceeds(inputs, events, i)
    ensures Run(Init(inputs), events[..i + 1]).tables.row.epoch == Run(Init(inputs), events[..i]).tables.row.epoch + 1
  {
    assert events[..i + 1][..i] == events[..i];
  }

  /** A terminal status means one receipt for each frozen batch, and as many outputs as the receipts count. */
  lemma {:induction false} TerminalIsExact(inputs: set<nat>, events: seq<Event>)
    ensures var t := Run(Init(inputs), events).tables;
      IsTerminal(t.row) ==>
        && t.receipts.Keys == Batches(inputs)
        && |t.outputs| == SuggestionCount(t.receipts)
        && (t.row.status == Complete <==> t.outputs != map[])
        && t.row.lease == None
  {
    RunsKeepInv(inputs, events);
    assert events[..0] == [];
    RunAdvances(inputs, events, 0);
  }

  /** In every reachable state completion needs nothing but a live lease, valid evidence and every batch's receipt. */
  lemma {:induction false} FinishSucceedsIff(inputs: set<nat>, events: seq<Event>, token: Token)
    ensures var s := Run(Init(inputs), events);
      IsTerminal(Finished(s.tables, token, |Batches(inputs)|, s.clock).row) <==>
        || IsTerminal(s.tables.row)
        || (Live(s.tables.row, token, s.clock) && s.tables.row.postStateValid
          && s.tables.receipts.Keys == Batches(inputs))
  {
    RunsKeepInv(inputs, events);
    assert events[..0] == [];
    RunAdvances(inputs, events, 0);
    var t := Run(Init(inputs), events).tables;
    assert |t.receipts.Keys| == |t.receipts|;
  }

  /** An output slot belongs to one batch and carries that slot's own candidate. */
  lemma {:induction false} OutputsBelongToReceipts(inputs: set<nat>, events: seq<Event>, o: nat)
    requires o in Run(Init(inputs), events).tables.outputs
    ensures var t := Run(Init(inputs), events).tables;
      && t.outputs[o] == ForSlot(o)
      && (forall b :: b in t.receipts ==> (HasEntry(t.receipts[b].manifest, o) <==> b == o / OUTPUTS_PER_BATCH))
  {
    RunsKeepInv(inputs, events);
    var t := Run(Init(inputs), events).tables;
    assert OutputOk(t, o) && ReceiptOk(t, o / OUTPUTS_PER_BATCH);
    forall b | b in t.receipts ensures HasEntry(t.receipts[b].manifest, o) <==> b == o / OUTPUTS_PER_BATCH {
      assert ReceiptOk(t, b);
      SlotsBelongToOneBatch(b, b, o);
    }
  }

  /** After a batch whose response was lost, reading the receipt back tells whether exactly this batch is durable. */
  lemma {:induction false} RecoveryIsExact(inputs: set<nat>, events: seq<Event>, batch: nat, r: Receipt)
    ensures var s := Run(Init(inputs), events); var u := Step(s, Persist(batch, r)).tables;
      && (Recovers(u, batch, r.inputs, r.model, r.manifest) <==>
            || Recovers(s.tables, batch, r.inputs, r.model, r.manifest)
            || (r.token in s.tokens && batch in Batches(inputs)
              && MayPersist(s.tables, r.token, batch, r.manifest, s.clock)))
      && (Recovers(s.tables, batch, r.inputs, r.model, r.manifest) ==> u == s.tables)
  {
    assert events[..0] == [];
    RunAdvances(inputs, events, 0);
  }
}
