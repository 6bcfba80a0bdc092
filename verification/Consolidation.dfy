/**
 One session consolidation: its lease row, batch receipts and outputs
 (src/workflows/quality.ts, migrations/0016_consolidation_lease.sql, migrations/0018_consolidation_batch_receipts.sql).
 */
module Consolidation {
  import opened Common

  const BATCH_SIZE: nat := 50
  const OUTPUTS_PER_BATCH: nat := 10
  const LEASE_DURATION: nat := 20 * 60 * 1_000

  type Time = nat
  type Digest = nat
  type Content = nat

  datatype Status = Queued | Running | Failed | Complete | Noop

  datatype Token = Token(owner: nat, claim: nat, epoch: nat)

  /** Owner, claim and expiry are stored together: all there while running, all absent otherwise. */
  datatype Lease = Lease(owner: nat, claim: nat, expiresAt: Time, operation: Option<nat>)

  datatype Row = Row(status: Status, lease: Option<Lease>, epoch: nat, postStateValid: bool)

  /** The stable identifier of an output slot's candidate, or any other observation of the project. */
  datatype CandidateId = ForSlot(order: nat) | Other(id: nat)

  datatype Observation = Observation(content: Content, rejected: bool)

  /** A suggestion that made it into the batch, and its entry in the receipt's manifest. */
  datatype Prepared = Prepared(order: nat, content: Content)

  datatype Receipt = Receipt(token: Token, operation: nat, inputs: Digest, model: Digest, manifest: seq<Prepared>)

  datatype Tables = Tables(
    row: Row,
    inputs: set<nat>,
    receipts: map<nat, Receipt>,
    outputs: map<nat, CandidateId>,
    observations: map<CandidateId, Observation>)

  function BatchOf(inputOrder: nat): nat {
    inputOrder / BATCH_SIZE
  }

  /** `listConsolidationBatchIndexes` */
  function Batches(inputs: set<nat>): set<nat> {
    set i | i in inputs :: BatchOf(i)
  }

  function Slot(batch: nat, index: nat): nat {
    batch * OUTPUTS_PER_BATCH + index
  }

  predicate InBatch(batch: nat, order: nat) {
    Slot(batch, 0) <= order <= Slot(batch, OUTPUTS_PER_BATCH - 1)
  }

  lemma {:induction false} SlotsBelongToOneBatch(a: nat, b: nat, order: nat)
    ensures InBatch(a, order) <==> order / OUTPUTS_PER_BATCH == a
    ensures InBatch(a, order) && InBatch(b, order) ==> a == b
  {
  }

  predicate HoldsLease(row: Row, token: Token) {
    && row.status == Running && row.lease.Some? && row.epoch == token.epoch
    && row.lease.value.owner == token.owner && row.lease.value.claim == token.claim
  }

  /** The fence of every step that a token guards: its own, unexpired, and no batch in progress. */
  predicate Live(row: Row, token: Token, now: Time) {
    HoldsLease(row, token) && row.lease.value.operation == None && row.lease.value.expiresAt > now
  }

  predicate MayClaim(row: Row, now: Time) {
    || row.status in {Queued, Failed}
    || (row.status == Running && row.lease.Some? && row.lease.value.operation == None
      && row.lease.value.expiresAt <= now)
  }

  function Claimed(t: Tables, owner: nat, claim: nat, now: Time): Tables {
    if MayClaim(t.row, now)
    then t.(row := t.row.(status := Running, lease := Some(Lease(owner, claim, now + LEASE_DURATION, None)),
                          epoch := t.row.epoch + 1))
    else t
  }

  /** `interpretConsolidationLeaseClaim`: what reading the row afterwards gives the claimer. */
  function Interpret(row: Row, owner: nat, claim: nat, now: Time): Option<Token> {
    if Live(row, Token(owner, claim, row.epoch), now) && row.epoch >= 1 then Some(Token(owner, claim, row.epoch))
      else None
  }

  /** The renewal writes only over the expiry it read. */
  function Renewed(t: Tables, token: Token, seen: Time, until: Time, now: Time): Tables {
    if Live(t.row, token, now) && t.row.lease.value.expiresAt == seen
    then t.(row := t.row.(lease := Some(t.row.lease.value.(expiresAt := until))))
    else t
  }

  function FailedBy(t: Tables, token: Token): Tables {
    if HoldsLease(t.row, token) && t.row.lease.value.operation == None
    then t.(row := t.row.(status := Failed, lease := None))
    else t
  }

  // ----- One batch

  /** Another live observation already holds the content. */
  ghost predicate Duplicated(observations: map<CandidateId, Observation>, p: Prepared) {
    exists c :: c in observations && c != ForSlot(p.order) && observations[c].content == p.content
      && !observations[c].rejected
  }

  ghost predicate Storable(t: Tables, p: Prepared) {
    !Duplicated(t.observations, p)
  }

  /** What the receipt's trigger demands of a manifest by itself. */
  ghost predicate ManifestOk(batch: nat, manifest: seq<Prepared>) {
    && |manifest| <= OUTPUTS_PER_BATCH
    && (forall i :: 0 <= i < |manifest| ==> InBatch(batch, manifest[i].order))
    && (forall i, j :: 0 <= i < j < |manifest| ==>
          manifest[i].order != manifest[j].order && manifest[i].content != manifest[j].content)
  }

  function StoredOutputs(outputs: map<nat, CandidateId>, manifest: seq<Prepared>): map<nat, CandidateId> {
    if manifest == [] then outputs
    else
      var p := manifest[|manifest| - 1];
      StoredOutputs(outputs, manifest[..|manifest| - 1])[p.order := ForSlot(p.order)]
  }

  function StoredObservations(observations: map<CandidateId, Observation>, manifest: seq<Prepared>):
    map<CandidateId, Observation>
  {
    if manifest == [] then observations
    else
      var p := manifest[|manifest| - 1];
      StoredObservations(observations, manifest[..|manifest| - 1])[ForSlot(p.order) := Observation(p.content, false)]
  }

  /** The guard of the whole batch. */
  ghost predicate MayPersist(t: Tables, token: Token, batch: nat, manifest: seq<Prepared>, now: Time) {
    && Live(t.row, token, now)
    && batch !in t.receipts
    && ManifestOk(batch, manifest)
    && forall i :: 0 <= i < |manifest| ==> Storable(t, manifest[i])
  }

  function Persisted(t: Tables, batch: nat, receipt: Receipt): Tables {
    t.(receipts := t.receipts[batch := receipt],
       outputs := StoredOutputs(t.outputs, receipt.manifest),
       observations := StoredObservations(t.observations, receipt.manifest))
  }

  ghost predicate HasEntry(manifest: seq<Prepared>, order: nat) {
    exists i :: 0 <= i < |manifest| && manifest[i].order == order
  }

  predicate EntryStored(t: Tables, p: Prepared) {
    && p.order in t.outputs && t.outputs[p.order] == ForSlot(p.order)
    && ForSlot(p.order) in t.observations && t.observations[ForSlot(p.order)] == Observation(p.content, false)
  }

  /** The trigger on the receipt insert: the lease is held by this very operation and the final state is exact. */
  ghost predicate ReceiptFits(t: Tables, batch: nat, r: Receipt, now: Time) {
    && batch !in t.receipts
    && HoldsLease(t.row, r.token) && t.row.lease.value.operation == Some(r.operation)
      && t.row.lease.value.expiresAt > now
    && ManifestOk(batch, r.manifest)
    && (forall i :: 0 <= i < |r.manifest| ==> EntryStored(t, r.manifest[i]))
    && (forall o :: o in t.outputs && InBatch(batch, o) ==> HasEntry(r.manifest, o))
  }

  /** `recoverExactConsolidationBatchReceipt`, as far as the receipt itself goes. */
  predicate Recovers(t: Tables, batch: nat, inputs: Digest, model: Digest, manifest: seq<Prepared>) {
    && batch in t.receipts
    && t.receipts[batch].inputs == inputs && t.receipts[batch].model == model && t.receipts[batch].manifest == manifest
  }

  // ----- Finishing

  /** `SUM(suggestion_count)` */
  ghost function SuggestionCount(receipts: map<nat, Receipt>): nat
    decreases |receipts|
  {
    if receipts == map[] then 0
    else
      var b :| b in receipts;
      assert |receipts - {b}| < |receipts| by { RemovedOne(receipts, b); }
      |receipts[b].manifest| + SuggestionCount(receipts - {b})
  }

  lemma {:induction false} RemovedOne(receipts: map<nat, Receipt>, b: nat)
    requires b in receipts
    ensures |receipts - {b}| == |receipts| - 1
  {
    assert (receipts - {b}).Keys == receipts.Keys - {b};
  }

  /** The sum does not depend on the order in which the rows are met. */
  lemma {:induction false} SumWithout(receipts: map<nat, Receipt>, b: nat)
    requires b in receipts
    ensures SuggestionCount(receipts) == |receipts[b].manifest| + SuggestionCount(receipts - {b})
    decreases |receipts|
  {
    var c :| c in receipts && SuggestionCount(receipts) == |receipts[c].manifest| + SuggestionCount(receipts - {c});
    if c != b {
      RemovedOne(receipts, b);
      RemovedOne(receipts, c);
      SumWithout(receipts - {c}, b);
      SumWithout(receipts - {b}, c);
      assert receipts - {c} - {b} == receipts - {b} - {c};
    }
  }

  /** The terminal trigger. */
  ghost predicate TerminalOk(t: Tables) {
    && t.row.postStateValid
    && t.receipts.Keys == Batches(t.inputs)
    && SuggestionCount(t.receipts) == |t.outputs|
  }

  ghost function Finished(t: Tables, token: Token, expected: nat, now: Time): Tables {
    if Live(t.row, token, now) && |t.receipts| == expected && TerminalOk(t)
    then t.(row := t.row.(status := if t.outputs == map[] then Noop else Complete, lease := None))
    else t
  }

  // ----- Invariants of the tables

  predicate LeaseOk(row: Row) {
    && (row.status == Running <==> row.lease.Some?)
    && (row.status == Running ==> row.epoch >= 1 && row.lease.value.operation == None)
  }

  ghost predicate ReceiptOk(t: Tables, b: nat)
    requires b in t.receipts
  {
    && b in Batches(t.inputs)
    && ManifestOk(b, t.receipts[b].manifest)
    && forall i :: 0 <= i < |t.receipts[b].manifest| ==>
         var p := t.receipts[b].manifest[i];
         && p.order in t.outputs && t.outputs[p.order] == ForSlot(p.order)
         && ForSlot(p.order) in t.observations && t.observations[ForSlot(p.order)].content == p.content
  }

  /** An output row sits in its batch's slots, and that batch's receipt lists it. */
  ghost predicate OutputOk(t: Tables, o: nat) {
    o / OUTPUTS_PER_BATCH in t.receipts && HasEntry(t.receipts[o / OUTPUTS_PER_BATCH].manifest, o)
  }

  ghost predicate OutputsOk(t: Tables) {
    && (forall b {:trigger ReceiptOk(t, b)} :: b in t.receipts ==> ReceiptOk(t, b))
    && (forall o {:trigger OutputOk(t, o)} :: o in t.outputs || ForSlot(o) in t.observations ==> OutputOk(t, o))
    && |t.outputs| == SuggestionCount(t.receipts)
  }
}
