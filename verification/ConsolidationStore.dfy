/** The consolidation statements, in the order the batches send them. */
module ConsolidationStore {
  import opened Common
  import opened Consolidation

  /** The suggestions of one model answer, numbered within the batch. */
  datatype Suggestion = Suggestion(index: nat, content: Content)

  predicate Kept(suggestions: seq<Suggestion>, stored: set<Content>, resolved: set<nat>, n: nat)
    requires n < |suggestions|
  {
    && (forall j :: 0 <= j < n ==> suggestions[j].content != suggestions[n].content)
    && suggestions[n].content !in stored && n in resolved
  }

  function KeptSlots(batch: nat, suggestions: seq<Suggestion>, stored: set<Content>, resolved: set<nat>,
    n: nat): seq<Prepared>
    requires n <= |suggestions|
  {
    if n == 0 then []
    else
      var before := KeptSlots(batch, suggestions, stored, resolved, n - 1);
      if Kept(suggestions, stored, resolved, n - 1)
      then before + [Prepared(Slot(batch, suggestions[n - 1].index), suggestions[n - 1].content)] else before
  }

  lemma {:induction false} KeptComeFrom(batch: nat, suggestions: seq<Suggestion>, stored: set<Content>,
    resolved: set<nat>,
                                        n: nat, k: nat) returns (i: nat)
    requires n <= |suggestions| && k < |KeptSlots(batch, suggestions, stored, resolved, n)|
    ensures i < n && Kept(suggestions, stored, resolved, i)
    ensures KeptSlots(batch, suggestions, stored, resolved, n)[k] ==
      Prepared(Slot(batch, suggestions[i].index), suggestions[i].content)
    ensures |KeptSlots(batch, suggestions, stored, resolved, i)| == k
  {
    var before := KeptSlots(batch, suggestions, stored, resolved, n - 1);
    if k < |before| {
      i := KeptComeFrom(batch, suggestions, stored, resolved, n - 1, k);
    } else {
      i := n - 1;
    }
  }

  lemma {:induction false} KeptLength(batch: nat, suggestions: seq<Suggestion>, stored: set<Content>,
    resolved: set<nat>, n: nat)
    requires n <= |suggestions|
    ensures |KeptSlots(batch, suggestions, stored, resolved, n)| <= n
  {
    if n > 0 {
      KeptLength(batch, suggestions, stored, resolved, n - 1);
    }
  }

  /** What the batch prepares always satisfies the receipt's trigger as far as the manifest alone is concerned. */
  lemma {:induction false} PreparedManifestIsOk(batch: nat, suggestions: seq<Suggestion>, stored: set<Content>,
    resolved: set<nat>)
    requires |suggestions| <= OUTPUTS_PER_BATCH
    requires forall i :: 0 <= i < |suggestions| ==> suggestions[i].index < OUTPUTS_PER_BATCH
    requires forall i, j :: 0 <= i < j < |suggestions| ==> suggestions[i].index < suggestions[j].index
    ensures ManifestOk(batch, KeptSlots(batch, suggestions, stored, resolved, |suggestions|))
  {
    var kept := KeptSlots(batch, suggestions, stored, resolved, |suggestions|);
    KeptLength(batch, suggestions, stored, resolved, |suggestions|);
    forall k | 0 <= k < |kept| ensures InBatch(batch, kept[k].order) {
      var i := KeptComeFrom(batch, suggestions, stored, resolved, |suggestions|, k);
    }
    forall k, l | 0 <= k < l < |kept| ensures kept[k].order != kept[l].order && kept[k].content != kept[l].content {
      var i := KeptComeFrom(batch, suggestions, stored, resolved, |suggestions|, k);
      var j := KeptComeFrom(batch, suggestions, stored, resolved, |suggestions|, l);
      assert i != j;
    }
  }

  /** The loop of `consolidateSessionBatch` over the model's suggestions. */
  method PrepareSuggestions(batch: nat, suggestions: seq<Suggestion>, stored: set<Content>, resolved: set<nat>)
    returns (prepared: seq<Prepared>)
    ensures prepared == KeptSlots(batch, suggestions, stored, resolved, |suggestions|)
  {
    prepared := [];
    var seen: set<Content> := {};
    for n := 0 to |suggestions|
      invariant seen == set j | 0 <= j < n :: suggestions[j].content
      invariant prepared == KeptSlots(batch, suggestions, stored, resolved, n)
    {
      var s := suggestions[n];
      if s.content in seen {
        continue;
      }
      seen := seen + {s.content};
      if s.content in stored {
        continue;
      }
      if n !in resolved {
        continue;
      }
      prepared := prepared + [Prepared(Slot(batch, s.index), s.content)];
    }
  }

  /** The batch holds the lease and its slots are still free. */
  ghost predicate Holding(t: Tables, batch: nat, manifest: seq<Prepared>, operation: nat, token: Token) {
    && HoldsLease(t.row, token) && t.row.lease.value.operation == Some(operation)
    && batch !in t.receipts && ManifestOk(batch, manifest)
    && forall i :: 0 <= i < |manifest| ==>
      manifest[i].order !in t.outputs && ForSlot(manifest[i].order) !in t.observations
  }

  ghost predicate AllStorable(t: Tables, manifest: seq<Prepared>) {
    forall i :: 0 <= i < |manifest| ==> Storable(t, manifest[i])
  }

  /** Everything is stored if nothing is duplicated, and a duplicated entry never gets its output. */
  ghost predicate StoredWhatFits(t: Tables, u: Tables, manifest: seq<Prepared>) {
    && u == t.(outputs := u.outputs, observations := u.observations)
    && (AllStorable(t, manifest) ==>
          u.outputs == StoredOutputs(t.outputs, manifest)
            && u.observations == StoredObservations(t.observations, manifest))
    && (forall i :: 0 <= i < |manifest| && !Storable(t, manifest[i]) ==> manifest[i].order !in u.outputs)
    && OutputsGrew(t.outputs, u.outputs, manifest)
    && ObservationsGrew(t.observations, u.observations, manifest)
  }

  ghost predicate OutputsGrew(a: map<nat, CandidateId>, b: map<nat, CandidateId>, manifest: seq<Prepared>) {
    (forall o :: o in a ==> o in b) && (forall o :: o in b && o !in a ==> HasEntry(manifest, o))
  }

  ghost predicate ObservationsGrew(a: map<CandidateId, Observation>, b: map<CandidateId, Observation>,
    manifest: seq<Prepared>)
  {
    && (forall c :: c in a ==> c in b && b[c] == a[c])
    && (forall c :: c in b && c !in a ==> IsEntry(manifest, c, b[c]))
  }

  ghost predicate IsEntry(manifest: seq<Prepared>, c: CandidateId, o: Observation) {
    exists i :: 0 <= i < |manifest| && c == ForSlot(manifest[i].order) && o.content == manifest[i].content
  }

  lemma {:induction false} StoredOneMore(t: Tables, before: Tables, after: Tables, batch: nat, manifest: seq<Prepared>,
    n: nat,
                      operation: nat, token: Token)
    requires n < |manifest| && Holding(t, batch, manifest, operation, token)
    requires StoredWhatFits(t, before, manifest[..n])
    requires var p := manifest[n];
      && after == before.(outputs := after.outputs, observations := after.observations)
      && after.observations ==
           (if p.order !in before.outputs && !Duplicated(before.observations, p)
             && ForSlot(p.order) !in before.observations
            then before.observations[ForSlot(p.order) := Observation(p.content, false)] else before.observations)
      && var stored := ForSlot(p.order) in after.observations
        && after.observations[ForSlot(p.order)].content == p.content;
         after.outputs == (if stored && p.order !in before.outputs then before.outputs[p.order := ForSlot(p.order)]
                           else before.outputs)
    ensures StoredWhatFits(t, after, manifest[..n + 1])
  {
    NotStoredYet(t, before, batch, manifest, n);
    SameDuplicates(t, before, manifest, n, batch);
    if Storable(t, manifest[n]) {
      StoredNext(t, before, after, manifest, n);
    } else {
      SkippedNext(t, before, manifest, n);
    }
  }

  lemma {:induction false} LongerManifest(manifest: seq<Prepared>, n: nat)
    requires n < |manifest|
    ensures manifest[..n + 1][..n] == manifest[..n]
    ensures forall o :: HasEntry(manifest[..n], o) || o == manifest[n].order <==> HasEntry(manifest[..n + 1], o)
    ensures forall c, o :: IsEntry(manifest[..n], c, o) ==> IsEntry(manifest[..n + 1], c, o)
    ensures forall o: Observation :: o.content == manifest[n].content ==>
              IsEntry(manifest[..n + 1], ForSlot(manifest[n].order), o)
  {
    var longer := manifest[..n + 1];
    assert longer[n] == manifest[n];
    forall o ensures HasEntry(manifest[..n], o) || o == manifest[n].order <==> HasEntry(longer, o) {
      if HasEntry(manifest[..n], o) {
        var i :| 0 <= i < n && manifest[..n][i].order == o;
        assert longer[i].order == o;
      }
    }
    forall c, o | IsEntry(manifest[..n], c, o) ensures IsEntry(longer, c, o) {
      var i :| 0 <= i < n && c == ForSlot(manifest[..n][i].order) && o.content == manifest[..n][i].content;
      assert longer[i] == manifest[i];
    }
  }

  lemma {:induction false} StoredNext(t: Tables, before: Tables, after: Tables, manifest: seq<Prepared>, n: nat)
    requires n < |manifest| && StoredWhatFits(t, before, manifest[..n]) && Storable(t, manifest[n])
    requires manifest[n].order !in before.outputs && ForSlot(manifest[n].order) !in before.observations
    requires forall i :: 0 <= i < n ==> manifest[i].order != manifest[n].order
    requires after == before.(
               outputs := before.outputs[manifest[n].order := ForSlot(manifest[n].order)],
               observations := before.observations[ForSlot(manifest[n].order) :=
                 Observation(manifest[n].content, false)])
    ensures StoredWhatFits(t, after, manifest[..n + 1])
  {
    var longer := manifest[..n + 1];
    GrewMore(t.outputs, before.outputs, t.observations, before.observations, manifest, n);
    assert longer[..n] == manifest[..n];
    assert forall i :: 0 <= i < n ==> longer[i] == manifest[..n][i];
    assert AllStorable(t, longer) ==> AllStorable(t, manifest[..n]);
  }

  lemma {:induction false} GrewMore(a: map<nat, CandidateId>, b: map<nat, CandidateId>, c: map<CandidateId,
    Observation>,
                 d: map<CandidateId, Observation>, manifest: seq<Prepared>, n: nat)
    requires n < |manifest| && OutputsGrew(a, b, manifest[..n]) && ObservationsGrew(c, d, manifest[..n])
    requires manifest[n].order !in b && ForSlot(manifest[n].order) !in d
    ensures OutputsGrew(a, b[manifest[n].order := ForSlot(manifest[n].order)], manifest[..n + 1])
    ensures ObservationsGrew(c, d[ForSlot(manifest[n].order) := Observation(manifest[n].content, false)],
      manifest[..n + 1])
  {
    LongerManifest(manifest, n);
  }

  lemma {:induction false} SkippedNext(t: Tables, before: Tables, manifest: seq<Prepared>, n: nat)
    requires n < |manifest| && StoredWhatFits(t, before, manifest[..n]) && !Storable(t, manifest[n])
    requires manifest[n].order !in before.outputs
    ensures StoredWhatFits(t, before, manifest[..n + 1])
  {
    LongerManifest(manifest, n);
    assert forall i :: 0 <= i < n ==> manifest[..n + 1][i] == manifest[..n][i];
    assert !Storable(t, manifest[..n + 1][n]);
  }

  lemma {:induction false} NotStoredYet(t: Tables, before: Tables, batch: nat, manifest: seq<Prepared>, n: nat)
    requires n < |manifest| && ManifestOk(batch, manifest) && StoredWhatFits(t, before, manifest[..n])
    requires manifest[n].order !in t.outputs && ForSlot(manifest[n].order) !in t.observations
    ensures manifest[n].order !in before.outputs && ForSlot(manifest[n].order) !in before.observations
  {
    assert !HasEntry(manifest[..n], manifest[n].order);
    assert forall o :: !IsEntry(manifest[..n], ForSlot(manifest[n].order), o);
  }

  /** The batch's own entries differ in content, so they never duplicate each other. */
  lemma {:induction false} SameDuplicates(t: Tables, before: Tables, manifest: seq<Prepared>, n: nat, batch: nat)
    requires n < |manifest| && ManifestOk(batch, manifest) && StoredWhatFits(t, before, manifest[..n])
    ensures Duplicated(before.observations, manifest[n]) <==> Duplicated(t.observations, manifest[n])
  {
    var p := manifest[n];
    if Duplicated(t.observations, p) {
      var c :| c in t.observations && c != ForSlot(p.order) && t.observations[c].content == p.content
        && !t.observations[c].rejected;
      assert c in before.observations;
    }
    if Duplicated(before.observations, p) {
      var c :| c in before.observations && c != ForSlot(p.order) && before.observations[c].content == p.content
               && !before.observations[c].rejected;
      assert !IsEntry(manifest[..n], c, before.observations[c]);
    }
  }

  function Held(t: Tables, receipt: Receipt): Tables
    requires t.row.lease.Some?
  {
    t.(row := t.row.(lease := Some(t.row.lease.value.(operation := Some(receipt.operation)))))
  }

  /** A batch without a receipt has all its slots free. */
  lemma {:induction false} FreeSlots(t: Tables, batch: nat)
    requires OutputsOk(t) && batch !in t.receipts
    ensures forall o :: InBatch(batch, o) ==> o !in t.outputs && ForSlot(o) !in t.observations
  {
    forall o | InBatch(batch, o) ensures o !in t.outputs && ForSlot(o) !in t.observations {
      SlotsBelongToOneBatch(batch, batch, o);
      assert !OutputOk(t, o);
    }
  }

  lemma {:induction false} FreeBatchHolds(t: Tables, held: Tables, batch: nat, receipt: Receipt, now: Time)
    requires OutputsOk(t) && Live(t.row, receipt.token, now) && held == Held(t, receipt)
    requires ManifestOk(batch, receipt.manifest) && batch !in t.receipts
    ensures Holding(held, batch, receipt.manifest, receipt.operation, receipt.token)
  {
    FreeSlots(t, batch);
  }

  /** The closing trigger accepts exactly the batches that may be persisted. */
  lemma {:induction false} PersistDecides(t: Tables, held: Tables, u: Tables, batch: nat, receipt: Receipt, now: Time)
    requires OutputsOk(t) && LeaseOk(t.row) && ManifestOk(batch, receipt.manifest)
    requires held == if Live(t.row, receipt.token, now) then Held(t, receipt) else t
    requires (!HoldsLease(held.row, receipt.token) || held.row.lease.value.operation != Some(receipt.operation)) ==>
      u == held
    requires Holding(held, batch, receipt.manifest, receipt.operation, receipt.token) ==>
               StoredWhatFits(held, u, receipt.manifest)
    requires u == held.(outputs := u.outputs, observations := u.observations)
    ensures ReceiptFits(u, batch, receipt, now) <==> MayPersist(t, receipt.token, batch, receipt.manifest, now)
    ensures ReceiptFits(u, batch, receipt, now) ==>
      u == held.(outputs := StoredOutputs(t.outputs, receipt.manifest),
                 observations := StoredObservations(t.observations, receipt.manifest))
  {
    if Live(t.row, receipt.token, now) && batch !in t.receipts {
      FreeBatchHolds(t, held, batch, receipt, now);
      assert AllStorable(held, receipt.manifest) <==> AllStorable(t, receipt.manifest);
      if AllStorable(t, receipt.manifest) {
        AllStoredFits(t, u, batch, receipt.manifest);
      } else {
        var i :| 0 <= i < |receipt.manifest| && !Storable(t, receipt.manifest[i]);
        assert !Storable(held, receipt.manifest[i]);
        assert !EntryStored(u, receipt.manifest[i]);
      }
    }
  }

  lemma {:induction false} AllStoredFits(t: Tables, u: Tables, batch: nat, manifest: seq<Prepared>)
    requires OutputsOk(t) && batch !in t.receipts && ManifestOk(batch, manifest)
    requires u.outputs == StoredOutputs(t.outputs, manifest)
      && u.observations == StoredObservations(t.observations, manifest)
    ensures forall i :: 0 <= i < |manifest| ==> EntryStored(u, manifest[i])
    ensures forall o :: o in u.outputs && InBatch(batch, o) ==> HasEntry(manifest, o)
  {
    StoredEntries(t.outputs, t.observations, manifest);
    FreeSlots(t, batch);
    forall o | o in u.outputs && InBatch(batch, o) ensures HasEntry(manifest, o) {
      assert o !in t.outputs;
    }
  }

  /** Where outputs and observations of a manifest come from. */
  ghost predicate StoredFrom(outputs: map<nat, CandidateId>, observations: map<CandidateId, Observation>,
                             u: map<nat, CandidateId>, v: map<CandidateId, Observation>, manifest: seq<Prepared>)
  {
    && (forall i :: 0 <= i < |manifest| ==>
          && manifest[i].order in u && u[manifest[i].order] == ForSlot(manifest[i].order)
          && ForSlot(manifest[i].order) in v
            && v[ForSlot(manifest[i].order)] == Observation(manifest[i].content, false))
    && (forall o :: o in u <==> o in outputs || HasEntry(manifest, o))
    && (forall o :: o in outputs && !HasEntry(manifest, o) ==> u[o] == outputs[o])
    && (forall o :: ForSlot(o) in v <==> ForSlot(o) in observations || HasEntry(manifest, o))
    && (forall c :: c in observations && (c.Other? || !HasEntry(manifest, c.order)) ==>
      c in v && v[c] == observations[c])
  }

  lemma {:induction false} StoredFromNext(outputs: map<nat, CandidateId>, observations: map<CandidateId, Observation>,
                                          u: map<nat, CandidateId>, v: map<CandidateId, Observation>,
                                          manifest: seq<Prepared>, n: nat)
    requires n < |manifest| && StoredFrom(outputs, observations, u, v, manifest[..n])
    requires forall i :: 0 <= i < n ==> manifest[i].order != manifest[n].order
    ensures StoredFrom(outputs, observations, u[manifest[n].order := ForSlot(manifest[n].order)],
                       v[ForSlot(manifest[n].order) := Observation(manifest[n].content, false)], manifest[..n + 1])
  {
    LongerManifest(manifest, n);
    assert forall i :: 0 <= i < n ==> manifest[..n + 1][i] == manifest[..n][i];
  }

  lemma {:induction false} StoredEntries(outputs: map<nat, CandidateId>, observations: map<CandidateId, Observation>,
                                         manifest: seq<Prepared>)
    requires forall i, j :: 0 <= i < j < |manifest| ==> manifest[i].order != manifest[j].order
    ensures StoredFrom(outputs, observations, StoredOutputs(outputs, manifest),
      StoredObservations(observations, manifest), manifest)
  {
    if manifest != [] {
      var n := |manifest| - 1;
      StoredEntries(outputs, observations, manifest[..n]);
      StoredFromNext(outputs, observations, StoredOutputs(outputs, manifest[..n]),
                     StoredObservations(observations, manifest[..n]), manifest, n);
      assert manifest[..n + 1] == manifest;
    }
  }

  class ConsolidationDb {
    var row: Row
    var inputs: set<nat>
    var receipts: map<nat, Receipt>
    var outputs: map<nat, CandidateId>
    var observations: map<CandidateId, Observation>

    function Snapshot(): Tables
      reads this
    {
      Tables(row, inputs, receipts, outputs, observations)
    }

    /** The claim statement, and what reading the row in the same batch gives back. */
    method Claim(owner: nat, claim: nat, now: Time) returns (token: Option<Token>)
      modifies this`row
      ensures Snapshot() == old(Claimed(Snapshot(), owner, claim, now))
      ensures token == Interpret(row, owner, claim, now)
    {
      if MayClaim(row, now) {
        row := row.(status := Running, lease := Some(Lease(owner, claim, now + LEASE_DURATION, None)), epoch :=
          row.epoch + 1);
      }
      token := if Live(row, Token(owner, claim, row.epoch), now) && row.epoch >= 1
        then Some(Token(owner, claim, row.epoch)) else None;
    }

    /** Read the expiry, then write a later one over exactly that expiry. */
    method Renew(token: Token, now: Time) returns (renewed: bool)
      modifies this`row
      ensures renewed == old(Live(row, token, now))
      ensures Snapshot() == old(if Live(row, token, now)
        then Renewed(Snapshot(), token, row.lease.value.expiresAt,
                     Max(now + LEASE_DURATION, row.lease.value.expiresAt + 1) as nat, now)
        else Snapshot())
    {
      if !Live(row, token, now) {
        return false;
      }
      var seen := row.lease.value.expiresAt;
      var until := Max(now + LEASE_DURATION, seen + 1);
      renewed := Live(row, token, now) && row.lease.value.expiresAt == seen;
      if renewed {
        row := row.(lease := Some(row.lease.value.(expiresAt := until)));
      }
    }

    method InsertObservation(p: Prepared, operation: nat, token: Token)
      modifies this`observations
      ensures observations ==
        if old(p.order !in outputs && !Duplicated(observations, p) && HoldsLease(row, token)
               && row.lease.value.operation == Some(operation) && ForSlot(p.order) !in observations)
        then old(observations)[ForSlot(p.order) := Observation(p.content, false)] else old(observations)
    {
      var duplicates := set c | c in observations.Keys && c != ForSlot(p.order)
                                && observations[c].content == p.content && !observations[c].rejected;
      assert duplicates == {} <==> !Duplicated(observations, p) by {
        if c :|
          && c in observations && c != ForSlot(p.order)
          && observations[c].content == p.content && !observations[c].rejected
        {
          assert c in duplicates;
        }
        if duplicates != {} { var c :| c in duplicates; assert c in observations; }
      }
      if && p.order !in outputs && duplicates == {}
         && HoldsLease(row, token) && row.lease.value.operation == Some(operation)
         && ForSlot(p.order) !in observations
      {
        observations := observations[ForSlot(p.order) := Observation(p.content, false)];
      }
    }

    /** An output slot whose batch already has a receipt is frozen; writing it aborts. */
    method InsertOutput(p: Prepared, operation: nat, token: Token) returns (ok: bool)
      modifies this`outputs
      ensures var stored := old(
          ForSlot(p.order) in observations && observations[ForSlot(p.order)].content == p.content
          && HoldsLease(row, token) && row.lease.value.operation == Some(operation));
        && ok == (stored ==> p.order / OUTPUTS_PER_BATCH !in receipts)
        && outputs == if stored && ok && p.order !in old(outputs)
                      then old(outputs)[p.order := ForSlot(p.order)] else old(outputs)
    {
      ok := true;
      if && ForSlot(p.order) in observations && observations[ForSlot(p.order)].content == p.content
         && HoldsLease(row, token) && row.lease.value.operation == Some(operation)
      {
        if p.order / OUTPUTS_PER_BATCH in receipts {
          return false;
        }
        if p.order !in outputs {
          outputs := outputs[p.order := ForSlot(p.order)];
        }
      }
    }

    /** All observation and output statements of a batch. */
    method StoreAll(manifest: seq<Prepared>, operation: nat, token: Token) returns (ok: bool)
      modifies this`observations, this`outputs
      ensures old(!HoldsLease(row, token) || row.lease.value.operation != Some(operation)) ==>
        ok && Snapshot() == old(Snapshot())
      ensures (forall batch :: old(Holding(Snapshot(), batch, manifest, operation, token)) ==>
          ok && StoredWhatFits(old(Snapshot()), Snapshot(), manifest))
    {
      ghost var t := Snapshot();
      ok := true;
      for n := 0 to |manifest|
        invariant ok
        invariant (!HoldsLease(row, token) || row.lease.value.operation != Some(operation)) ==> Snapshot() == t
        invariant forall batch :: Holding(t, batch, manifest, operation, token) ==>
          StoredWhatFits(t, Snapshot(), manifest[..n])
      {
        ghost var before := Snapshot();
        InsertObservation(manifest[n], operation, token);
        ok := InsertOutput(manifest[n], operation, token);
        forall batch | Holding(t, batch, manifest, operation, token)
          ensures ok && StoredWhatFits(t, Snapshot(), manifest[..n + 1]) {
          StoredOneMore(t, before, Snapshot(), batch, manifest, n, operation, token);
        }
        if !ok {
          return;
        }
      }
      assert manifest[..|manifest|] == manifest;
    }

    /** The receipt insert with its trigger; not finding its final state aborts. */
    method InsertReceipt(batch: nat, receipt: Receipt, now: Time) returns (ok: bool)
      modifies this`receipts
      ensures ok == old(ReceiptFits(Snapshot(), batch, receipt, now))
      ensures receipts == if ok then old(receipts)[batch := receipt] else old(receipts)
    {
      var m := receipt.manifest;
      var listed := set i | 0 <= i < |m| :: m[i].order;
      var extra := set o | o in outputs.Keys && InBatch(batch, o) && o !in listed;
      assert extra == {} <==> (forall o :: o in outputs && InBatch(batch, o) ==> HasEntry(m, o)) by {
        forall o ensures o in listed <==> HasEntry(m, o) {
        }
        if o :| o in outputs && InBatch(batch, o) && !HasEntry(m, o) {
          assert o in extra;
        }
        if extra != {} { var o :| o in extra; assert !HasEntry(m, o); }
      }
      ok := && batch !in receipts
            && HoldsLease(row, receipt.token) && row.lease.value.operation == Some(receipt.operation)
            && row.lease.value.expiresAt > now
            && |m| <= OUTPUTS_PER_BATCH
            && (forall i :: 0 <= i < |m| ==> InBatch(batch, m[i].order))
            && (forall i, j :: 0 <= i < j < |m| ==> m[i].order != m[j].order && m[i].content != m[j].content)
            && (forall i :: 0 <= i < |m| ==> EntryStored(Snapshot(), m[i]))
            && extra == {};
      if ok {
        receipts := receipts[batch := receipt];
      }
    }

    method Abort(t: Tables)
      modifies this
      ensures Snapshot() == t
    {
      row, inputs, receipts, outputs, observations := t.row, t.inputs, t.receipts, t.outputs, t.observations;
    }

    /**
     The batch of `persistConsolidationBatch`: take the operation slot, store, leave the receipt, release the slot.
     */
    method PersistBatch(batch: nat, receipt: Receipt, now: Time) returns (committed: bool)
      requires OutputsOk(Snapshot()) && LeaseOk(row) && ManifestOk(batch, receipt.manifest)
      modifies this
      ensures committed == old(MayPersist(Snapshot(), receipt.token, batch, receipt.manifest, now))
      ensures Snapshot() == old(if MayPersist(Snapshot(), receipt.token, batch, receipt.manifest, now)
                                then Persisted(Snapshot(), batch, receipt) else Snapshot())
    {
      var t := Snapshot();
      if Live(row, receipt.token, now) {
        row := row.(lease := Some(row.lease.value.(operation := Some(receipt.operation))));
      }
      ghost var held := Snapshot();
      committed := StoreAll(receipt.manifest, receipt.operation, receipt.token);
      if committed {
        PersistDecides(t, held, Snapshot(), batch, receipt, now);
        committed := InsertReceipt(batch, receipt, now);
      } else {
        assert !MayPersist(t, receipt.token, batch, receipt.manifest, now) by {
          if Live(t.row, receipt.token, now) && batch !in t.receipts {
            FreeBatchHolds(t, held, batch, receipt, now);
          }
        }
      }
      if !committed {
        Abort(t);
        return;
      }
      if HoldsLease(row, receipt.token) && row.lease.value.operation == Some(receipt.operation)
         && batch in receipts && receipts[batch] == receipt {
        row := row.(lease := Some(row.lease.value.(operation := None)));
      }
    }

    /** `SUM(suggestion_count)` over the receipts. */
    method SumSuggestions() returns (sum: nat)
      ensures sum == SuggestionCount(receipts)
    {
      sum := 0;
      var rest := receipts;
      while rest != map[]
        invariant sum + SuggestionCount(rest) == SuggestionCount(receipts)
        decreases |rest|
      {
        var b :| b in rest;
        SumWithout(rest, b);
        RemovedOne(rest, b);
        sum := sum + |rest[b].manifest|;
        rest := rest - {b};
      }
    }

    /** The completing update and its terminal trigger. */
    method Finish(token: Token, expected: nat, now: Time) returns (finished: bool)
      modifies this`row
      ensures Snapshot() == old(Finished(Snapshot(), token, expected, now))
      ensures finished == old(Live(row, token, now) && |receipts| == expected && TerminalOk(Snapshot()))
    {
      var sum := SumSuggestions();
      finished := Live(row, token, now) && |receipts| == expected
                  && row.postStateValid && receipts.Keys == Batches(inputs) && sum == |outputs|;
      if finished {
        row := row.(status := if outputs == map[] then Noop else Complete, lease := None);
      }
    }

    /** Failing does not ask whether the lease has expired. */
    method Fail(token: Token)
      modifies this`row
      ensures Snapshot() == old(FailedBy(Snapshot(), token))
    {
      if HoldsLease(row, token) && row.lease.value.operation == None {
        row := row.(status := Failed, lease := None);
      }
    }
  }
}
