/** Who may work on a consolidation and when, told by states and events alone. */
module ConsolidationLeases {
  import opened Common
  import opened Consolidation
  import opened ConsolidationStore
  import opened ConsolidationProtocol

  /** A run, with the state before each event and after the last. */
  datatype Trace = Trace(states: seq<State>, events: seq<Event>)

  ghost predicate IsStep(w: Trace, i: nat) {
    i + 1 < |w.states| && i < |w.events| && w.states[i + 1] == Step(w.states[i], w.events[i])
  }

  ghost predicate IsTrace(inputs: set<nat>, w: Trace) {
    && |w.states| == |w.events| + 1 && w.states[0] == Init(inputs)
    && forall i {:trigger IsStep(w, i)} :: 0 <= i < |w.events| ==> IsStep(w, i)
  }

  /** Every run is a trace, so what holds of traces holds of all runs. */
  lemma {:induction false} RunIsTrace(inputs: set<nat>, events: seq<Event>) returns (w: Trace)
    ensures IsTrace(inputs, w) && w.events == events
    ensures forall i :: 0 <= i <= |events| ==> w.states[i] == Run(Init(inputs), events[..i])
  {
    if events == [] {
      w := Trace([Init(inputs)], []);
    } else {
      var n := |events| - 1;
      var front := RunIsTrace(inputs, events[..n]);
      w := Trace(front.states + [Step(front.states[n], events[n])], events);
      assert forall i :: 0 <= i <= n ==> w.states[i] == front.states[i] && events[..n][..i] == events[..i];
      forall i | 0 <= i < |events| ensures IsStep(w, i) {
        assert i < n ==> IsStep(front, i);
      }
      assert events[..|events|] == events;
    }
  }

  lemma {:induction false} TraceKeepsInv(inputs: set<nat>, w: Trace, i: nat)
    requires IsTrace(inputs, w) && i < |w.states|
    ensures Inv(w.states[i]) && w.states[i].tables.inputs == inputs
  {
    if i == 0 {
      RunsKeepInv(inputs, []);
    } else {
      TraceKeepsInv(inputs, w, i - 1);
      assert IsStep(w, i - 1);
      StepStays(w.states[i - 1], w.events[i - 1], w.states[i]);
    }
  }

  lemma {:induction false} StepStays(s: State, e: Event, n: State)
    requires Inv(s) && n == Step(s, e)
    ensures Inv(n) && n.tables.inputs == s.tables.inputs
  {
    StepKeepsInv(s, e);
    StepAdvances(s, e);
  }

  // ----- The lease

  /** The row is running under the token, and its lease has not expired. */
  predicate IsHeld(s: State, token: Token) {
    && s.tables.row.status == Running && s.tables.row.epoch == token.epoch && s.tables.row.lease.Some?
    && s.tables.row.lease.value.owner == token.owner && s.tables.row.lease.value.claim == token.claim
    && s.clock < s.tables.row.lease.value.expiresAt
  }

  /** Nobody works on it: not started, failed, or run by somebody whose lease has expired. */
  predicate IsFree(s: State) {
    || s.tables.row.status == Queued || s.tables.row.status == Failed
    || (s.tables.row.status == Running && s.tables.row.lease.Some? && s.tables.row.lease.value.expiresAt <= s.clock)
  }

  predicate ClaimsLease(w: Trace, i: nat)
    requires |w.states| == |w.events| + 1
  {
    && i < |w.events| && w.events[i].Claim?
    && w.states[i + 1].tables.row != w.states[i].tables.row
  }

  /** A claim succeeds if and only if nobody works on the consolidation, and then it is the claimer's for its time. */
  lemma {:induction false} ClaimsIffFree(inputs: set<nat>, w: Trace, i: nat)
    requires IsTrace(inputs, w) && i < |w.events| && w.events[i].Claim?
    ensures ClaimsLease(w, i) <==> IsFree(w.states[i])
    ensures var s, n := w.states[i], w.states[i + 1]; var row := n.tables.row;
      ClaimsLease(w, i) ==>
        && row == Row(
             Running, Some(Lease(w.events[i].owner, w.events[i].claim, s.clock + LEASE_DURATION, None)),
             s.tables.row.epoch + 1, s.tables.row.postStateValid)
        && n.tables == s.tables.(row := row)
  {
    TraceKeepsInv(inputs, w, i);
    assert IsStep(w, i);
  }

  /** While a token is live no claim succeeds, not even its owner's. */
  lemma {:induction false} LiveLeaseExcludes(inputs: set<nat>, w: Trace, i: nat, token: Token)
    requires IsTrace(inputs, w) && ClaimsLease(w, i)
    ensures !IsHeld(w.states[i], token)
  {
    ClaimsIffFree(inputs, w, i);
  }

  /** Learning gives exactly the live token of that owner and claim. */
  lemma {:induction false} LearnsLiveToken(inputs: set<nat>, w: Trace, i: nat, token: Token)
    requires IsTrace(inputs, w) && i < |w.events| && token !in w.states[i].tokens
    ensures token in w.states[i + 1].tokens <==>
      w.events[i] == Learn(token.owner, token.claim) && IsHeld(w.states[i], token)
  {
    TraceKeepsInv(inputs, w, i);
    assert IsStep(w, i);
  }

  predicate GivesUp(e: Event, token: Token) {
    e == Fail(token) || (e.Finish? && e.token == token)
  }

  lemma {:induction false} HeldStep(inputs: set<nat>, w: Trace, i: nat, token: Token)
    requires IsTrace(inputs, w) && i < |w.events| && IsHeld(w.states[i], token) && token in w.states[i].tokens
    requires !GivesUp(w.events[i], token)
    requires w.states[i + 1].clock < w.states[i].tables.row.lease.value.expiresAt
    ensures IsHeld(w.states[i + 1], token) && token in w.states[i + 1].tokens
    ensures w.states[i + 1].tables.row.lease.value.expiresAt >= w.states[i].tables.row.lease.value.expiresAt
  {
    TraceKeepsInv(inputs, w, i);
    assert IsStep(w, i);
    var s, e := w.states[i], w.events[i];
    if e.Claim? {
      ClaimsIffFree(inputs, w, i);
    }
  }

  lemma {:induction false} ClockGrows(inputs: set<nat>, w: Trace, i: nat, j: nat)
    requires IsTrace(inputs, w) && i <= j < |w.states|
    ensures w.states[i].clock <= w.states[j].clock
  {
    if i < j {
      ClockGrows(inputs, w, i, j - 1);
      assert IsStep(w, j - 1);
    }
  }

  /**
   A live token stays live until its stored expiry, whatever others send, unless its holder fails or finishes; and the
   stored expiry only grows.
   */
  lemma {:induction false} LiveTokenStaysLive(inputs: set<nat>, w: Trace, i: nat, j: nat, token: Token)
    requires IsTrace(inputs, w) && i <= j < |w.states| && IsHeld(w.states[i], token) && token in w.states[i].tokens
    requires w.states[j].clock < w.states[i].tables.row.lease.value.expiresAt
    requires forall k :: i <= k < j ==> !GivesUp(w.events[k], token)
    ensures IsHeld(w.states[j], token) && token in w.states[j].tokens
    ensures w.states[j].tables.row.lease.value.expiresAt >= w.states[i].tables.row.lease.value.expiresAt
  {
    if i < j {
      ClockGrows(inputs, w, j - 1, j);
      LiveTokenStaysLive(inputs, w, i, j - 1, token);
      HeldStep(inputs, w, j - 1, token);
    }
  }

  /** A renewal by the live holder that read the stored expiry moves it as asked; any other renewal changes nothing. */
  lemma {:induction false} RenewsIffRead(inputs: set<nat>, w: Trace, i: nat)
    requires IsTrace(inputs, w) && i < |w.events| && w.events[i].Renew?
    ensures var e := w.events[i]; var row, next := w.states[i].tables.row, w.states[i + 1].tables.row;
      if && e.token in w.states[i].tokens && IsHeld(w.states[i], e.token)
         && e.seen == row.lease.value.expiresAt && e.until > e.seen
      then next == row.(lease := Some(row.lease.value.(expiresAt := e.until)))
      else next == row
    ensures w.states[i + 1].tables == w.states[i].tables.(row := w.states[i + 1].tables.row)
  {
    TraceKeepsInv(inputs, w, i);
    assert IsStep(w, i);
  }

  /** Failing gives the consolidation up at once, and only for the row's own token. */
  lemma {:induction false} FailFrees(inputs: set<nat>, w: Trace, i: nat)
    requires IsTrace(inputs, w) && i < |w.events| && w.events[i].Fail?
    ensures var e, row, next := w.events[i], w.states[i].tables.row, w.states[i + 1].tables.row;
      if && e.token in w.states[i].tokens && row.status == Running && row.epoch == e.token.epoch
      then next == row.(status := Failed, lease := None) && IsFree(w.states[i + 1])
      else next == row
  {
    TraceKeepsInv(inputs, w, i);
    assert IsStep(w, i);
  }

  // ----- Work under the lease

  /** The manifest can be stored: slots of this batch, all different, and contents nobody else's live candidate has. */
  ghost predicate IsAcceptable(t: Tables, batch: nat, manifest: seq<Prepared>) {
    && |manifest| <= OUTPUTS_PER_BATCH
    && (forall i :: 0 <= i < |manifest| ==>
          batch * OUTPUTS_PER_BATCH <= manifest[i].order < (batch + 1) * OUTPUTS_PER_BATCH)
    && (forall i, j :: 0 <= i < j < |manifest| ==>
          manifest[i].order != manifest[j].order && manifest[i].content != manifest[j].content)
    && (forall i, c :: 0 <= i < |manifest| && c in t.observations && c != ForSlot(manifest[i].order) ==>
          t.observations[c].content != manifest[i].content || t.observations[c].rejected)
  }

  lemma {:induction false} ContentIsFree(t: Tables, p: Prepared)
    ensures Storable(t, p) <==> forall c :: c in t.observations && c != ForSlot(p.order) ==>
      t.observations[c].content != p.content || t.observations[c].rejected
  {
  }

  lemma {:induction false} AcceptableIsStorable(t: Tables, batch: nat, manifest: seq<Prepared>)
    ensures IsAcceptable(t, batch, manifest) <==>
      ManifestOk(batch, manifest) && forall i :: 0 <= i < |manifest| ==> Storable(t, manifest[i])
  {
    forall i | 0 <= i < |manifest|
      ensures Storable(t, manifest[i]) <==> forall c :: c in t.observations && c != ForSlot(manifest[i].order) ==>
        t.observations[c].content != manifest[i].content || t.observations[c].rejected
    {
      ContentIsFree(t, manifest[i]);
    }
  }

  /**
   A batch is stored if and only if its sender holds a live token, it is a frozen batch without receipt, and its
   manifest can be stored; then the receipt is the one sent.
   */
  lemma {:induction false} PersistsIffLive(inputs: set<nat>, w: Trace, i: nat)
    requires IsTrace(inputs, w) && i < |w.events| && w.events[i].Persist?
    ensures var e := w.events[i]; var t, n := w.states[i].tables, w.states[i + 1].tables;
      if && e.receipt.token in w.states[i].tokens && IsHeld(w.states[i], e.receipt.token)
         && e.batch in Batches(inputs) && e.batch !in t.receipts && IsAcceptable(t, e.batch, e.receipt.manifest)
      then n.receipts == t.receipts[e.batch := e.receipt] && n.row == t.row
      else n == t
  {
    TraceKeepsInv(inputs, w, i);
    assert IsStep(w, i);
    AcceptableIsStorable(w.states[i].tables, w.events[i].batch, w.events[i].receipt.manifest);
  }

  /** A consolidation ends only under a live token. */
  lemma {:induction false} FinishesUnderLease(inputs: set<nat>, w: Trace, i: nat)
    requires IsTrace(inputs, w) && i < |w.events|
    requires !IsTerminal(w.states[i].tables.row) && IsTerminal(w.states[i + 1].tables.row)
    ensures w.events[i].Finish? && w.events[i].token in w.states[i].tokens && IsHeld(w.states[i], w.events[i].token)
    ensures w.states[i].tables.receipts.Keys == Batches(inputs) && w.states[i].tables.row.postStateValid
  {
    TraceKeepsInv(inputs, w, i);
    assert IsStep(w, i);
  }

  /**
   A completion ends the consolidation if and only if its token is live, the evidence is valid, every frozen batch has
   its receipt, and the caller counts as many batches; whether there are outputs decides how it ends.
   */
  lemma {:induction false} FinishesIff(inputs: set<nat>, w: Trace, i: nat)
    requires IsTrace(inputs, w) && i < |w.events| && w.events[i].Finish?
    ensures var e := w.events[i]; var t, n := w.states[i].tables, w.states[i + 1].tables;
      n == if && e.token in w.states[i].tokens && IsHeld(w.states[i], e.token) && t.row.postStateValid
              && t.receipts.Keys == Batches(inputs) && e.expected == |Batches(inputs)|
           then t.(row := t.row.(status := if t.outputs == map[] then Noop else Complete, lease := None))
           else t
  {
    TraceKeepsInv(inputs, w, i);
    assert IsStep(w, i);
    assert |w.states[i].tables.receipts.Keys| == |w.states[i].tables.receipts|;
  }

  /** The receipt is that of exactly this work. */
  predicate IsDurable(t: Tables, batch: nat, r: Receipt) {
    && batch in t.receipts && t.receipts[batch].inputs == r.inputs && t.receipts[batch].model == r.model
    && t.receipts[batch].manifest == r.manifest
  }

  /**
   After sending a batch whose response is lost, what is read back tells whether this work is durable: it is if it was
   before, by whoever's hand, or if it could be stored now.
   */
  lemma {:induction false} RecoversIffDurable(inputs: set<nat>, w: Trace, i: nat)
    requires IsTrace(inputs, w) && i < |w.events| && w.events[i].Persist?
    ensures var e := w.events[i]; var r, s, n := e.receipt, w.states[i], w.states[i + 1].tables;
      Recovers(n, e.batch, r.inputs, r.model, r.manifest) <==>
        || IsDurable(s.tables, e.batch, r)
        || (&& r.token in s.tokens && IsHeld(s, r.token) && e.batch in Batches(inputs)
            && e.batch !in s.tables.receipts && IsAcceptable(s.tables, e.batch, r.manifest))
  {
    PersistsIffLive(inputs, w, i);
  }
}
