/** Who may use a credential and when, told by states and events alone. */
module LaneLeases {
  import opened Common
  import opened CredentialLane
  import opened LaneProtocol

  /** A run, with the state before each event and after the last. */
  datatype Trace = Trace(states: seq<State>, events: seq<Event>)

  ghost predicate IsStep(w: Trace, i: nat) {
    i + 1 < |w.states| && i < |w.events| && w.states[i + 1] == Step(w.states[i], w.events[i])
  }

  ghost predicate IsTrace(budget: Budget, w: Trace) {
    && |w.states| == |w.events| + 1 && w.states[0] == Init(budget)
    && forall i {:trigger IsStep(w, i)} :: 0 <= i < |w.events| ==> IsStep(w, i)
  }

  /** Every run is a trace, so what holds of traces holds of all runs. */
  lemma {:induction false} RunIsTrace(budget: Budget, events: seq<Event>) returns (w: Trace)
    ensures IsTrace(budget, w) && w.events == events
    ensures forall i :: 0 <= i <= |events| ==> w.states[i] == Run(Init(budget), events[..i])
  {
    if events == [] {
      w := Trace([Init(budget)], []);
    } else {
      var n := |events| - 1;
      var front := RunIsTrace(budget, events[..n]);
      w := Trace(front.states + [Step(front.states[n], events[n])], events);
      assert forall i :: 0 <= i <= n ==> w.states[i] == front.states[i] && events[..n][..i] == events[..i];
      forall i | 0 <= i < |events| ensures IsStep(w, i) {
        assert i < n ==> IsStep(front, i);
      }
      assert events[..|events|] == events;
    }
  }

  lemma {:induction false} TraceKeepsLease(budget: Budget, w: Trace, i: nat)
    requires IsTrace(budget, w) && i < |w.states|
    ensures LeaseOk(w.states[i])
  {
    if i > 0 {
      TraceKeepsLease(budget, w, i - 1);
      assert IsStep(w, i - 1);
      StepKeepsLease(w.states[i - 1], w.events[i - 1]);
    }
  }

  // ----- Claims

  /** The lane is the token's, and its lease has not expired. */
  predicate IsHeld(s: State, token: Token) {
    s.lane.hold == Some(Hold(token.holder, token.until)) && s.lane.epoch == token.epoch && s.clock < token.until
  }

  predicate Takes(w: Trace, i: nat)
    requires |w.states| == |w.events| + 1
  {
    i < |w.events| && w.events[i].Claim? && w.states[i + 1].lane != w.states[i].lane
  }

  /** A release that freed the lane. */
  predicate Frees(w: Trace, i: nat)
    requires |w.states| == |w.events| + 1
  {
    && i < |w.events| && w.events[i].Release? && w.states[i].lane.hold.Some?
    && w.states[i + 1].lane.hold == None
  }

  ghost predicate IsLastRelease(w: Trace, j: int, i: nat)
    requires |w.states| == |w.events| + 1 && i < |w.states|
  {
    0 <= j < i && Frees(w, j) && forall k :: j < k < i ==> !Frees(w, k)
  }

  /** The pause after the last release is not over at the time. */
  ghost predicate IsPaused(w: Trace, i: nat, at: Time)
    requires |w.states| == |w.events| + 1 && i < |w.states|
  {
    exists j :: 0 <= j < i && IsLastRelease(w, j, i) && at < w.events[j].seenNow + 80
  }

  lemma {:induction false} ClockGrows(budget: Budget, w: Trace, i: nat, j: nat)
    requires IsTrace(budget, w) && i <= j < |w.states|
    ensures w.states[i].clock <= w.states[j].clock
  {
    if i < j {
      ClockGrows(budget, w, i, j - 1);
      assert IsStep(w, j - 1);
    }
  }

  /** A release frees the lane exactly for the token that has it, and starts the pause. */
  lemma {:induction false} FreesIffHeld(budget: Budget, w: Trace, i: nat)
    requires IsTrace(budget, w) && i < |w.events| && w.events[i].Release?
    ensures var e, s := w.events[i], w.states[i];
      && (Frees(w, i) <==> e.seenNow <= s.clock && e.token in s.tokens && Holds(s.lane, e.token))
      && w.states[i + 1].lane ==
           if Frees(w, i) then Lane(None, s.lane.epoch, e.seenNow + 80) else s.lane
  {
    TraceKeepsLease(budget, w, i);
    assert IsStep(w, i);
  }

  lemma {:induction false} OnlyReleasesPause(budget: Budget, w: Trace, i: nat)
    requires IsTrace(budget, w) && i < |w.events| && !Frees(w, i)
    ensures w.states[i + 1].lane.availableAfter == w.states[i].lane.availableAfter
  {
    TraceKeepsLease(budget, w, i);
    assert IsStep(w, i);
  }

  /** The time stored for the lane is when the pause after the last release ends. */
  lemma {:induction false} AvailableAfterPause(budget: Budget, w: Trace, i: nat, at: Time)
    requires IsTrace(budget, w) && i < |w.states|
    ensures w.states[i].lane.availableAfter <= at <==> !IsPaused(w, i, at)
  {
    if i > 0 {
      var k := i - 1;
      if Frees(w, k) {
        FreesIffHeld(budget, w, k);
        assert IsLastRelease(w, k, i);
      } else {
        AvailableAfterPause(budget, w, k, at);
        OnlyReleasesPause(budget, w, k);
        assert forall j :: IsLastRelease(w, j, i) <==> IsLastRelease(w, j, k);
      }
    }
  }

  /**
   A claim takes the lane if and only if its time is not ahead of the clock, nobody has taken the lane since the read,
   the pause after the last release is over, and the lane is free, expired, or the claimer's own. Then it is the
   claimer's for the time asked.
   */
  lemma {:induction false} ClaimsIffFree(budget: Budget, w: Trace, i: nat)
    requires IsTrace(budget, w) && i < |w.events| && w.events[i].Claim?
    ensures var e, s, n := w.events[i], w.states[i], w.states[i + 1];
      && (Takes(w, i) <==>
            && e.seenNow <= s.clock && e.expectedEpoch == s.lane.epoch && !IsPaused(w, i, e.seenNow)
            && (s.lane.hold.None? || s.lane.hold.value.until <= e.seenNow || s.lane.hold.value.holder == e.holder))
      && (Takes(w, i) ==>
            && n.lane.hold == Some(Hold(e.holder, e.seenNow + e.lease)) && n.lane.epoch == s.lane.epoch + 1
            && n.counter == s.counter && n.tokens == s.tokens && n.receipts == s.receipts)
  {
    TraceKeepsLease(budget, w, i);
    assert IsStep(w, i);
    AvailableAfterPause(budget, w, i, w.events[i].seenNow);
  }

  /** While a token is live nobody else's claim succeeds. */
  lemma {:induction false} LiveLeaseExcludes(budget: Budget, w: Trace, i: nat, token: Token)
    requires IsTrace(budget, w) && Takes(w, i) && w.events[i].holder != token.holder
    ensures !IsHeld(w.states[i], token)
  {
    ClaimsIffFree(budget, w, i);
  }

  /** Learning gives exactly the token of the holder that has the lane. */
  lemma {:induction false} LearnsOwnToken(budget: Budget, w: Trace, i: nat, token: Token)
    requires IsTrace(budget, w) && i < |w.events| && token !in w.states[i].tokens
    ensures token in w.states[i + 1].tokens <==> w.events[i] == Learn(token.holder) && Holds(w.states[i].lane, token)
  {
    assert IsStep(w, i);
  }

  /** The holder gives the lane up, or takes it again. */
  predicate GivesUp(e: Event, token: Token) {
    (e.Release? && e.token == token) || (e.Claim? && e.holder == token.holder)
  }

  lemma {:induction false} HeldStep(budget: Budget, w: Trace, i: nat, token: Token)
    requires IsTrace(budget, w) && i < |w.events| && IsHeld(w.states[i], token) && !GivesUp(w.events[i], token)
    requires w.states[i + 1].clock < token.until
    ensures IsHeld(w.states[i + 1], token)
  {
    TraceKeepsLease(budget, w, i);
    assert IsStep(w, i);
    if w.events[i].Claim? && Takes(w, i) {
      LiveLeaseExcludes(budget, w, i, token);
    }
  }

  /** A live token stays live until its lease ends, whatever others send. */
  lemma {:induction false} LiveTokenStaysLive(budget: Budget, w: Trace, i: nat, j: nat, token: Token)
    requires IsTrace(budget, w) && i <= j < |w.states| && IsHeld(w.states[i], token)
    requires w.states[j].clock < token.until && forall k :: i <= k < j ==> !GivesUp(w.events[k], token)
    ensures IsHeld(w.states[j], token)
  {
    if i < j {
      ClockGrows(budget, w, j - 1, j);
      LiveTokenStaysLive(budget, w, i, j - 1, token);
      HeldStep(budget, w, j - 1, token);
    }
  }

  // ----- Requests

  /** The block is as large as asked for, or it fills the budget or its segment. */
  predicate IsBlock(b: Budget, current: nat, block: nat, reserved: int) {
    && 1 <= reserved <= block && current + reserved <= b.maxRequests
    && (b.segmented && current < 2_005 ==> current + reserved <= 2_005)
    && (b.segmented && current >= 2_005 ==> current + reserved <= 2_013)
    && (|| reserved == block || current + reserved == b.maxRequests
        || (b.segmented && (current + reserved == 2_005 || current + reserved == 2_013)))
  }

  lemma {:induction false} ReservedIsBlock(b: Budget, current: nat, block: nat)
    requires ValidBudget(b) && current < b.maxRequests && 1 <= block
    ensures IsBlock(b, current, block, Reserved(b, current, block))
  {
    ReservedIsPositive(b, current, block);
  }

  /** A reservation begins exactly under a live token while requests are left, and asks for as many as it can. */
  lemma {:induction false} BeginsIff(budget: Budget, w: Trace, i: nat)
    requires ValidBudget(budget) && IsTrace(budget, w) && i < |w.events| && w.events[i].Begin?
    ensures var e, s, n := w.events[i], w.states[i], w.states[i + 1];
      if && e.id !in s.workers && e.token in s.tokens && IsHeld(s, e.token) && s.counter.open
         && Count(s.counter) < budget.maxRequests && 1 <= e.block <= 100
      then
        && e.id in n.workers && n == s.(workers := s.workers[e.id := n.workers[e.id]])
        && n.workers[e.id].token == e.token && n.workers[e.id].current == Count(s.counter) && !n.workers[e.id].applied
        && IsBlock(budget, Count(s.counter), e.block, n.workers[e.id].reserved)
      else n == s
  {
    TraceIsSized(budget, w, i);
    assert IsStep(w, i);
    var s, e := w.states[i], w.events[i];
    if Count(s.counter) < budget.maxRequests && 1 <= e.block {
      ReservedIsBlock(budget, Count(s.counter), e.block);
    }
  }

  /** It is counted exactly if its token is still live and the stored count is the one it read, and then in full. */
  lemma {:induction false} WritesIff(budget: Budget, w: Trace, i: nat)
    requires ValidBudget(budget) && IsTrace(budget, w) && i < |w.events| && w.events[i].Write?
    ensures var id, s, n := w.events[i].id, w.states[i], w.states[i + 1];
      if && id in s.workers && IsHeld(s, s.workers[id].token) && s.counter.open
         && s.workers[id].current == Count(s.counter)
      then
        && Count(n.counter) == Count(s.counter) + s.workers[id].reserved && n.counter.open
        && n == s.(counter := n.counter, workers := s.workers[id := s.workers[id].(applied := true)])
      else n.counter == s.counter
  {
    TraceIsSized(budget, w, i);
    assert IsStep(w, i);
    var s, id := w.states[i], w.events[i].id;
    if id in s.workers {
      if s.workers[id].current != Count(s.counter) {
        StaleCountingDoesNothing(budget, s.counter, s.workers[id].current, s.workers[id].reserved);
      } else if s.counter.open {
        CountingWorks(budget, s.counter, s.workers[id].block);
      }
    }
  }

  /** It is granted exactly if its token is still live and the stored count is what it should have become. */
  lemma {:induction false} SettlesIff(budget: Budget, w: Trace, i: nat)
    requires IsTrace(budget, w) && i < |w.events| && w.events[i].Settle? && w.events[i].id in w.states[i].workers
    ensures var id, s, n := w.events[i].id, w.states[i], w.states[i + 1]; var r := s.workers[id];
      n == s.(
        workers := s.workers - {id},
        granted := if IsHeld(s, r.token) && s.counter.open && Count(s.counter) == r.current + r.reserved
                   then s.granted + r.reserved else s.granted)
  {
    assert IsStep(w, i);
  }

  lemma {:induction false} TraceIsSized(budget: Budget, w: Trace, i: nat)
    requires ValidBudget(budget) && IsTrace(budget, w) && i < |w.states|
    ensures w.states[i].budget == budget && Sized(w.states[i])
  {
    if i > 0 {
      TraceIsSized(budget, w, i - 1);
      assert IsStep(w, i - 1);
      StepKeepsSized(w.states[i - 1], w.events[i - 1]);
    }
  }
}
