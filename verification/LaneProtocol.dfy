/** Every interleaving of claimers, holders and their reservations on one credential and one request counter. */
module LaneProtocol {
  import opened Common
  import opened CredentialLane

  /** A reservation between its first read and its last; `applied` records whether its own update counted. */
  datatype Reserver = Reserver(token: Token, current: nat, block: nat, reserved: nat, applied: bool)

  /** `grants` remembers every successful claim, `granted` sums the blocks callers were told they may use. */
  datatype State = State(
    lane: Lane, receipts: set<Token>, counter: Counter, budget: Budget,
    tokens: set<Token>, grants: map<nat, Token>, workers: map<nat, Reserver>, granted: nat, clock: Time)

  datatype Event =
    | Tick
    | Claim(holder: Holder, expectedEpoch: nat, seenNow: Time, lease: nat)
    | Learn(holder: Holder)
    | Release(token: Token, seenNow: Time)
    | Begin(id: nat, token: Token, block: nat)
    | Write(id: nat)
    | Settle(id: nat)
    | Stop(id: nat)
    | Close

  predicate MayBegin(s: State, token: Token, block: nat) {
    && token in s.tokens && Live(s.lane, token, s.clock) && s.counter.open
    && Count(s.counter) < s.budget.maxRequests && 1 <= block <= MAX_BLOCK
    && Reserved(s.budget, Count(s.counter), block) >= 1
  }

  function WriteStep(s: State, id: nat): State {
    if id in s.workers && Live(s.lane, s.workers[id].token, s.clock)
      && MayCount(s.budget, s.counter, s.workers[id].current) then
      var w := s.workers[id];
      s.(counter := Counted(s.budget, s.counter, w.current, w.reserved),
         workers := s.workers[id := w.(applied := true)])
    else s
  }

  /** The second read: the block is granted when the count has grown by exactly that block. */
  function SettleStep(s: State, id: nat): State {
    if id !in s.workers then s
    else
      var w := s.workers[id];
      var done := s.(workers := s.workers - {id});
      if Live(s.lane, w.token, s.clock) && s.counter.open && Count(s.counter) == w.current + w.reserved
      then done.(granted := s.granted + w.reserved) else done
  }

  function Step(s: State, e: Event): State {
    match e
    case Tick => s.(clock := s.clock + 1)
    case Claim(holder, expected, seen, lease) =>
      if seen <= s.clock && MayClaim(s.lane, holder, expected, seen) then
        var lane := Claimed(s.lane, holder, expected, seen, lease);
        s.(lane := lane, grants := s.grants[lane.epoch := Token(holder, lane.epoch, seen + lease)])
      else s
    case Learn(holder) =>
      if s.lane.hold.Some? && s.lane.hold.value.holder == holder
      then s.(tokens := s.tokens + {Token(holder, s.lane.epoch, s.lane.hold.value.until)}) else s
    case Release(token, seen) =>
      if token in s.tokens && seen <= s.clock
      then s.(lane := Released(s.lane, token, seen),
              receipts := if Holds(s.lane, token) then s.receipts + {token} else s.receipts)
      else s
    case Begin(id, token, block) =>
      if id !in s.workers && MayBegin(s, token, block)
      then s.(workers := s.workers[id :=
        Reserver(token, Count(s.counter), block, Reserved(s.budget, Count(s.counter), block), false)])
      else s
    case Write(id) => WriteStep(s, id)
    case Settle(id) => SettleStep(s, id)
    case Stop(id) => s.(workers := s.workers - {id})
    case Close => s.(counter := s.counter.(open := false))
  }

  ghost function Run(s: State, events: seq<Event>): State
    decreases |events|
  {
    if events == [] then s else Step(Run(s, events[..|events| - 1]), events[|events| - 1])
  }

  function Init(budget: Budget): State {
    State(Lane(None, 0, 0), {}, Counter(true, 0, 0), budget, {}, map[], map[], 0, 0)
  }

  ghost predicate Idle(s: State, token: Token) {
    forall id :: id in s.workers ==> s.workers[id].token != token
  }

  /** What a caller has to see to: no token starts a reservation while another of its reservations is unfinished. */
  ghost predicate OneAtATime(budget: Budget, events: seq<Event>) {
    forall i :: 0 <= i < |events| && events[i].Begin? ==> Idle(Run(Init(budget), events[..i]), events[i].token)
  }

  // ----- Invariants

  ghost predicate LeaseOk(s: State) {
    && (forall e :: e in s.grants <==> 1 <= e <= s.lane.epoch)
    && (forall e :: e in s.grants ==> s.grants[e].epoch == e)
    && (forall t :: t in s.tokens || t in s.receipts ==> t.epoch in s.grants && s.grants[t.epoch] == t)
    && (s.lane.hold.Some? ==> s.lane.epoch in s.grants && Holds(s.lane, s.grants[s.lane.epoch]))
    && (forall t :: t in s.receipts ==> !Holds(s.lane, t))
  }

  ghost predicate WorkerOk(s: State, w: Reserver) {
    && w.token in s.tokens && 1 <= w.block && w.current < s.budget.maxRequests
    && w.reserved == Reserved(s.budget, w.current, w.block)
    && (Live(s.lane, w.token, s.clock) ==>
          && Count(s.counter) == w.current + (if w.applied then w.reserved else 0)
          && s.granted <= w.current)
  }

  ghost predicate BudgetOk(s: State) {
    && ValidBudget(s.budget) && CounterOk(s.budget, s.counter) && s.granted <= Count(s.counter)
    && (forall id :: id in s.workers ==> WorkerOk(s, s.workers[id]))
    && (forall a, b :: a in s.workers && b in s.workers && s.workers[a].token == s.workers[b].token ==> a == b)
  }

  lemma {:induction false} StepKeepsLease(s: State, e: Event)
    requires LeaseOk(s)
    ensures LeaseOk(Step(s, e))
  {
  }

  /** A token that is not live never becomes live again. */
  lemma {:induction false} NoRevival(s: State, e: Event, t: Token)
    requires LeaseOk(s) && t in s.tokens
    ensures Live(Step(s, e).lane, t, Step(s, e).clock) ==> Live(s.lane, t, s.clock)
  {
  }

  lemma {:induction false} OnlyOneLive(s: State, a: Token, b: Token)
    requires LeaseOk(s) && Live(s.lane, a, s.clock) && Live(s.lane, b, s.clock)
    ensures a == b
  {
  }

  lemma {:induction false} WriteKeepsBudget(s: State, id: nat)
    requires LeaseOk(s) && BudgetOk(s)
    ensures BudgetOk(WriteStep(s, id))
  {
    var u := WriteStep(s, id);
    if u != s {
      var w := s.workers[id];
      assert WorkerOk(s, w);
      if w.current != Count(s.counter) {
        StaleCountingDoesNothing(s.budget, s.counter, w.current, w.reserved);
        assert Count(s.counter) == w.current + w.reserved;
      } else {
        CountingWorks(s.budget, s.counter, w.block);
      }
      WrittenWorkers(s, u, id);
    }
  }

  /** While one token writes, no other reservation's token is live. */
  lemma {:induction false} WrittenWorkers(s: State, u: State, id: nat)
    requires LeaseOk(s) && BudgetOk(s) && u == WriteStep(s, id) && u != s && id in s.workers
    requires Count(u.counter) == s.workers[id].current + s.workers[id].reserved
    ensures forall i :: i in u.workers ==> WorkerOk(u, u.workers[i])
  {
    assert WorkerOk(s, s.workers[id]);
    forall i | i in u.workers ensures WorkerOk(u, u.workers[i]) {
      assert WorkerOk(s, s.workers[i]);
      if i != id && Live(s.lane, s.workers[i].token, s.clock) {
        OnlyOneLive(s, s.workers[i].token, s.workers[id].token);
      }
    }
  }

  lemma {:induction false} SettleKeepsBudget(s: State, id: nat)
    requires LeaseOk(s) && BudgetOk(s)
    ensures BudgetOk(SettleStep(s, id))
  {
    var u := SettleStep(s, id);
    if id in s.workers {
      var w := s.workers[id];
      assert WorkerOk(s, w);
      ReservedIsPositive(s.budget, w.current, w.block);
      forall i | i in u.workers ensures WorkerOk(u, u.workers[i]) {
        assert WorkerOk(s, s.workers[i]);
        if Live(s.lane, s.workers[i].token, s.clock) && Live(s.lane, w.token, s.clock) {
          OnlyOneLive(s, s.workers[i].token, w.token);
        }
      }
    }
  }

  lemma {:induction false} OtherStepsKeepBudget(s: State, e: Event)
    requires LeaseOk(s) && BudgetOk(s) && !e.Write? && !e.Settle?
    requires e.Begin? ==> Idle(s, e.token)
    ensures BudgetOk(Step(s, e))
  {
    var u := Step(s, e);
    forall i | i in u.workers ensures WorkerOk(u, u.workers[i]) {
      if i in s.workers {
        assert WorkerOk(s, s.workers[i]);
        NoRevival(s, e, s.workers[i].token);
      }
    }
  }

  lemma {:induction false} StepKeepsBudget(s: State, e: Event)
    requires LeaseOk(s) && BudgetOk(s) && (e.Begin? ==> Idle(s, e.token))
    ensures BudgetOk(Step(s, e))
  {
    match e
    case Write(id) => WriteKeepsBudget(s, id);
    case Settle(id) => SettleKeepsBudget(s, id);
    case _ => OtherStepsKeepBudget(s, e);
  }

  lemma {:induction false} RunsKeepLease(budget: Budget, events: seq<Event>)
    ensures LeaseOk(Run(Init(budget), events))
  {
    if events != [] {
      RunsKeepLease(budget, events[..|events| - 1]);
      StepKeepsLease(Run(Init(budget), events[..|events| - 1]), events[|events| - 1]);
    }
  }

  lemma {:induction false} RunsKeepBudget(budget: Budget, events: seq<Event>)
    requires ValidBudget(budget) && OneAtATime(budget, events)
    ensures BudgetOk(Run(Init(budget), events))
  {
    if events != [] {
      var n := |events| - 1;
      var earlier := events[..n];
      forall i | 0 <= i < n && earlier[i].Begin? ensures Idle(Run(Init(budget), earlier[..i]), earlier[i].token) {
        assert earlier[..i] == events[..i] && earlier[i] == events[i];
      }
      RunsKeepBudget(budget, earlier);
      RunsKeepLease(budget, earlier);
      StepKeepsBudget(Run(Init(budget), earlier), events[n]);
    }
  }

  // ----- Theorems

  /** Any two tokens of one epoch are equal, and so are any two live ones. */
  lemma {:induction false} LiveTokensAreEqual(budget: Budget, events: seq<Event>, a: Token, b: Token)
    requires a in Run(Init(budget), events).tokens && b in Run(Init(budget), events).tokens
    ensures a.epoch == b.epoch ==> a == b
    ensures var s := Run(Init(budget), events); Live(s.lane, a, s.clock) && Live(s.lane, b, s.clock) ==> a == b
  {
    RunsKeepLease(budget, events);
  }

  lemma {:induction false} RunEpochs(budget: Budget, events: seq<Event>, i: nat)
    requires i <= |events|
    ensures var s, u := Run(Init(budget), events[..i]), Run(Init(budget), events);
      s.lane.epoch <= u.lane.epoch && s.receipts <= u.receipts
    decreases |events|
  {
    if i == |events| {
      assert events[..i] == events;
    } else {
      assert events[..|events| - 1][..i] == events[..i];
      RunEpochs(budget, events[..|events| - 1], i);
    }
  }

  /**
   A release clears the lane exactly if it still is that token's. Sent again, or after the lease has passed on, it
   clears nothing; and once it has its receipt the token never holds the lane again.
   */
  lemma {:induction false} ReleaseIsExact(budget: Budget, events: seq<Event>, i: nat, t: Token)
    requires i <= |events| && t in Run(Init(budget), events[..i]).tokens
    ensures var s := Run(Init(budget), events);
      && (!Holds(s.lane, t) ==> forall seenNow :: Step(s, Release(t, seenNow)) == s)
      && (t in Run(Init(budget), events[..i]).receipts ==> t in s.receipts && !Holds(s.lane, t))
      && (Run(Init(budget), events[..i]).lane.epoch > t.epoch ==> !Holds(s.lane, t))
  {
    RunsKeepLease(budget, events);
    RunEpochs(budget, events, i);
  }

  /** With one reservation at a time for each token, no request is ever granted that is not counted and budgeted. */
  lemma {:induction false} GrantsAreCounted(budget: Budget, events: seq<Event>)
    requires ValidBudget(budget) && OneAtATime(budget, events)
    ensures var s := Run(Init(budget), events);
      && s.granted <= Count(s.counter) <= budget.maxRequests
      && (s.counter.overflow > 0 ==> s.counter.primary == PRIMARY_LIMIT && s.counter.overflow <= OVERFLOW_LIMIT)
  {
    RunsKeepBudget(budget, events);
    BudgetStays(budget, events);
  }

  lemma {:induction false} BudgetStays(budget: Budget, events: seq<Event>)
    ensures Run(Init(budget), events).budget == budget
  {
    if events != [] {
      BudgetStays(budget, events[..|events| - 1]);
    }
  }

  ghost predicate Sized(s: State) {
    && CounterOk(s.budget, s.counter) && ValidBudget(s.budget)
    && forall id :: id in s.workers ==>
         && s.workers[id].current < s.budget.maxRequests && 1 <= s.workers[id].block
         && s.workers[id].current <= Count(s.counter)
         && s.workers[id].reserved == Reserved(s.budget, s.workers[id].current, s.workers[id].block)
  }

  lemma {:induction false} WriteKeepsSized(s: State, id: nat)
    requires Sized(s)
    ensures Sized(WriteStep(s, id))
  {
    if id in s.workers && MayCount(s.budget, s.counter, s.workers[id].current) {
      var w := s.workers[id];
      if w.current != Count(s.counter) {
        StaleCountingDoesNothing(s.budget, s.counter, w.current, w.reserved);
      } else {
        CountingWorks(s.budget, s.counter, w.block);
      }
    }
  }

  lemma {:induction false} StepKeepsSized(s: State, e: Event)
    requires Sized(s)
    ensures Sized(Step(s, e))
  {
    if e.Write? {
      WriteKeepsSized(s, e.id);
    } else if e.Settle? {
      assert SettleStep(s, e.id).counter == s.counter;
    }
  }

  /** The stored count stays within its budget and segments even when a token reserves several times at once. */
  lemma {:induction false} CountStaysInBudget(budget: Budget, events: seq<Event>)
    requires ValidBudget(budget)
    ensures Sized(Run(Init(budget), events)) && CounterOk(budget, Run(Init(budget), events).counter)
  {
    BudgetStays(budget, events);
    if events != [] {
      CountStaysInBudget(budget, events[..|events| - 1]);
      StepKeepsSized(Run(Init(budget), events[..|events| - 1]), events[|events| - 1]);
    }
  }

  // ----- Two reservations of one token at once

  function Follow(s: State, events: seq<Event>): State
    decreases |events|
  {
    if events == [] then s else Follow(Step(s, events[0]), events[1..])
  }

  /** Two unfinished reservations of a live token, neither of them counted yet. */
  ghost predicate IsOverlap(s: State, a: nat, b: nat) {
    && a in s.workers && b in s.workers && a != b && s.workers[a].token == s.workers[b].token
    && !s.workers[a].applied && !s.workers[b].applied
    && Live(s.lane, s.workers[a].token, s.clock) && s.counter.open
  }

  /** The count a reservation takes for its own success. */
  function Goal(w: Reserver): int {
    w.current + w.reserved
  }

  predicate IsFresh(s: State, w: Reserver) {
    w.current == Count(s.counter)
  }

  /** A stale reservation's goal is already met, or a fresh one's update will meet the other's goal. */
  ghost predicate IsMistakable(s: State, a: nat, b: nat)
    requires a in s.workers && b in s.workers
  {
    var x, y := s.workers[a], s.workers[b];
    || Goal(x) == Count(s.counter) || Goal(y) == Count(s.counter)
    || ((IsFresh(s, x) || IsFresh(s, y)) && Goal(x) == Goal(y))
  }

  /** Every order in which each of two reservations writes before it settles. */
  predicate IsOrder(es: seq<Event>, a: nat, b: nat) {
    || IsHalfOrder(es, a, b) || IsHalfOrder(es, b, a)
  }

  predicate IsHalfOrder(es: seq<Event>, a: nat, b: nat) {
    || es == [Write(a), Write(b), Settle(a), Settle(b)]
    || es == [Write(a), Write(b), Settle(b), Settle(a)]
    || es == [Write(a), Settle(a), Write(b), Settle(b)]
  }

  function Granted(s: State, events: seq<Event>): int {
    Follow(s, events).granted - s.granted
  }

  function NewlyCounted(s: State, events: seq<Event>): int {
    Count(Follow(s, events).counter) - Count(s.counter)
  }

  lemma {:induction false} FollowOne(s: State, e: Event, rest: seq<Event>)
    ensures Follow(s, [e] + rest) == Follow(Step(s, e), rest)
  {
    assert ([e] + rest)[1..] == rest;
  }

  lemma {:induction false} FollowFour(s: State, e: Event, f: Event, g: Event, h: Event)
    ensures Follow(s, [e, f, g, h]) == Step(Step(Step(Step(s, e), f), g), h)
  {
    assert [e, f, g, h] == [e] + [f, g, h] && [f, g, h] == [f] + [g, h] && [g, h] == [g] + [h] && [h] == [h] + [];
    FollowOne(s, e, [f, g, h]);
    FollowOne(Step(s, e), f, [g, h]);
    FollowOne(Step(Step(s, e), f), g, [h]);
    FollowOne(Step(Step(Step(s, e), f), g), h, []);
  }

  /** What steps of the two leave alone. */
  ghost predicate SameLease(s: State, u: State) {
    u.lane == s.lane && u.clock == s.clock && u.budget == s.budget && u.counter.open == s.counter.open
  }

  /** A live reservation's update counts exactly if it read the stored count. */
  lemma {:induction false} WriteCounts(s: State, id: nat)
    requires Sized(s) && id in s.workers && Live(s.lane, s.workers[id].token, s.clock) && s.counter.open
    ensures var u, w := WriteStep(s, id), s.workers[id];
      && Sized(u) && SameLease(s, u) && u.granted == s.granted && u.workers.Keys == s.workers.Keys
      && Count(u.counter) == (if w.current == Count(s.counter) then Goal(w) else Count(s.counter))
      && (forall i :: i in s.workers ==>
        u.workers[i].token == s.workers[i].token && u.workers[i].current == s.workers[i].current
        && u.workers[i].reserved == s.workers[i].reserved)
  {
    WriteKeepsSized(s, id);
    var w := s.workers[id];
    if w.current != Count(s.counter) {
      StaleCountingDoesNothing(s.budget, s.counter, w.current, w.reserved);
    } else {
      CountingWorks(s.budget, s.counter, w.block);
    }
  }

  lemma {:induction false} SettleGrants(s: State, id: nat)
    requires Sized(s) && id in s.workers && Live(s.lane, s.workers[id].token, s.clock) && s.counter.open
    ensures var u, w := SettleStep(s, id), s.workers[id];
      && Sized(u) && SameLease(s, u) && u.counter == s.counter && u.workers == s.workers - {id}
      && u.granted == s.granted + (if Count(s.counter) == Goal(w) then w.reserved else 0)
  {
    ReservedIsPositive(s.budget, s.workers[id].current, s.workers[id].block);
  }

  /** The count after both have written, the first one first. */
  function CountAfter(count: int, x: Reserver, y: Reserver): int {
    var after := if x.current == count then Goal(x) else count;
    if y.current == after then Goal(y) else after
  }

  function Share(w: Reserver, count: int): int {
    if count == Goal(w) then w.reserved else 0
  }

  /** Two settlements of a live token, at a count that no longer moves. */
  lemma {:induction false} BothSettleAt(s: State, c: nat, d: nat)
    requires Sized(s) && c in s.workers && d in s.workers && c != d && s.counter.open
    requires Live(s.lane, s.workers[c].token, s.clock) && Live(s.lane, s.workers[d].token, s.clock)
    ensures var u := SettleStep(SettleStep(s, c), d); var count := Count(s.counter);
      && u.counter == s.counter
      && u.granted == s.granted + Share(s.workers[c], count) + Share(s.workers[d], count)
  {
    SettleGrants(s, c);
    SettleGrants(SettleStep(s, c), d);
  }

  /** Two updates of a live token. */
  lemma {:induction false} BothWriteAt(s: State, a: nat, b: nat)
    requires Sized(s) && IsOverlap(s, a, b)
    ensures var u := WriteStep(WriteStep(s, a), b);
      && Sized(u) && SameLease(s, u) && u.granted == s.granted && u.workers.Keys == s.workers.Keys
      && Count(u.counter) == CountAfter(Count(s.counter), s.workers[a], s.workers[b])
      && forall i :: i in s.workers ==>
        u.workers[i].token == s.workers[i].token && Goal(u.workers[i]) == Goal(s.workers[i])
        && u.workers[i].reserved == s.workers[i].reserved
  {
    WriteCounts(s, a);
    WriteCounts(WriteStep(s, a), b);
  }

  /** Both settle after both have written; `v` is the state between. */
  lemma {:induction false} SettleAfterWrites(s: State, v: State, a: nat, b: nat, c: nat, d: nat)
    requires Sized(s) && IsOverlap(s, a, b) && ((c == a && d == b) || (c == b && d == a))
    requires Sized(v) && SameLease(s, v) && v.granted == s.granted && v.workers.Keys == s.workers.Keys
    requires forall i :: i in s.workers ==>
      v.workers[i].token == s.workers[i].token && Goal(v.workers[i]) == Goal(s.workers[i])
      && v.workers[i].reserved == s.workers[i].reserved
    ensures var u := SettleStep(SettleStep(v, c), d); var count := Count(v.counter);
      && u.counter == v.counter
      && u.granted == s.granted + Share(s.workers[a], count) + Share(s.workers[b], count)
  {
    BothSettleAt(v, c, d);
  }

  lemma {:induction false} FourSteps(s: State, a: nat, b: nat, c: nat, d: nat, u: State)
    requires Sized(s) && IsOverlap(s, a, b) && ((c == a && d == b) || (c == b && d == a))
    requires u == Step(Step(Step(Step(s, Write(a)), Write(b)), Settle(c)), Settle(d))
    ensures var count := CountAfter(Count(s.counter), s.workers[a], s.workers[b]);
      && Count(u.counter) == count
      && u.granted == s.granted + Share(s.workers[a], count) + Share(s.workers[b], count)
  {
    var v := WriteStep(WriteStep(s, a), b);
    BothWriteAt(s, a, b);
    SettleAfterWrites(s, v, a, b, c, d);
    assert u == SettleStep(SettleStep(v, c), d);
  }

  lemma {:induction false} BothWriteFirst(s: State, a: nat, b: nat, c: nat, d: nat)
    requires Sized(s) && IsOverlap(s, a, b) && ((c == a && d == b) || (c == b && d == a))
    ensures var es := [Write(a), Write(b), Settle(c), Settle(d)]; var x, y := s.workers[a], s.workers[b];
      && NewlyCounted(s, es) == CountAfter(Count(s.counter), x, y) - Count(s.counter)
      && Granted(s, es) == Share(x, CountAfter(Count(s.counter), x, y)) + Share(y, CountAfter(Count(s.counter), x, y))
  {
    var es := [Write(a), Write(b), Settle(c), Settle(d)];
    FollowFour(s, Write(a), Write(b), Settle(c), Settle(d));
    FourSteps(s, a, b, c, d, Follow(s, es));
  }

  lemma {:induction false} OneAfterTheOther(s: State, a: nat, b: nat)
    requires Sized(s) && IsOverlap(s, a, b)
    ensures var es := [Write(a), Settle(a), Write(b), Settle(b)]; var x, y := s.workers[a], s.workers[b];
      var after := if x.current == Count(s.counter) then Goal(x) else Count(s.counter);
      && NewlyCounted(s, es) == CountAfter(Count(s.counter), x, y) - Count(s.counter)
      && Granted(s, es) == Share(x, after) + Share(y, CountAfter(Count(s.counter), x, y))
  {
    FollowFour(s, Write(a), Settle(a), Write(b), Settle(b));
    WriteCounts(s, a);
    var s1 := WriteStep(s, a);
    SettleGrants(s1, a);
    var s2 := SettleStep(s1, a);
    WriteCounts(s2, b);
    SettleGrants(WriteStep(s2, b), b);
  }

  lemma {:induction false} OverlapSizes(s: State, a: nat, b: nat)
    requires Sized(s) && IsOverlap(s, a, b)
    ensures s.workers[a].reserved >= 1 && s.workers[b].reserved >= 1
    ensures s.workers[a].current <= Count(s.counter) && s.workers[b].current <= Count(s.counter)
  {
    ReservedIsPositive(s.budget, s.workers[a].current, s.workers[a].block);
    ReservedIsPositive(s.budget, s.workers[b].current, s.workers[b].block);
  }

  lemma {:induction false} HalfOrderGrants(s: State, a: nat, b: nat, es: seq<Event>)
    requires Sized(s) && IsOverlap(s, a, b) && IsHalfOrder(es, a, b) && Granted(s, es) > NewlyCounted(s, es)
    ensures IsMistakable(s, a, b)
  {
    OverlapSizes(s, a, b);
    if es[1] == Settle(a) {
      OneAfterTheOther(s, a, b);
    } else {
      BothWriteFirst(s, a, b, if es[2] == Settle(a) then a else b, if es[2] == Settle(a) then b else a);
    }
  }

  lemma {:induction false} MistakenGrants(s: State, a: nat, b: nat) returns (es: seq<Event>)
    requires Sized(s) && IsOverlap(s, a, b) && IsMistakable(s, a, b)
    ensures IsOrder(es, a, b) && Granted(s, es) > NewlyCounted(s, es)
  {
    var x, y := s.workers[a], s.workers[b];
    OverlapSizes(s, a, b);
    if Goal(x) == Count(s.counter) {
      OneAfterTheOther(s, a, b);
      es := [Write(a), Settle(a), Write(b), Settle(b)];
    } else if Goal(y) == Count(s.counter) {
      OneAfterTheOther(s, b, a);
      es := [Write(b), Settle(b), Write(a), Settle(a)];
    } else {
      BothWriteFirst(s, a, b, a, b);
      es := [Write(a), Write(b), Settle(a), Settle(b)];
    }
  }

  /**
   Exactly which overlaps are harmful: in every reachable state, some order in which two reservations of a live token
   finish grants more requests than it counts if and only if one of them can be taken for done without its own update.
   */
  lemma {:induction false} OverlapGrantsTwiceIff(budget: Budget, events: seq<Event>, a: nat, b: nat)
    requires ValidBudget(budget) && IsOverlap(Run(Init(budget), events), a, b)
    ensures var s := Run(Init(budget), events);
      (exists es :: IsOrder(es, a, b) && Granted(s, es) > NewlyCounted(s, es)) <==> IsMistakable(s, a, b)
  {
    var s := Run(Init(budget), events);
    CountStaysInBudget(budget, events);
    if es :| IsOrder(es, a, b) && Granted(s, es) > NewlyCounted(s, es) {
      if IsHalfOrder(es, a, b) {
        HalfOrderGrants(s, a, b, es);
      } else {
        HalfOrderGrants(s, b, a, es);
      }
    }
    if IsMistakable(s, a, b) {
      var es := MistakenGrants(s, a, b);
    }
  }

  /** Two reservations of the same block are both granted it, and it is counted once. */
  lemma {:induction false} EqualOverlapGrantsTwice(budget: Budget, events: seq<Event>, a: nat, b: nat)
    requires ValidBudget(budget) && IsOverlap(Run(Init(budget), events), a, b)
    requires var s := Run(Init(budget), events);
      IsFresh(s, s.workers[a]) && IsFresh(s, s.workers[b]) && s.workers[a].reserved == s.workers[b].reserved
    ensures var s := Run(Init(budget), events); var es := [Write(a), Write(b), Settle(a), Settle(b)];
      Granted(s, es) == 2 * s.workers[a].reserved && NewlyCounted(s, es) == s.workers[a].reserved
  {
    var s := Run(Init(budget), events);
    CountStaysInBudget(budget, events);
    OverlapSizes(s, a, b);
    BothWriteFirst(s, a, b, a, b);
  }

  const T: Token := Token(1, 1, 1_000)

  /** Claim and learn the lane, begin two reservations, write both, settle both. */
  function TwoAtOnce(): seq<Event> {
    [Claim(1, 0, 0, 1_000)] + [Learn(1)] + [Begin(1, T, 100)] + [Begin(2, T, 100)] + [Write(1)] + [Write(2)]
      + [Settle(1)]
    + [Settle(2)]
  }

  lemma {:induction false} RunNext(s: State, events: seq<Event>, e: Event)
    ensures Run(s, events + [e]) == Step(Run(s, events), e)
  {
    assert (events + [e])[..|events|] == events;
  }

  function Held(workers: map<nat, Reserver>, count: nat, granted: nat): State {
    State(Lane(Some(Hold(1, 1_000)), 1, 0), {}, Counter(true, count, 0), Budget(900, false), {T}, map[1 := T], workers,
      granted, 0)
  }

  lemma {:induction false} LaneHeld(events: seq<Event>)
    requires events == [Claim(1, 0, 0, 1_000)] + [Learn(1)]
    ensures Run(Init(Budget(900, false)), events) == Held(map[], 0, 0)
  {
    var s0 := Init(Budget(900, false));
    RunNext(s0, [], Claim(1, 0, 0, 1_000));
    assert [] + [Claim(1, 0, 0, 1_000)] == [Claim(1, 0, 0, 1_000)];
    RunNext(s0, [Claim(1, 0, 0, 1_000)], Learn(1));
    assert Claimed(s0.lane, 1, 0, 0, 1_000) == Lane(Some(Hold(1, 1_000)), 1, 0);
  }

  lemma {:induction false} BothBegin()
    ensures Step(Step(Held(map[], 0, 0), Begin(1, T, 100)), Begin(2, T, 100)) ==
      Held(map[1 := Reserver(T, 0, 100, 100, false), 2 := Reserver(T, 0, 100, 100, false)], 0, 0)
  {
    var one := map[1 := Reserver(T, 0, 100, 100, false)];
    assert Step(Held(map[], 0, 0), Begin(1, T, 100)) == Held(one, 0, 0);
    assert one[2 := Reserver(T, 0, 100, 100, false)] ==
      map[1 := Reserver(T, 0, 100, 100, false), 2 := Reserver(T, 0, 100, 100, false)];
  }

  lemma {:induction false} BothWrite()
    ensures var both := map[1 := Reserver(T, 0, 100, 100, false), 2 := Reserver(T, 0, 100, 100, false)];
      Step(Step(Held(both, 0, 0), Write(1)), Write(2)) == Held(both[1 := Reserver(T, 0, 100, 100, true)], 100, 0)
  {
  }

  lemma {:induction false} BothSettle()
    ensures var both := map[1 := Reserver(T, 0, 100, 100, true), 2 := Reserver(T, 0, 100, 100, false)];
      Step(Step(Held(both, 100, 0), Settle(1)), Settle(2)).granted == 200
    ensures var both := map[1 := Reserver(T, 0, 100, 100, true), 2 := Reserver(T, 0, 100, 100, false)];
      Step(Step(Held(both, 100, 0), Settle(1)), Settle(2)).counter == Counter(true, 100, 0)
  {
  }

  /**
   The condition is needed: two reservations of one token at once are both granted the same block, because the second
   read cannot tell whose update it sees.
   */
  lemma {:induction false} TwoAtOnceGrantTwice()
    ensures var s := Run(Init(Budget(900, false)), TwoAtOnce()); s.granted == 200 && Count(s.counter) == 100
  {
    var s0 := Init(Budget(900, false));
    var begun := [Claim(1, 0, 0, 1_000)] + [Learn(1)] + [Begin(1, T, 100)] + [Begin(2, T, 100)];
    LaneHeld([Claim(1, 0, 0, 1_000)] + [Learn(1)]);
    RunNext(s0, [Claim(1, 0, 0, 1_000)] + [Learn(1)], Begin(1, T, 100));
    RunNext(s0, [Claim(1, 0, 0, 1_000)] + [Learn(1)] + [Begin(1, T, 100)], Begin(2, T, 100));
    BothBegin();
    RunNext(s0, begun, Write(1));
    RunNext(s0, begun + [Write(1)], Write(2));
    RunNext(s0, begun + [Write(1)] + [Write(2)], Settle(1));
    RunNext(s0, begun + [Write(1)] + [Write(2)] + [Settle(1)], Settle(2));
    BothWrite();
    var both := map[1 := Reserver(T, 0, 100, 100, false), 2 := Reserver(T, 0, 100, 100, false)];
    assert both[1 := Reserver(T, 0, 100, 100, true)] ==
      map[1 := Reserver(T, 0, 100, 100, true), 2 := Reserver(T, 0, 100, 100, false)];
    BothSettle();
  }
}
