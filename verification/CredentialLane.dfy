/**
 The lease on one GitHub credential and the request budget it protects
 (src/github/sync-workflow.ts, migrations/0019_github_sync_workflows.sql,
   migrations/0021_github_annotated_tag_request_budget.sql).
 */
module CredentialLane {
  import opened Common

  const INTERVAL_MS: nat := 80
  const PRIMARY_LIMIT: nat := 2_005
  const OVERFLOW_LIMIT: nat := 8
  const MAX_BLOCK: nat := 100

  type Time = nat
  type Holder = nat

  /** The claim identifier is derived from the holder, so the holder stands for both. */
  datatype Hold = Hold(holder: Holder, until: Time)

  datatype Lane = Lane(hold: Option<Hold>, epoch: nat, availableAfter: Time)

  datatype Token = Token(holder: Holder, epoch: nat, until: Time)

  /** The counters of one dispatch or dispatch item; `open` is the status reservations require. */
  datatype Counter = Counter(open: bool, primary: nat, overflow: nat)

  datatype Budget = Budget(maxRequests: nat, segmented: bool)

  function Count(c: Counter): nat {
    c.primary + c.overflow
  }

  predicate ValidBudget(b: Budget) {
    b.maxRequests >= 1 && (b.segmented ==> b.maxRequests <= PRIMARY_LIMIT + OVERFLOW_LIMIT)
  }

  predicate Holds(lane: Lane, t: Token) {
    lane.hold == Some(Hold(t.holder, t.until)) && lane.epoch == t.epoch
  }

  predicate Live(lane: Lane, t: Token, now: Time) {
    Holds(lane, t) && t.until > now
  }

  // ----- The lane

  predicate MayClaim(lane: Lane, holder: Holder, expectedEpoch: nat, now: Time) {
    && lane.epoch == expectedEpoch && lane.availableAfter <= now
    && (lane.hold == None || lane.hold.value.until <= now || lane.hold.value.holder == holder)
  }

  /** `now` is the claimer's clock when it read the epoch. */
  function Claimed(lane: Lane, holder: Holder, expectedEpoch: nat, now: Time, lease: nat): Lane {
    if MayClaim(lane, holder, expectedEpoch, now) then
      Lane(Some(Hold(holder, now + lease)), lane.epoch + 1, lane.availableAfter)
    else lane
  }

  function Released(lane: Lane, t: Token, now: Time): Lane {
    if Holds(lane, t) then Lane(None, lane.epoch, now + INTERVAL_MS) else lane
  }

  // ----- Reserving a block of requests

  predicate UsesOverflow(b: Budget, current: nat) {
    b.segmented && current >= PRIMARY_LIMIT
  }

  function SegmentLimit(b: Budget, current: nat): int {
    if UsesOverflow(b, current) then Min(b.maxRequests - PRIMARY_LIMIT, OVERFLOW_LIMIT)
    else if b.segmented then Min(b.maxRequests, PRIMARY_LIMIT) else b.maxRequests
  }

  function SegmentCount(b: Budget, current: nat): nat {
    if UsesOverflow(b, current) then current - PRIMARY_LIMIT else current
  }

  function Reserved(b: Budget, current: nat, block: nat): int {
    Min(block, Min(b.maxRequests - current, SegmentLimit(b, current) - SegmentCount(b, current)))
  }

  /** A count below the budget always leaves a block to reserve, so the `reserved < 1` error cannot happen. */
  lemma {:induction false} ReservedIsPositive(b: Budget, current: nat, block: nat)
    requires ValidBudget(b) && current < b.maxRequests && 1 <= block
    ensures 1 <= Reserved(b, current, block) <= block
    ensures current + Reserved(b, current, block) <= b.maxRequests
    ensures UsesOverflow(b, current) ==> current - PRIMARY_LIMIT + Reserved(b, current, block) <= OVERFLOW_LIMIT
    ensures b.segmented && !UsesOverflow(b, current) ==> current + Reserved(b, current, block) <= PRIMARY_LIMIT
  {
  }

  /** The guard of the counting update, besides the lane's. */
  predicate MayCount(b: Budget, c: Counter, current: nat) {
    && c.open
    && (if UsesOverflow(b, current) then
          && c.overflow == SegmentCount(b, current) && c.overflow < SegmentLimit(b, current)
          && c.primary == PRIMARY_LIMIT
        else
          && c.primary == SegmentCount(b, current) && c.primary < SegmentLimit(b, current)
          && (b.segmented ==> c.overflow == 0))
  }

  function Counted(b: Budget, c: Counter, current: nat, reserved: nat): Counter {
    if !MayCount(b, c, current) then c
    else if UsesOverflow(b, current) then c.(overflow := c.overflow + reserved)
    else c.(primary := c.primary + reserved)
  }

  /** What the table checks allow, and overflow only after a full primary segment. */
  predicate CounterOk(b: Budget, c: Counter) {
    && Count(c) <= b.maxRequests
    && (b.segmented ==> c.primary <= PRIMARY_LIMIT && c.overflow <= OVERFLOW_LIMIT)
    && (c.overflow > 0 ==> b.segmented && c.primary == PRIMARY_LIMIT)
  }

  /** A reservation counted on the value it read succeeds in full and keeps the segments. */
  lemma {:induction false} CountingWorks(b: Budget, c: Counter, block: nat)
    requires ValidBudget(b) && CounterOk(b, c) && c.open && Count(c) < b.maxRequests && 1 <= block
    ensures var r := Reserved(b, Count(c), block);
      && r >= 1 && MayCount(b, c, Count(c))
      && Count(Counted(b, c, Count(c), r)) == Count(c) + r && CounterOk(b, Counted(b, c, Count(c), r))
  {
    ReservedIsPositive(b, Count(c), block);
  }

  /** A reservation computed from another count than the stored one changes nothing. */
  lemma {:induction false} StaleCountingDoesNothing(b: Budget, c: Counter, current: nat, reserved: nat)
    requires ValidBudget(b) && CounterOk(b, c) && current != Count(c)
    ensures Counted(b, c, current, reserved) == c
  {
  }

  class LaneDb {
    var lane: Lane
    var receipts: set<Token>
    var counter: Counter
    const budget: Budget

    constructor (budget: Budget, now: Time)
      requires ValidBudget(budget)
      ensures this.budget == budget && lane == Lane(None, 0, now) && receipts == {} && counter == Counter(true, 0, 0)
    {
      this.budget := budget;
      lane, receipts, counter := Lane(None, 0, now), {}, Counter(true, 0, 0);
    }

    /** `tryAcquireGitHubCredentialLane` with no other claimer in between. */
    method TryAcquire(holder: Holder, now: Time, lease: nat) returns (token: Option<Token>)
      requires lease >= 1_000
      modifies this`lane
      ensures token.Some? ==> token.value.holder == holder && Live(lane, token.value, now)
      ensures token.Some? <==> old(
        || (lane.hold.Some? && lane.hold.value.holder == holder && lane.hold.value.until > now)
        || (lane.availableAfter <= now && (lane.hold == None || lane.hold.value.until <= now)))
      ensures old(lane.hold.Some? && lane.hold.value.until > now) || token == None ==> lane == old(lane)
      ensures lane != old(lane) ==> lane.epoch == old(lane.epoch) + 1
    {
      var before := lane;
      if before.hold.Some? && before.hold.value.holder == holder && before.hold.value.until > now {
        return Some(Token(holder, before.epoch, before.hold.value.until));
      }
      if before.availableAfter > now || (before.hold.Some? && before.hold.value.until > now) {
        return None;
      }
      if MayClaim(lane, holder, before.epoch, now) {
        lane := Lane(Some(Hold(holder, now + lease)), lane.epoch + 1, lane.availableAfter);
      }
      if lane.hold == Some(Hold(holder, now + lease)) {
        return Some(Token(holder, lane.epoch, now + lease));
      }
      token := None;
    }

    /** The release batch: a receipt if the lease is still this token's, then the clearing update. */
    method Release(token: Token, now: Time) returns (released: bool)
      modifies this`lane, this`receipts
      ensures lane == Released(old(lane), token, now)
      ensures receipts == if Holds(old(lane), token) then old(receipts) + {token} else old(receipts)
      ensures released == (token in receipts)
    {
      if Holds(lane, token) && token !in receipts {
        receipts := receipts + {token};
      }
      if Holds(lane, token) {
        lane := Lane(None, lane.epoch, now + INTERVAL_MS);
      }
      released := token in receipts;
    }

    /** `reserveGitHubWorkflowRequest` with nothing in between: the whole block is counted and granted. */
    method Reserve(token: Token, block: nat, now: Time) returns (granted: Result<Option<nat>>)
      requires ValidBudget(budget) && CounterOk(budget, counter) && 1 <= block <= MAX_BLOCK
      modifies this`counter
      ensures CounterOk(budget, counter) && counter.open == old(counter.open)
      ensures granted == Failure <==> !(Live(lane, token, now) && counter.open)
      ensures granted == Success(None) <==>
        Live(lane, token, now) && counter.open && old(Count(counter)) == budget.maxRequests
      ensures granted.Success? && granted.value.Some? ==>
        1 <= granted.value.value <= block && Count(counter) == old(Count(counter)) + granted.value.value
      ensures !(granted.Success? && granted.value.Some?) ==> counter == old(counter)
    {
      if !(Live(lane, token, now) && counter.open) {
        return Failure;
      }
      var current := Count(counter);
      if current >= budget.maxRequests {
        return Success(None);
      }
      CountingWorks(budget, counter, block);
      ReservedIsPositive(budget, current, block);
      var reserved := Reserved(budget, current, block);
      if Live(lane, token, now) && MayCount(budget, counter, current) {
        if UsesOverflow(budget, current) {
          counter := counter.(overflow := counter.overflow + reserved);
        } else {
          counter := counter.(primary := counter.primary + reserved);
        }
      }
      var after := Count(counter);
      if after == current + reserved {
        return Success(Some(reserved));
      }
      granted := if after >= budget.maxRequests then Success(None) else Failure;
    }
  }
}
