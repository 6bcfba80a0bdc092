/**
 The rotating scan that picks manifests for retention (src/github/tree-manifest-retention.ts).
 */
module RetentionScan {
  import opened Common

  const MAX_PER_STATE: nat := 25
  const PROJECT_QUOTA: nat := 2
  const SCAN_MULTIPLIER: nat := 4
  const MAX_SCAN_ROWS: nat := MAX_PER_STATE * SCAN_MULTIPLIER

  /** `key` is the rank of (project, manifest) in the keyset order; the empty cursor ranks 0, below all of them. */
  datatype Row = Row(key: nat, project: nat)

  ghost predicate Ordered(rows: seq<Row>) {
    && (forall i :: 0 <= i < |rows| ==> rows[i].key > 0)
    && (forall i, j :: 0 <= i < j < |rows| ==> rows[i].key < rows[j].key)
  }

  function Take<T>(s: seq<T>, n: nat): seq<T> {
    if n < |s| then s[..n] else s
  }

  /** The rows of one keyset page before its limit. */
  function Between(rows: seq<Row>, after: nat, upper: Option<nat>): seq<Row> {
    if rows == [] then []
    else
      var last := rows[|rows| - 1];
      var front := Between(rows[..|rows| - 1], after, upper);
      if last.key > after && (upper.Some? ==> last.key <= upper.value) then front + [last] else front
  }

  function Position(rows: seq<Row>, cursor: nat): (p: nat)
    ensures p <= |rows|
  {
    if rows == [] then 0
    else if rows[|rows| - 1].key <= cursor then |rows| else Position(rows[..|rows| - 1], cursor)
  }

  lemma {:induction false} PositionSplits(rows: seq<Row>, cursor: nat)
    requires Ordered(rows)
    ensures forall i :: 0 <= i < |rows| ==> (i < Position(rows, cursor) <==> rows[i].key <= cursor)
  {
    if rows != [] && rows[|rows| - 1].key > cursor {
      PositionSplits(rows[..|rows| - 1], cursor);
    }
  }

  lemma {:induction false} AllBelow(rows: seq<Row>, cursor: nat)
    requires Ordered(rows) && rows != [] && rows[|rows| - 1].key <= cursor
    ensures Position(rows[..|rows| - 1], cursor) == |rows| - 1 && Position(rows, cursor) == |rows|
  {
    var front := rows[..|rows| - 1];
    assert |front| > 0 ==> front[|front| - 1].key <= cursor;
  }

  lemma {:induction false} PageAfter(rows: seq<Row>, cursor: nat)
    requires Ordered(rows)
    ensures Between(rows, cursor, None) == rows[Position(rows, cursor)..]
  {
    if rows != [] {
      var front, p := rows[..|rows| - 1], Position(rows, cursor);
      PageAfter(front, cursor);
      PositionSplits(rows, cursor);
      if rows[|rows| - 1].key <= cursor {
        AllBelow(rows, cursor);
      } else {
        assert rows[p..] == front[p..] + [rows[|rows| - 1]];
      }
    }
  }

  lemma {:induction false} PageBelow(rows: seq<Row>, cursor: nat)
    requires Ordered(rows)
    ensures Between(rows, 0, Some(cursor)) == rows[..Position(rows, cursor)]
  {
    if rows != [] {
      var front, last := rows[..|rows| - 1], rows[|rows| - 1];
      PageBelow(front, cursor);
      if last.key <= cursor {
        AllBelow(rows, cursor);
        assert front[..|front|] + [last] == rows[..|rows|];
      } else {
        assert front[..Position(front, cursor)] == rows[..Position(front, cursor)];
      }
    }
  }

  function ScanLimit(max: nat): nat {
    Min(MAX_SCAN_ROWS, max * SCAN_MULTIPLIER)
  }

  /** The two pages: after the cursor, then from the start up to it. */
  function Scanned(rows: seq<Row>, cursor: nat, limit: nat): seq<Row> {
    var page := Take(Between(rows, cursor, None), limit);
    if |page| < limit && cursor != 0 then page + Take(Between(rows, 0, Some(cursor)), limit - |page|) else page
  }

  function Rotated(rows: seq<Row>, p: nat): seq<Row>
    requires p <= |rows|
  {
    rows[p..] + rows[..p]
  }

  lemma {:induction false} NothingBelow(rows: seq<Row>)
    requires Ordered(rows)
    ensures Position(rows, 0) == 0
  {
    if rows != [] {
      NothingBelow(rows[..|rows| - 1]);
    }
  }

  lemma {:induction false} TakeBoth<T>(a: seq<T>, b: seq<T>, limit: nat)
    ensures Take(a + b, limit) == (if |a| < limit then a + Take(b, limit - |a|) else Take(a, limit))
  {
  }

  lemma {:induction false} RotatedKeysDiffer(rows: seq<Row>, p: nat, i: nat, j: nat)
    requires Ordered(rows) && p <= |rows| && i < j < |rows|
    ensures Rotated(rows, p)[i].key != Rotated(rows, p)[j].key
  {
  }

  /** What is scanned is a cyclic run that starts after the cursor. */
  lemma {:induction false} ScanIsRotation(rows: seq<Row>, cursor: nat, limit: nat)
    requires Ordered(rows)
    ensures Scanned(rows, cursor, limit) == Take(Rotated(rows, Position(rows, cursor)), limit)
  {
    var p := Position(rows, cursor);
    PageAfter(rows, cursor);
    PageBelow(rows, cursor);
    TakeBoth(rows[p..], rows[..p], limit);
    if cursor == 0 {
      NothingBelow(rows);
      assert Rotated(rows, p) == rows[p..];
    }
  }

  /** No row is scanned twice in one round. */
  lemma {:induction false} ScanIsDistinct(rows: seq<Row>, cursor: nat, limit: nat, i: nat, j: nat)
    requires Ordered(rows) && i < j < |Scanned(rows, cursor, limit)|
    ensures Scanned(rows, cursor, limit)[i].key != Scanned(rows, cursor, limit)[j].key
  {
    ScanIsRotation(rows, cursor, limit);
    RotatedKeysDiffer(rows, Position(rows, cursor), i, j);
  }

  // ----- Picking

  function Picked(rows: seq<Row>, project: nat): nat {
    if rows == [] then 0
    else Picked(rows[..|rows| - 1], project) + (if rows[|rows| - 1].project == project then 1 else 0)
  }

  predicate Accepts(picks: seq<Row>, row: Row, eligible: set<nat>) {
    row.key in eligible && Picked(picks, row.project) < PROJECT_QUOTA
  }

  /** The picks after examining the first n rows. */
  function Picks(scanned: seq<Row>, eligible: set<nat>, n: nat): seq<Row>
    requires n <= |scanned|
  {
    if n == 0 then []
    else
      var before := Picks(scanned, eligible, n - 1);
      if Accepts(before, scanned[n - 1], eligible) then before + [scanned[n - 1]] else before
  }

  /** How many rows are examined from row n on before enough are picked. */
  function ExaminedFrom(scanned: seq<Row>, eligible: set<nat>, max: nat, n: nat): (e: nat)
    requires n <= |scanned|
    ensures n <= e <= |scanned|
    decreases |scanned| - n
  {
    if n == |scanned| || (n > 0 && |Picks(scanned, eligible, n)| == max) then n
    else ExaminedFrom(scanned, eligible, max, n + 1)
  }

  function Examined(scanned: seq<Row>, eligible: set<nat>, max: nat): nat {
    ExaminedFrom(scanned, eligible, max, 0)
  }

  lemma {:induction false} NextPick(scanned: seq<Row>, eligible: set<nat>, max: nat, n: nat)
    requires n < |scanned| && |Picks(scanned, eligible, n)| < max
    ensures Picks(scanned, eligible, n + 1) ==
      (if Accepts(Picks(scanned, eligible, n), scanned[n], eligible) then Picks(scanned, eligible, n) + [scanned[n]]
       else Picks(scanned, eligible, n))
    ensures ExaminedFrom(scanned, eligible, max, n) == ExaminedFrom(scanned, eligible, max, n + 1)
    ensures |Picks(scanned, eligible, n + 1)| == max ==> ExaminedFrom(scanned, eligible, max, n + 1) == n + 1
  {
  }

  lemma {:induction false} OneMore(rows: seq<Row>, row: Row)
    ensures forall p :: Picked(rows + [row], p) == Picked(rows, p) + (if row.project == p then 1 else 0)
  {
    assert (rows + [row])[..|rows|] == rows;
  }

  /** The loop of `loadRetentionCandidates`. */
  method PickCandidates(scanned: seq<Row>, eligible: set<nat>, max: nat)
    returns (candidates: seq<Row>, last: Option<Row>)
    requires max >= 1
    ensures var e := Examined(scanned, eligible, max);
      candidates == Picks(scanned, eligible, e) && last == if e == 0 then None else Some(scanned[e - 1])
  {
    candidates, last := [], None;
    var counts: map<nat, nat> := map[];
    for n := 0 to |scanned|
      invariant candidates == Picks(scanned, eligible, n) && |candidates| < max
      invariant last == if n == 0 then None else Some(scanned[n - 1])
      invariant forall p :: (if p in counts then counts[p] else 0) == Picked(candidates, p)
      invariant Examined(scanned, eligible, max) == ExaminedFrom(scanned, eligible, max, n)
    {
      var row := scanned[n];
      NextPick(scanned, eligible, max, n);
      last := Some(row);
      if row.key !in eligible {
        continue;
      }
      var count := if row.project in counts then counts[row.project] else 0;
      if count >= PROJECT_QUOTA {
        continue;
      }
      counts := counts[row.project := count + 1];
      OneMore(candidates, row);
      candidates := candidates + [row];
      if |candidates| == max {
        break;
      }
    }
  }

  lemma {:induction false} PicksKeepQuota(scanned: seq<Row>, eligible: set<nat>, n: nat)
    requires n <= |scanned|
    ensures |Picks(scanned, eligible, n)| <= n
    ensures forall p :: Picked(Picks(scanned, eligible, n), p) <= PROJECT_QUOTA
  {
    if n > 0 {
      PicksKeepQuota(scanned, eligible, n - 1);
      OneMore(Picks(scanned, eligible, n - 1), scanned[n - 1]);
    }
  }

  lemma {:induction false} PicksAreEligible(scanned: seq<Row>, eligible: set<nat>, n: nat, r: Row)
    requires n <= |scanned| && r in Picks(scanned, eligible, n)
    ensures r in scanned[..n] && r.key in eligible
  {
    assert scanned[..n] == scanned[..n - 1] + [scanned[n - 1]];
    if r in Picks(scanned, eligible, n - 1) {
      PicksAreEligible(scanned, eligible, n - 1, r);
    }
  }

  /** An eligible row that was examined but not picked belongs to a project that already has its two. */
  lemma {:induction false} SkippedForQuota(scanned: seq<Row>, eligible: set<nat>, n: nat, i: nat)
    requires i < n <= |scanned| && scanned[i].key in eligible && scanned[i] !in Picks(scanned, eligible, n)
    ensures Picked(Picks(scanned, eligible, n), scanned[i].project) == PROJECT_QUOTA
  {
    var before := Picks(scanned, eligible, n - 1);
    OneMore(before, scanned[n - 1]);
    PicksKeepQuota(scanned, eligible, n);
    if i < n - 1 {
      SkippedForQuota(scanned, eligible, n - 1, i);
    }
  }

  lemma {:induction false} PicksGrowByOne(scanned: seq<Row>, eligible: set<nat>, n: nat)
    requires 0 < n <= |scanned|
    ensures |Picks(scanned, eligible, n)| <= |Picks(scanned, eligible, n - 1)| + 1
  {
  }

  lemma {:induction false} ExaminedStops(scanned: seq<Row>, eligible: set<nat>, max: nat, n: nat)
    requires n <= |scanned| && max >= 1 && (n == 0 || |Picks(scanned, eligible, n)| <= max)
    ensures var e := ExaminedFrom(scanned, eligible, max, n);
      |Picks(scanned, eligible, e)| <= max && (e == |scanned| || |Picks(scanned, eligible, e)| == max)
    decreases |scanned| - n
  {
    if n < |scanned| && !(n > 0 && |Picks(scanned, eligible, n)| == max) {
      PicksGrowByOne(scanned, eligible, n + 1);
      ExaminedStops(scanned, eligible, max, n + 1);
    }
  }

  /** A round picks eligible rows only, at most two of a project and `max` in all, and examines at least `max` rows. */
  lemma {:induction false} RoundIsBounded(rows: seq<Row>, cursor: nat, eligible: set<nat>, max: nat)
    requires Ordered(rows) && 1 <= max <= MAX_PER_STATE
    ensures var scanned := Scanned(rows, cursor, ScanLimit(max));
      var e := Examined(scanned, eligible, max);
      && |Picks(scanned, eligible, e)| <= max
      && (forall p :: Picked(Picks(scanned, eligible, e), p) <= PROJECT_QUOTA)
      && (forall r :: r in Picks(scanned, eligible, e) ==> r in scanned[..e] && r.key in eligible)
      && e >= Min(max, |rows|)
  {
    var scanned := Scanned(rows, cursor, ScanLimit(max));
    ScanIsRotation(rows, cursor, ScanLimit(max));
    var e := Examined(scanned, eligible, max);
    ExaminedStops(scanned, eligible, max, 0);
    PicksKeepQuota(scanned, eligible, e);
    forall r | r in Picks(scanned, eligible, e) ensures r in scanned[..e] && r.key in eligible {
      PicksAreEligible(scanned, eligible, e, r);
    }
  }

  // ----- Rounds

  function Reach(rows: seq<Row>, cursor: nat, eligible: set<nat>, max: nat): nat {
    Examined(Scanned(rows, cursor, ScanLimit(max)), eligible, max)
  }

  /** The cursor a round leaves behind, if its update succeeds. */
  function NextCursor(rows: seq<Row>, cursor: nat, eligible: set<nat>, max: nat): nat {
    var scanned := Scanned(rows, cursor, ScanLimit(max));
    var e := Examined(scanned, eligible, max);
    if e == 0 then cursor else scanned[e - 1].key
  }

  predicate Examines(rows: seq<Row>, cursor: nat, eligible: set<nat>, max: nat, row: Row) {
    var scanned := Scanned(rows, cursor, ScanLimit(max));
    row in scanned[..Examined(scanned, eligible, max)]
  }

  function CursorAfter(rows: seq<Row>, cursor: nat, rounds: seq<set<nat>>, max: nat, n: nat): nat
    requires n <= |rounds|
  {
    if n == 0 then cursor else NextCursor(rows, CursorAfter(rows, cursor, rounds, max, n - 1), rounds[n - 1], max)
  }

  function Wrap(p: nat, i: nat, n: nat): nat
    requires p <= n && i < n
  {
    if p + i < n then p + i else p + i - n
  }

  lemma {:induction false} RotatedAt(rows: seq<Row>, p: nat, i: nat)
    requires p <= |rows| && i < |rows|
    ensures Rotated(rows, p)[i] == rows[Wrap(p, i, |rows|)]
  {
  }

  lemma {:induction false} PositionOfRow(rows: seq<Row>, i: nat)
    requires Ordered(rows) && i < |rows|
    ensures Position(rows, rows[i].key) == i + 1
  {
    PositionSplits(rows, rows[i].key);
    assert i + 1 < |rows| ==> !(rows[i + 1].key <= rows[i].key);
  }

  lemma {:induction false} WrapContinues(p: nat, e: nat, i: nat, n: nat)
    requires p <= n && 1 <= e <= i < n
    ensures Wrap(Wrap(p, e - 1, n) + 1, i - e, n) == Wrap(p, i, n)
  {
  }

  lemma {:induction false} RotationContinues(rows: seq<Row>, p: nat, e: nat, i: nat)
    requires Ordered(rows) && p <= |rows| && 1 <= e <= i < |rows|
    ensures Rotated(rows, Position(rows, Rotated(rows, p)[e - 1].key))[i - e] == Rotated(rows, p)[i]
  {
    RotatedAt(rows, p, e - 1);
    RotatedAt(rows, p, i);
    PositionOfRow(rows, Wrap(p, e - 1, |rows|));
    RotatedAt(rows, Wrap(p, e - 1, |rows|) + 1, i - e);
    WrapContinues(p, e, i, |rows|);
  }

  lemma {:induction false} ScannedAt(rows: seq<Row>, cursor: nat, eligible: set<nat>, max: nat, i: nat)
    requires Ordered(rows) && i < Reach(rows, cursor, eligible, max)
    ensures i < |rows| && i < |Scanned(rows, cursor, ScanLimit(max))|
    ensures Scanned(rows, cursor, ScanLimit(max))[i] == Rotated(rows, Position(rows, cursor))[i]
  {
    ScanIsRotation(rows, cursor, ScanLimit(max));
  }

  /** The rows that the rounds from n on examine at least. */
  function Promised(rounds: nat, n: nat, max: nat): nat
    requires n <= rounds
    decreases rounds - n
  {
    if n == rounds then 0 else max + Promised(rounds, n + 1, max)
  }

  lemma {:induction false} PromisedIsProduct(rounds: nat, n: nat, max: nat)
    requires n <= rounds
    ensures Promised(rounds, n, max) == (rounds - n) * max
    decreases rounds - n
  {
    if n < rounds {
      PromisedIsProduct(rounds, n + 1, max);
      assert (rounds - n) * max == (rounds - (n + 1)) * max + max;
    }
  }

  /** One round either examines the i-th row of the rotation or leaves it nearer by at least `max`. */
  lemma {:induction false} RoundReaches(rows: seq<Row>, cursor: nat, eligible: set<nat>, max: nat, i: nat)
    requires Ordered(rows) && 1 <= max <= MAX_PER_STATE && i < |rows|
    ensures var e := Reach(rows, cursor, eligible, max); var next := NextCursor(rows, cursor, eligible, max);
      if i < e then Examines(rows, cursor, eligible, max, Rotated(rows, Position(rows, cursor))[i])
      else e >= max && Rotated(rows, Position(rows, next))[i - e] == Rotated(rows, Position(rows, cursor))[i]
  {
    var e := Reach(rows, cursor, eligible, max);
    RoundIsBounded(rows, cursor, eligible, max);
    if i < e {
      ScannedAt(rows, cursor, eligible, max, i);
      assert Scanned(rows, cursor, ScanLimit(max))[i] in Scanned(rows, cursor, ScanLimit(max))[..e];
    } else {
      ScannedAt(rows, cursor, eligible, max, e - 1);
      RotationContinues(rows, Position(rows, cursor), e, i);
    }
  }

  lemma {:induction false} FairFrom(rows: seq<Row>, cursor: nat, rounds: seq<set<nat>>, max: nat, n: nat, i: nat)
    returns (k: nat)
    requires Ordered(rows) && 1 <= max <= MAX_PER_STATE && n <= |rounds|
    requires i < |rows| && i < Promised(|rounds|, n, max)
    ensures n <= k < |rounds|
    ensures Examines(rows, CursorAfter(rows, cursor, rounds, max, k), rounds[k], max,
                     Rotated(rows, Position(rows, CursorAfter(rows, cursor, rounds, max, n)))[i])
    decreases |rounds| - n
  {
    var c := CursorAfter(rows, cursor, rounds, max, n);
    RoundReaches(rows, c, rounds[n], max, i);
    var e := Reach(rows, c, rounds[n], max);
    if i < e {
      k := n;
    } else {
      k := FairFrom(rows, cursor, rounds, max, n + 1, i - e);
    }
  }

  lemma {:induction false} IndexInRotation(rows: seq<Row>, p: nat, row: Row) returns (i: nat)
    requires p <= |rows| && row in rows
    ensures i < |rows| && Rotated(rows, p)[i] == row
  {
    var at :| 0 <= at < |rows| && rows[at] == row;
    i := if at >= p then at - p else at + |rows| - p;
    RotatedAt(rows, p, i);
  }

  /** Whatever is eligible in each round, every row is examined once enough rounds have passed for `max` rows each. */
  lemma {:induction false} EveryRowIsExamined(rows: seq<Row>, cursor: nat, rounds: seq<set<nat>>, max: nat, row: Row)
    requires Ordered(rows) && 1 <= max <= MAX_PER_STATE && row in rows && |rounds| * max >= |rows|
    ensures exists k :: 0 <= k < |rounds|
              && Examines(rows, CursorAfter(rows, cursor, rounds, max, k), rounds[k], max, row)
  {
    var i := IndexInRotation(rows, Position(rows, cursor), row);
    PromisedIsProduct(|rounds|, 0, max);
    var k := FairFrom(rows, cursor, rounds, max, 0, i);
  }
}
