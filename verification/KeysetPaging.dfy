/** Listing memories page by page with a keyset cursor (src/gateway/service.ts). */
module KeysetPaging {
  import opened Common

  /** Timestamps and identifiers as text; a timestamp is a fixed-width ISO time and contains no bar. */
  datatype Memory = Memory(updatedAt: string, id: string)

  predicate Less(a: string, b: string) {
    if b == [] then false
    else if a == [] then true
    else if a[0] != b[0] then a[0] < b[0]
    else Less(a[1..], b[1..])
  }

  lemma {:induction false} LessIsTotal(a: string, b: string)
    ensures a == b || Less(a, b) || Less(b, a)
    ensures !(Less(a, b) && Less(b, a)) && !Less(a, a)
  {
    if a != [] && b != [] && a[0] == b[0] {
      LessIsTotal(a[1..], b[1..]);
      assert a == [a[0]] + a[1..] && b == [b[0]] + b[1..];
    }
    if a != [] {
      LessIsTotal(a[1..], a[1..]);
    }
  }

  /** `ORDER BY updated_at DESC, memory_id ASC` */
  predicate Before(a: Memory, b: Memory) {
    Less(b.updatedAt, a.updatedAt) || (a.updatedAt == b.updatedAt && Less(a.id, b.id))
  }

  ghost predicate Listed(all: seq<Memory>) {
    && (forall i, j {:trigger Before(all[i], all[j])} :: 0 <= i < j < |all| ==> Before(all[i], all[j]))
    && (forall i :: 0 <= i < |all| ==> '|' !in all[i].updatedAt && all[i].updatedAt != "")
  }

  // ----- The cursor

  function SortKey(m: Memory): string {
    m.updatedAt + "|" + m.id
  }

  function IndexOfBar(s: string): (i: int)
    ensures -1 <= i < |s|
    ensures i >= 0 ==> s[i] == '|' && forall k :: 0 <= k < i ==> s[k] != '|'
    ensures i < 0 ==> '|' !in s
  {
    if s == [] then -1
    else if s[0] == '|' then 0
    else
      var rest := IndexOfBar(s[1..]);
      if rest < 0 then -1 else rest + 1
  }

  function SplitKey(key: string): Result<Memory> {
    var bar := IndexOfBar(key);
    if bar < 1 then Failure else Success(Memory(key[..bar], key[bar + 1..]))
  }

  /** The cursor gives its memory back even when the identifier contains the separator. */
  lemma {:induction false} SplitUndoesJoin(m: Memory)
    requires '|' !in m.updatedAt && m.updatedAt != ""
    ensures SplitKey(SortKey(m)) == Success(m)
  {
    var key := SortKey(m);
    var bar := IndexOfBar(key);
    assert key[|m.updatedAt|] == '|';
    assert forall k :: 0 <= k < |m.updatedAt| ==> key[k] == m.updatedAt[k] != '|';
    assert bar == |m.updatedAt|;
    assert key[..bar] == m.updatedAt && key[bar + 1..] == m.id;
  }

  // ----- Pages

  predicate After(m: Memory, cursor: Memory) {
    Less(m.updatedAt, cursor.updatedAt) || (m.updatedAt == cursor.updatedAt && Less(cursor.id, m.id))
  }

  /** The rows the page's condition keeps, in order. */
  function Remaining(all: seq<Memory>, cursor: Option<Memory>): seq<Memory> {
    if all == [] then []
    else
      var front, last := Remaining(all[..|all| - 1], cursor), all[|all| - 1];
      if cursor.Some? ==> After(last, cursor.value) then front + [last] else front
  }

  datatype Page = Page(memories: seq<Memory>, token: Option<string>)

  function PageOf(rest: seq<Memory>, limit: nat): Page
    requires limit >= 1
  {
    var rows := if limit < |rest| then rest[..limit] else rest;
    Page(rows, if |rows| == limit then Some(SortKey(rows[limit - 1])) else None)
  }

  /** `GatewayService.search`: no token or a token that splits; a full page gets a token for the next. */
  function Search(all: seq<Memory>, token: Option<string>, limit: nat): Result<Page>
    requires limit >= 1
  {
    if token == None then Success(PageOf(Remaining(all, None), limit))
    else
      var cursor := SplitKey(token.value);
      if cursor == Failure then Failure else Success(PageOf(Remaining(all, Some(cursor.value)), limit))
  }

  lemma {:induction false} AfterIsLater(all: seq<Memory>, i: nat, j: nat)
    requires Listed(all) && i < |all| && j < |all|
    ensures After(all[j], all[i]) <==> j > i
  {
    assert i < j ==> Before(all[i], all[j]);
    assert j < i ==> Before(all[j], all[i]);
    LessIsTotal(all[i].updatedAt, all[j].updatedAt);
    LessIsTotal(all[i].id, all[j].id);
  }

  lemma {:induction false} RemainingAfter(all: seq<Memory>, n: nat, i: nat)
    requires Listed(all) && n <= |all| && i < |all|
    ensures Remaining(all[..n], Some(all[i])) == if n <= i + 1 then [] else all[i + 1..n]
  {
    if n > 0 {
      assert all[..n][..n - 1] == all[..n - 1];
      RemainingAfter(all, n - 1, i);
      AfterIsLater(all, i, n - 1);
      if n > i + 1 {
        assert all[i + 1..n] == (if n - 1 <= i + 1 then [] else all[i + 1..n - 1]) + [all[n - 1]];
      }
    }
  }

  lemma {:induction false} RemainingAll(all: seq<Memory>)
    ensures Remaining(all, None) == all
  {
    if all != [] {
      RemainingAll(all[..|all| - 1]);
    }
  }

  /** The token that a listing with n memories already shown carries. */
  function TokenAt(all: seq<Memory>, n: nat): Option<string>
    requires n <= |all|
  {
    if n == 0 then None else Some(SortKey(all[n - 1]))
  }

  function NextPage(all: seq<Memory>, n: nat, limit: nat): Page
    requires n <= |all| && limit >= 1
  {
    if n + limit <= |all| then Page(all[n..n + limit], TokenAt(all, n + limit)) else Page(all[n..], None)
  }

  lemma {:induction false} PageOfRest(all: seq<Memory>, n: nat, limit: nat)
    requires n <= |all| && limit >= 1
    ensures PageOf(all[n..], limit) == NextPage(all, n, limit)
  {
    if limit <= |all[n..]| {
      assert all[n..][..limit] == all[n..n + limit];
    }
  }

  lemma {:induction false} SearchContinues(all: seq<Memory>, n: nat, limit: nat)
    requires Listed(all) && n <= |all| && limit >= 1
    ensures Search(all, TokenAt(all, n), limit) == Success(NextPage(all, n, limit))
  {
    PageOfRest(all, n, limit);
    if n == 0 {
      RemainingAll(all);
      assert all[0..] == all;
    } else {
      SplitUndoesJoin(all[n - 1]);
      RemainingAfter(all, |all|, n - 1);
      assert all[..|all|] == all;
    }
  }

  /** Following tokens from the n-th memory on: all the pages until a null token. */
  function Pages(all: seq<Memory>, token: Option<string>, limit: nat, fuel: nat): Result<seq<Page>>
    requires limit >= 1
    decreases fuel
  {
    if fuel == 0 then Failure
    else
      var page := Search(all, token, limit);
      if page == Failure then Failure
      else if page.value.token == None then Success([page.value])
      else
        var rest := Pages(all, page.value.token, limit, fuel - 1);
        if rest == Failure then Failure else Success([page.value] + rest.value)
  }

  function Contents(pages: seq<Page>): seq<Memory> {
    if pages == [] then [] else pages[0].memories + Contents(pages[1..])
  }

  function PageCount(n: nat, limit: nat): nat
    requires limit >= 1
  {
    if n < limit then 1 else 1 + PageCount(n - limit, limit)
  }

  /** The number of pages is floor(n / limit) + 1. */
  lemma {:induction false} PageCountIsQuotient(n: nat, limit: nat)
    requires limit >= 1
    ensures (PageCount(n, limit) - 1) * limit <= n < PageCount(n, limit) * limit
  {
    if n >= limit {
      var p := PageCount(n - limit, limit);
      PageCountIsQuotient(n - limit, limit);
      assert p * limit == (p - 1) * limit + limit;
      assert (p + 1) * limit == p * limit + limit;
    }
  }

  lemma {:induction false} ContentsOfMore(page: Page, rest: seq<Page>)
    ensures Contents([page] + rest) == page.memories + Contents(rest)
  {
    assert ([page] + rest)[1..] == rest;
  }

  lemma {:induction false} PagesFrom(all: seq<Memory>, n: nat, limit: nat, fuel: nat)
    requires Listed(all) && n <= |all| && limit >= 1 && fuel >= PageCount(|all| - n, limit)
    ensures var pages := Pages(all, TokenAt(all, n), limit, fuel);
      pages.Success? && Contents(pages.value) == all[n..] && |pages.value| == PageCount(|all| - n, limit)
    decreases fuel
  {
    SearchContinues(all, n, limit);
    assert fuel > 0;
    if n + limit <= |all| {
      assert PageCount(|all| - n, limit) == 1 + PageCount(|all| - (n + limit), limit);
      PagesFrom(all, n + limit, limit, fuel - 1);
      MorePages(all, n, limit, fuel, Pages(all, TokenAt(all, n + limit), limit, fuel - 1).value);
    } else {
      LastPage(all, n, limit, fuel);
    }
  }

  lemma {:induction false} LastPage(all: seq<Memory>, n: nat, limit: nat, fuel: nat)
    requires n <= |all| < n + limit && fuel > 0
      && Search(all, TokenAt(all, n), limit) == Success(NextPage(all, n, limit))
    ensures var pages := Pages(all, TokenAt(all, n), limit, fuel);
      pages == Success([NextPage(all, n, limit)]) && Contents(pages.value) == all[n..]
  {
    ContentsOfMore(NextPage(all, n, limit), []);
    assert [NextPage(all, n, limit)] + [] == [NextPage(all, n, limit)];
  }

  lemma {:induction false} MorePages(all: seq<Memory>, n: nat, limit: nat, fuel: nat, rest: seq<Page>)
    requires 1 <= limit && n + limit <= |all| && fuel > 0
    requires Search(all, TokenAt(all, n), limit) == Success(NextPage(all, n, limit))
    requires Pages(all, TokenAt(all, n + limit), limit, fuel - 1) == Success(rest) && Contents(rest) == all[n + limit..]
    ensures var pages := Pages(all, TokenAt(all, n), limit, fuel);
      pages == Success([NextPage(all, n, limit)] + rest) && Contents(pages.value) == all[n..]
  {
    ContentsOfMore(NextPage(all, n, limit), rest);
    assert all[n..n + limit] + all[n + limit..] == all[n..];
  }

  /** Following the tokens from the first page shows every memory once, in order, in floor(n / limit) + 1 pages. */
  lemma {:induction false} PagesShowEverything(all: seq<Memory>, limit: nat, fuel: nat)
    requires Listed(all) && limit >= 1 && fuel > |all|
    ensures var pages := Pages(all, None, limit, fuel);
      && pages.Success? && Contents(pages.value) == all
      && (|pages.value| - 1) * limit <= |all| < |pages.value| * limit
  {
    EnoughFuel(|all|, limit);
    PagesFrom(all, 0, limit, fuel);
    PageCountIsQuotient(|all|, limit);
    assert all[0..] == all;
  }

  lemma {:induction false} EnoughFuel(n: nat, limit: nat)
    requires limit >= 1
    ensures PageCount(n, limit) <= n + 1
  {
    if n >= limit {
      EnoughFuel(n - limit, limit);
    }
  }
}
