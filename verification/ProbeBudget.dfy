/**
 * The simulated call budget and the shared poller of probe_tuscaloosa.py.
 * Each public method holds one lock from start to end, so any interleaving
 * of callers is a sequence of these calls.
 */
module ProbeBudget {
  import opened Options

  datatype Entry = Entry(kind: string, segment: string, calls: int, accepted: bool, usedAfter: int)

  /** Calls paid for by the accepted entries. */
  function Accepted(ledger: seq<Entry>): int {
    if ledger == [] then 0
    else
      var last := ledger[|ledger| - 1];
      Accepted(ledger[..|ledger| - 1]) + (if last.accepted then last.calls else 0)
  }

  class Budget {
    const cap: int
    const loadedUsed: int
    const loadedLedger: seq<Entry>
    var used: int
    var ledger: seq<Entry>
    var stoppedAtCap: bool

    /** Usage is what was loaded plus every accepted call since, and never
        passes the cap unless it was loaded past it. */
    ghost predicate Valid()
      reads this
    {
      && cap > 0 && loadedUsed >= 0
      && loadedLedger <= ledger
      && used - loadedUsed == Accepted(ledger) - Accepted(loadedLedger)
      && loadedUsed <= used && (used <= cap || used == loadedUsed)
    }

    constructor (cap: int)
      requires cap > 0
      ensures Valid() && this.cap == cap && used == 0 && ledger == [] && !stoppedAtCap
      ensures loadedUsed == 0 && loadedLedger == [] && Accepted(ledger) == 0
    {
      this.cap, loadedUsed, loadedLedger := cap, 0, [];
      used, ledger, stoppedAtCap := 0, [], false;
    }

    constructor Load(cap: int, used: int, ledger: seq<Entry>, stopped: bool)
      requires cap > 0 && used >= 0
      ensures Valid() && this.cap == cap && this.used == used && this.ledger == ledger && stoppedAtCap == stopped
    {
      this.cap, loadedUsed, loadedLedger := cap, used, ledger;
      this.used, this.ledger, stoppedAtCap := used, ledger, stopped;
    }

    /** None is the ValueError for a reservation below one. */
    method Reserve(n: int, kind: string, segment: string) returns (r: Option<bool>)
      requires Valid()
      modifies this
      ensures Valid()
      ensures r.None? <==> n < 1
      ensures r.None? ==> used == old(used) && ledger == old(ledger) && stoppedAtCap == old(stoppedAtCap)
      ensures r.Some? ==> r.value == (old(used) + n <= cap)
      ensures r.Some? ==> ledger == old(ledger) + [Entry(kind, segment, n, r.value, used)]
      ensures r == Some(true) ==> used == old(used) + n && stoppedAtCap == old(stoppedAtCap)
      ensures r == Some(false) ==> used == old(used) && stoppedAtCap
    {
      if n < 1 { return None; }
      var before := ledger;
      if used + n > cap {
        stoppedAtCap := true;
        ledger := ledger + [Entry(kind, segment, n, false, used)];
        assert ledger[..|ledger| - 1] == before;
        return Some(false);
      }
      used := used + n;
      ledger := ledger + [Entry(kind, segment, n, true, used)];
      assert ledger[..|ledger| - 1] == before;
      return Some(true);
    }
  }

  // ---------- what a paged poll costs and returns -----------------------------------

  /** `fetch(page, attempt)`: the page, or None when the attempt raises. */
  type Fetch<!T> = (nat, nat) -> Option<seq<T>>

  /** The first attempt from `a` on that returns page `p`. */
  function FirstSuccess<T>(fetch: Fetch<T>, p: nat, a: nat, retries: nat): (r: Option<nat>)
    ensures r.Some? ==> a <= r.value <= retries && fetch(p, r.value).Some?
    decreases retries + 1 - a
  {
    if a > retries then None
    else if fetch(p, a).Some? then Some(a)
    else FirstSuccess(fetch, p, a + 1, retries)
  }

  predicate AllPagesArrive<T>(fetch: Fetch<T>, pages: nat, retries: nat) {
    forall p: nat :: p < pages ==> FirstSuccess(fetch, p, 0, retries).Some?
  }

  function PageData<T>(fetch: Fetch<T>, p: nat, retries: nat): seq<T> {
    var k := FirstSuccess(fetch, p, 0, retries);
    if k.Some? then fetch(p, k.value).value else []
  }

  /** One call per attempt, failed ones included. */
  function PageCost<T>(fetch: Fetch<T>, p: nat, retries: nat): (c: nat)
    ensures 1 <= c <= retries + 1
  {
    var k := FirstSuccess(fetch, p, 0, retries);
    if k.Some? then k.value + 1 else retries + 1
  }

  function PagesUpTo<T>(fetch: Fetch<T>, pages: nat, retries: nat): seq<T> {
    if pages == 0 then [] else PagesUpTo(fetch, pages - 1, retries) + PageData(fetch, pages - 1, retries)
  }

  function CostUpTo<T>(fetch: Fetch<T>, pages: nat, retries: nat): nat {
    if pages == 0 then 0 else CostUpTo(fetch, pages - 1, retries) + PageCost(fetch, pages - 1, retries)
  }

  /** A whole poll costs at least one call per page and at most one per page
      and attempt; stopping earlier never costs more. */
  lemma {:induction false} CostBounds<T>(fetch: Fetch<T>, pages: nat, retries: nat)
    ensures pages <= CostUpTo(fetch, pages, retries) <= pages * (retries + 1)
  {
    if pages > 0 {
      CostBounds(fetch, pages - 1, retries);
      assert pages * (retries + 1) == (pages - 1) * (retries + 1) + (retries + 1);
    }
  }

  lemma {:induction false} CostGrows<T>(fetch: Fetch<T>, page: nat, pages: nat, retries: nat)
    requires page <= pages
    ensures CostUpTo(fetch, page, retries) + (pages - page) <= CostUpTo(fetch, pages, retries)
  {
    if page < pages { CostGrows(fetch, page, pages - 1, retries); }
  }

  datatype Poll<T> = Got(listings: seq<T>) | BudgetExhausted | FetchRaised | BadArguments

  /** The ledger grew by single calls of this kind for this segment. */
  predicate GrewBy(before: seq<Entry>, after: seq<Entry>, kind: string, id: string) {
    before <= after
    && forall k :: |before| <= k < |after| ==> after[k].kind == kind && after[k].segment == id && after[k].calls == 1
  }

  class Poller<T> {
    const budget: Budget
    var cache: map<string, seq<T>>
    var pollCalls: nat

    /** A segment is fetched successfully at most once. */
    ghost predicate Valid()
      reads this, budget
    {
      budget.Valid() && pollCalls == |cache|
    }

    constructor (budget: Budget)
      requires budget.Valid()
      ensures Valid() && this.budget == budget && cache == map[] && pollCalls == 0
    {
      this.budget, cache, pollCalls := budget, map[], 0;
    }

    method PollOnce(id: string, fetch: Option<seq<T>>) returns (r: Poll<T>)
      requires Valid()
      modifies this, budget
      ensures Valid()
      ensures id in old(cache) ==> r == Got(old(cache)[id]) && cache == old(cache) && budget.used == old(budget.used)
      ensures id !in old(cache) && old(budget.used) + 1 > budget.cap ==>
                r == BudgetExhausted && cache == old(cache) && budget.used == old(budget.used)
      ensures id !in old(cache) && old(budget.used) + 1 <= budget.cap ==>
                && budget.used == old(budget.used) + 1
                && (fetch.None? ==> r == FetchRaised && cache == old(cache))
                && (fetch.Some? ==> r == Got(fetch.value) && cache == old(cache)[id := fetch.value])
      ensures GrewBy(old(budget.ledger), budget.ledger, "poll", id)
    {
      if id in cache { return Got(cache[id]); }
      var ok := budget.Reserve(1, "poll", id);
      if ok == Some(false) { return BudgetExhausted; }
      if fetch.None? { return FetchRaised; }
      cache := cache[id := fetch.value];
      pollCalls := pollCalls + 1;
      return Got(fetch.value);
    }

    /** The attempts for one page. It arrives exactly when some attempt does
        and the attempts up to that one fit the budget. */
    method FetchPage(id: string, fetch: Fetch<T>, page: nat, retries: nat) returns (r: Poll<T>)
      requires Valid()
      modifies budget
      ensures Valid() && !r.BadArguments?
      ensures r.Got? <==> FirstSuccess(fetch, page, 0, retries).Some?
                          && old(budget.used) + PageCost(fetch, page, retries) <= budget.cap
      ensures r.Got? ==> r.listings == PageData(fetch, page, retries)
                         && budget.used == old(budget.used) + PageCost(fetch, page, retries)
                         && |budget.ledger| == |old(budget.ledger)| + PageCost(fetch, page, retries)
                         && budget.stoppedAtCap == old(budget.stoppedAtCap)
      ensures r.FetchRaised? ==> FirstSuccess(fetch, page, 0, retries).None?
      ensures r.BudgetExhausted? ==> budget.stoppedAtCap && budget.used >= budget.cap
      ensures r.BudgetExhausted? ==> |budget.ledger| == |old(budget.ledger)| + budget.used - old(budget.used) + 1
      ensures r.FetchRaised? ==> |budget.ledger| == |old(budget.ledger)| + budget.used - old(budget.used)
      ensures r.FetchRaised? ==> budget.stoppedAtCap == old(budget.stoppedAtCap)
      ensures old(budget.used) <= budget.used && GrewBy(old(budget.ledger), budget.ledger, "page", id)
    {
      var attempt := 0;
      while true
        invariant 0 <= attempt <= retries && Valid() && budget.stoppedAtCap == old(budget.stoppedAtCap)
        invariant FirstSuccess(fetch, page, 0, retries) == FirstSuccess(fetch, page, attempt, retries)
        invariant budget.used == old(budget.used) + attempt
        invariant |budget.ledger| == |old(budget.ledger)| + attempt && GrewBy(old(budget.ledger), budget.ledger, "page", id)
        decreases retries - attempt
      {
        var ok := budget.Reserve(1, "page", id);
        if ok == Some(false) { return BudgetExhausted; }
        var got := fetch(page, attempt);
        if got.Some? { return Got(got.value); }
        if attempt >= retries { return FetchRaised; }
        attempt := attempt + 1;
      }
    }

    /** An uncached segment succeeds exactly when every page arrives within
        its retries and all the attempts fit the budget; it then costs those
        attempts and returns the pages in order. A failure caches nothing,
        and what it was charged stays charged. */
    method PollPaged(id: string, fetch: Fetch<T>, pageCount: int, retries: int) returns (r: Poll<T>)
      requires Valid()
      modifies this, budget
      ensures Valid()
      ensures r.BadArguments? <==> pageCount < 1 || retries < 0
      ensures !r.Got? || id in old(cache) ==> cache == old(cache) && pollCalls == old(pollCalls)
      ensures r.BadArguments? || id in old(cache) ==> budget.used == old(budget.used) && budget.ledger == old(budget.ledger)
                                                      && budget.stoppedAtCap == old(budget.stoppedAtCap)
      ensures pageCount >= 1 && retries >= 0 && id in old(cache) ==> r == Got(old(cache)[id])
      ensures pageCount >= 1 && retries >= 0 && id !in old(cache) ==>
                (r.Got? <==> AllPagesArrive(fetch, pageCount, retries)
                             && old(budget.used) + CostUpTo(fetch, pageCount, retries) <= budget.cap)
      ensures r.Got? && id !in old(cache) ==>
                && r.listings == PagesUpTo(fetch, pageCount, retries)
                && cache == old(cache)[id := r.listings]
                && budget.used == old(budget.used) + CostUpTo(fetch, pageCount, retries)
                && |budget.ledger| == |old(budget.ledger)| + CostUpTo(fetch, pageCount, retries)
                && budget.stoppedAtCap == old(budget.stoppedAtCap)
      ensures r.BudgetExhausted? ==> budget.stoppedAtCap && budget.used >= budget.cap
      ensures r.BudgetExhausted? ==> |budget.ledger| == |old(budget.ledger)| + budget.used - old(budget.used) + 1
      ensures r.FetchRaised? ==> |budget.ledger| == |old(budget.ledger)| + budget.used - old(budget.used)
      ensures r.FetchRaised? ==> budget.stoppedAtCap == old(budget.stoppedAtCap)
      ensures r.FetchRaised? ==> pageCount >= 0 && retries >= 0 && !AllPagesArrive(fetch, pageCount, retries)
      ensures old(budget.used) <= budget.used
    {
      if pageCount < 1 || retries < 0 { return BadArguments; }
      if id in cache { return Got(cache[id]); }
      var pages: seq<T> := [];
      for page := 0 to pageCount
        invariant cache == old(cache) && pollCalls == old(pollCalls)
        invariant Valid() && AllPagesArrive(fetch, page, retries)
        invariant pages == PagesUpTo(fetch, page, retries)
        invariant budget.used == old(budget.used) + CostUpTo(fetch, page, retries)
        invariant |budget.ledger| == |old(budget.ledger)| + CostUpTo(fetch, page, retries)
        invariant budget.stoppedAtCap == old(budget.stoppedAtCap)
        invariant page > 0 ==> budget.used <= budget.cap
      {
        CostGrows(fetch, page + 1, pageCount, retries);
        var got := FetchPage(id, fetch, page, retries);
        if !got.Got? { return got; }
        pages := pages + got.listings;
      }
      cache := cache[id := pages];
      pollCalls := pollCalls + 1;
      return Got(pages);
    }
  }

  // ---------- the fixture pages ---------------------------------------------------------

  /** Python's `records[p * size : p * size + size]`. */
  function Slice<T>(records: seq<T>, p: nat, size: nat): seq<T> {
    var lo := if p * size < |records| then p * size else |records|;
    var hi := if p * size + size < |records| then p * size + size else |records|;
    records[lo..hi]
  }

  function PageCount(records: nat, size: nat): (n: nat)
    requires size > 0
    ensures n >= 1
  {
    var n := (records + size - 1) / size;
    if n < 1 then 1 else n
  }

  function FixturePages<T>(records: seq<T>, size: nat): Fetch<T> {
    (p: nat, a: nat) => Some(Slice(records, p, size))
  }

  lemma PagesCoverEverything(records: nat, size: nat)
    requires size > 0
    ensures PageCount(records, size) * size >= records
  {
    var n := (records + size - 1) / size;
    assert n * size + (records + size - 1) % size == records + size - 1;
  }

  function Upto(count: nat, bound: nat): nat {
    if count < bound then count else bound
  }

  lemma NextSlice<T>(records: seq<T>, p: nat, size: nat)
    ensures records[..Upto((p + 1) * size, |records|)] == records[..Upto(p * size, |records|)] + Slice(records, p, size)
  {
    assert (p + 1) * size == p * size + size;
  }

  lemma {:induction false} PagesAreAPrefix<T>(records: seq<T>, size: nat, pages: nat)
    requires size > 0
    ensures AllPagesArrive(FixturePages(records, size), pages, 1)
    ensures CostUpTo(FixturePages(records, size), pages, 1) == pages
    ensures PagesUpTo(FixturePages(records, size), pages, 1)
         == records[..Upto(pages * size, |records|)]
  {
    if pages > 0 {
      PagesAreAPrefix(records, size, pages - 1);
      NextSlice(records, pages - 1, size);
    }
  }

  /** Cutting a segment's records into ceil-division pages and joining the
      pages again gives the records back, for one call per page. */
  lemma PagesJoinToTheRecords<T>(records: seq<T>, size: nat)
    requires size > 0
    ensures var n := PageCount(|records|, size);
            && AllPagesArrive(FixturePages(records, size), n, 1)
            && CostUpTo(FixturePages(records, size), n, 1) == n
            && PagesUpTo(FixturePages(records, size), n, 1) == records
  {
    PagesAreAPrefix(records, size, PageCount(|records|, size));
    PagesCoverEverything(|records|, size);
  }
}
