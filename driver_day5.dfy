/**
 * `main` of pages/driver_day5.py: a plain pool of 8 pages of 4 slots and no
 * event logger, request 1 building the prompt's prefix and decoding one
 * token, request 2 taking the cached list and table objects themselves from
 * the prefix cache and copying their shared last page on write, then the
 * two cleanup loops. The plain pool's free_page fails before it frees
 * anything, so the first page whose count reaches zero ends the run.
 */
module DriverDay5 {
  import opened Common
  import opened Pages
  import opened Pool
  import opened PageTables
  import opened PrefixCaches
  import opened Prefix
  import opened Requests
  import opened PrefixSteps
  import opened Simulator

  const Day5Pages: nat := 8
  const Day5PageSize: nat := 4

  /**
   * The exception `main` ends with for a prompt of n tokens: request 1's
   * error when it cannot serve the prompt, the pool running dry at request
   * 2's copy-on-write when the prefix took every page, and otherwise the
   * failing free_page of the first cleanup loop.
   */
  function Day5Error(n: nat): Error
  {
    if !Serves(n, Day5PageSize, Day5Pages) then FirstError(n, Plain, Day5PageSize, Day5Pages)
    else if CeilDiv(n, Day5PageSize) == Day5Pages then RuntimeError(OutOfPagesMessage(Plain))
    else UnboundLocalError("page")
  }

  /** The pages of a list in use are none of the free pages. */
  lemma InUseOffFree(pool: PagePool, items: seq<Page>)
    requires pool.Valid() && InUse(pool.used, items)
    ensures forall i, j | 0 <= i < |items| && 0 <= j < |pool.free| :: items[i] != pool.free[j]
  {
    forall i, j | 0 <= i < |items| && 0 <= j < |pool.free|
      ensures items[i] != pool.free[j]
    {
      InUseNotFree(pool.all, pool.free, pool.used, pool.usedOrder, items[i].id);
    }
  }

  /** A list of pages of the pool, in use, with distinct ids, each held by one request. */
  ghost predicate HeldOnce(pool: PagePool, items: seq<Page>)
    reads pool, items
  {
    && OfPool(pool.all, items) && InUse(pool.used, items) && DistinctIds(items)
    && forall i | 0 <= i < |items| :: items[i].refCount == 1
  }

  /**
   * Request 1's list after serving n tokens from f free pages: one page per
   * started block of the page size, each held once and taken off the free list.
   */
  ghost predicate FirstHeld(pool: PagePool, items: seq<Page>, n: nat, f: nat)
    reads pool, items
  {
    && |items| == CeilDiv(n, pool.pageSize) && items != [] && HeldOnce(pool, items)
    && |pool.free| + |items| == f
  }

  /**
   * A list of pages of the pool with distinct ids whose last page, the copy
   * p, is held once and whose other pages rest are held twice.
   */
  ghost predicate SharedWithCopy(pool: PagePool, items: seq<Page>, rest: seq<Page>, p: Page)
    reads pool, items
  {
    && items == rest + [p] && OfPool(pool.all, items) && DistinctIds(items)
    && (forall i | 0 <= i < |items| - 1 :: items[i].refCount == 2)
    && items[|items| - 1].refCount == 1
  }

  /** The free pages are pages of the pool. */
  lemma FreeIsOfPool(pool: PagePool)
    requires pool.Valid()
    ensures OfPool(pool.all, pool.free)
  {
  }

  /** The pages a build took from a free list in id order are pages of the pool. */
  lemma TakenOfPool(all: seq<Page>, free: seq<Page>, used: map<nat, Page>, items: seq<Page>, F: seq<Page>, U: set<nat>)
    requires |F| == |all| && (forall j | 0 <= j < |F| :: F[j] == all[j]) && (forall j | 0 <= j < |all| :: all[j].id == j)
    requires Taken(free, used, items, F, U)
    ensures OfPool(all, items)
  {
    forall i | 0 <= i < |items|
      ensures items[i].id < |all| && all[items[i].id] == items[i]
    {
      assert items[i] == all[|F| - 1 - i];
    }
  }

  /** A list of pool pages with a free page of the pool in place of its last is a list of pool pages. */
  lemma FreeOfPool(all: seq<Page>, F: seq<Page>, rest: seq<Page>)
    requires F != [] && OfPool(all, F) && OfPool(all, rest)
    ensures OfPool(all, rest + [F[|F| - 1]])
  {
  }

  /**
   * The prefix step of request 1 (lines 103-114) on an empty cache: the miss
   * path builds the prefix, holds each page once and caches the list and
   * table objects.
   */
  method PrefixDay5(pool: PagePool, cache: PrefixCache, key: int, n: nat, fwdK: Forward, fwdV: Forward)
    returns (r: Result<CacheEntry>)
    requires pool.Valid() && pool.logger == null && pool.pageSize > 0 && cache.cache == map[]
    requires |pool.free| == |pool.all| && forall j | 0 <= j < |pool.free| :: pool.free[j] == pool.all[j]
    modifies pool, pool.all`used, pool.all`k, pool.all`v, pool.all`refCount, cache
    ensures pool.Valid()
    ensures r.Err? <==> PrefixFails(n, pool.pageSize, |old(pool.free)|)
    ensures r.Err? ==> r.error == PrefixError(pool.kind, pool.pageSize, |old(pool.free)|)
    ensures r.Ok? ==> var items := r.value.pages.items;
      && fresh(r.value.pages) && fresh(r.value.table) && cache.cache == map[key := r.value]
      && |items| == CeilDiv(n, pool.pageSize) && (n > 0 ==> items != [])
      && (items != [] ==> items[|items| - 1].used == (n - 1) % pool.pageSize + 1 && items[|items| - 1].size == pool.pageSize)
      && HeldOnce(pool, items)
      && |pool.free| == |old(pool.free)| - |items|
  {
    ghost var F, U := pool.free, pool.used.Keys;
    r := Acquire(pool, cache, key, n, fwdK, fwdV);
    if r.Ok? {
      TakenOfPool(pool.all, pool.free, pool.used, r.value.pages.items, F, U);
    }
  }

  /**
   * The decode of request 1 (lines 117-136) on a list held once: no
   * copy-on-write; the token goes into the next slot of the last page, which
   * fails on an empty list or a full page. The pool and the counts stay.
   */
  method DecodeDay5(pool: PagePool, pages: PageList, table: PageTable, rowK: Vec, rowV: Vec) returns (r: Result<Entry>)
    requires pool.Valid() && pool.logger == null
    requires HeldOnce(pool, pages.items)
    modifies pool, pages, table, pool.all`refCount, pool.all`used, pool.all`k, pool.all`v
    ensures pool.Valid() && pool.free == old(pool.free) && pool.used == old(pool.used)
    ensures pages.items == old(pages.items) && HeldOnce(pool, pages.items)
    ensures pages.items == [] ==> r == Err(IndexError)
    ensures pages.items != [] ==> var last := pages.items[|pages.items| - 1];
      && (r.Err? <==> old(last.used) >= last.size)
      && (r.Err? ==> r.error == RuntimeError(PageFullMessage))
  {
    var items := pages.items;
    if items != [] {
      assert LastOf(items) == [items[|items| - 1]];
    }
    InUseOffFree(pool, items);
    FreeIsOfPool(pool);
    r := Decode(pool, pages, table, rowK, rowV);
  }

  /** How request 1 ends, from the prefix it built: m pages, the last holding lastUsed tokens. */
  lemma FirstOutcome(n: nat, S: nat, f: nat, kind: PoolKind, m: nat, lastUsed: nat)
    requires S > 0 && !PrefixFails(n, S, f) && m == CeilDiv(n, S)
    requires m > 0 ==> lastUsed == (n - 1) % S + 1
    ensures Serves(n, S, f) <==> m > 0 && lastUsed < S
    ensures !Serves(n, S, f) ==> FirstError(n, kind, S, f) == if m == 0 then IndexError else RuntimeError(PageFullMessage)
  {
    if n > 0 {
      LastSlot(n, S);
    }
  }

  /**
   * Request 1 (lines 101-136) on an empty cache and a pool without a logger:
   * the prefix step, then one token decoded into the last prefix page.
   */
  method FirstDay5(pool: PagePool, cache: PrefixCache, key: int, n: nat, fwdK: Forward, fwdV: Forward,
                   rowK: Vec, rowV: Vec) returns (r: Result<CacheEntry>)
    requires pool.Valid() && pool.logger == null && pool.pageSize > 0 && cache.cache == map[]
    requires |pool.free| == |pool.all| && forall j | 0 <= j < |pool.free| :: pool.free[j] == pool.all[j]
    modifies pool, pool.all`used, pool.all`k, pool.all`v, pool.all`refCount, cache
    ensures pool.Valid()
    ensures r.Err? <==> !Serves(n, pool.pageSize, |old(pool.free)|)
    ensures r.Err? ==> r.error == FirstError(n, pool.kind, pool.pageSize, |old(pool.free)|)
    ensures r.Ok? ==> fresh(r.value.pages) && fresh(r.value.table) && cache.cache == map[key := r.value]
    ensures r.Ok? ==> FirstHeld(pool, r.value.pages.items, n, |old(pool.free)|)
  {
    ghost var f := |pool.free|;
    var a := PrefixDay5(pool, cache, key, n, fwdK, fwdV);
    if a.Err? {
      return Err(a.error);
    }
    var d := DecodeAfterPrefix(pool, a.value, n, f, rowK, rowV);
    if d.Err? {
      return Err(d.error);
    }
    r := Ok(a.value);
  }

  /** The decode step of request 1, on the list its prefix step built from f free pages. */
  method DecodeAfterPrefix(pool: PagePool, e: CacheEntry, n: nat, ghost f: nat, rowK: Vec, rowV: Vec)
    returns (d: Result<Entry>)
    requires pool.Valid() && pool.logger == null && pool.pageSize > 0 && !PrefixFails(n, pool.pageSize, f)
    requires var items := e.pages.items;
      && |items| == CeilDiv(n, pool.pageSize) && (n > 0 ==> items != [])
      && (items != [] ==> items[|items| - 1].used == (n - 1) % pool.pageSize + 1 && items[|items| - 1].size == pool.pageSize)
      && HeldOnce(pool, items) && |pool.free| == f - |items|
    modifies pool, e.pages, e.table, pool.all`refCount, pool.all`used, pool.all`k, pool.all`v
    ensures pool.Valid()
    ensures d.Err? <==> !Serves(n, pool.pageSize, f)
    ensures d.Err? ==> d.error == FirstError(n, pool.kind, pool.pageSize, f)
    ensures d.Ok? ==> FirstHeld(pool, e.pages.items, n, f)
  {
    ghost var items := e.pages.items;
    ghost var lastUsed := if items == [] then 0 else items[|items| - 1].used;
    FirstOutcome(n, pool.pageSize, f, pool.kind, |items|, lastUsed);
    d := DecodeDay5(pool, e.pages, e.table, rowK, rowV);
  }

  /**
   * The decode of request 2 (lines 149-166) on a list of pool pages each
   * held twice: the last page being shared, copy-on-write into the page at
   * the end of the free list, which replaces the last page in the list; the
   * other pages keep their two holders.
   */
  method DecodeOnShared(pool: PagePool, pages: PageList, table: PageTable, rowK: Vec, rowV: Vec,
                        ghost rest: seq<Page>, ghost F: seq<Page>) returns (r: Result<Entry>)
    requires pool.Valid() && pool.logger == null && pool.pageSize > 0 && F == pool.free
    requires pages.items != [] && rest == pages.items[..|pages.items| - 1]
    requires InUse(pool.used, pages.items) && DistinctIds(pages.items) && OfPool(pool.all, pages.items)
    requires forall i | 0 <= i < |pages.items| :: pages.items[i].refCount == 2
    modifies pool, pages, table, LastOf(pages.items)`refCount
    modifies pool.free`k, pool.free`v, pool.free`refCount, pool.free`used
    ensures pool.Valid()
    ensures r.Err? <==> F == []
    ensures r.Err? ==> r.error == RuntimeError(OutOfPagesMessage(pool.kind))
    ensures r.Ok? ==> SharedWithCopy(pool, pages.items, rest, F[|F| - 1])
  {
    var items := pages.items;
    var last := items[|items| - 1];
    assert LastOf(items) == [last];
    InUseOffFree(pool, items);
    FreeIsOfPool(pool);
    forall i | 0 <= i < |rest|
      ensures rest[i] != last && rest[i] !in pool.free && rest[i].refCount == 2
    {
      IdsDiffer(items, i, |items| - 1);
    }
    if F != [] {
      CopyTargetFits(pool, items, rest);
    }
    r := DecodeSharedUnlogged(pool, pages, table, rowK, rowV, rest);
  }

  /** DecodeShared on a pool without a logger, with only what request 2 relies on. */
  method DecodeSharedUnlogged(pool: PagePool, pages: PageList, table: PageTable, rowK: Vec, rowV: Vec,
                              ghost rest: seq<Page>)
    returns (r: Result<Entry>)
    requires pool.Valid() && pool.logger == null && pool.pageSize > 0
    requires pages.items != [] && InUse(pool.used, LastOf(pages.items))
    requires rest == pages.items[..|pages.items| - 1]
    requires forall i | 0 <= i < |rest| :: rest[i] != pages.items[|pages.items| - 1] && rest[i] !in pool.free
    requires forall i | 0 <= i < |rest| :: rest[i].refCount == 2
    modifies pool, pages, table, LastOf(pages.items)`refCount
    modifies pool.free`k, pool.free`v, pool.free`refCount, pool.free`used
    ensures pool.Valid()
    ensures r.Err? <==> old(pool.free) == []
    ensures r.Err? ==> r.error == RuntimeError(OutOfPagesMessage(pool.kind))
    ensures old(pool.free) != [] ==> var p := old(pool.free)[|old(pool.free)| - 1];
      pages.items == rest + [p] && p.refCount == 1
    ensures forall i | 0 <= i < |rest| :: rest[i].refCount == 2
  {
    r := DecodeShared(pool, pages, table, rowK, rowV);
  }

  /** The page at the end of the free list can replace the last page of a list of used pool pages. */
  lemma CopyTargetFits(pool: PagePool, items: seq<Page>, rest: seq<Page>)
    requires pool.Valid() && pool.free != [] && items != [] && rest == items[..|items| - 1]
    requires InUse(pool.used, items) && DistinctIds(items) && OfPool(pool.all, items)
    ensures var p := pool.free[|pool.free| - 1];
      DistinctIds(rest + [p]) && OfPool(pool.all, rest + [p])
  {
    var F := pool.free;
    var p := F[|F| - 1];
    FreeIsOfPool(pool);
    assert p.id !in IdsOf(rest) by {
      forall i | 0 <= i < |rest|
        ensures rest[i].id != p.id
      {
        assert items[i].id in pool.used;
        InUseNotFree(pool.all, pool.free, pool.used, pool.usedOrder, items[i].id);
      }
    }
    DistinctInit(items);
    DistinctSnoc(rest, p);
    FreeOfPool(pool.all, F, rest);
  }

  /**
   * The hit of request 2 (lines 144-147): the cache hands back request 1's
   * own list and table objects, and every page of the list gains a second
   * holder.
   */
  method HoldShared(pool: PagePool, cache: PrefixCache, key: int, e: CacheEntry)
    returns (pages: PageList, table: PageTable)
    requires cache.cache == map[key := e] && HeldOnce(pool, e.pages.items)
    modifies e.pages.items`refCount
    ensures pages == e.pages && table == e.table
    ensures forall i | 0 <= i < |pages.items| :: pages.items[i].refCount == 2
  {
    var got := cache.Get(key);
    pages, table := got.value.pages, got.value.table;
    HoldAgain(pages.items);
  }

  /**
   * Request 2 (lines 144-166): the cache hands back request 1's list and
   * table objects, every page gains a holder, and the now shared last page
   * is copied on write into the page at the end of the free list, which
   * replaces it in that same list.
   */
  method SecondDay5(pool: PagePool, cache: PrefixCache, key: int, e: CacheEntry, rowK: Vec, rowV: Vec)
    returns (r: Result<()>)
    requires pool.Valid() && pool.logger == null && pool.pageSize > 0
    requires cache.cache == map[key := e]
    requires e.pages.items != [] && HeldOnce(pool, e.pages.items)
    modifies pool, e.pages, e.table, pool.all`refCount, pool.all`used, pool.all`k, pool.all`v
    ensures pool.Valid()
    ensures r.Err? <==> old(pool.free) == []
    ensures r.Err? ==> r.error == RuntimeError(OutOfPagesMessage(pool.kind))
    ensures r.Ok? ==> var items, F := old(e.pages.items), old(pool.free);
      SharedWithCopy(pool, e.pages.items, items[..|items| - 1], F[|F| - 1])
  {
    ghost var F, rest := pool.free, e.pages.items[..|e.pages.items| - 1];
    var pages2, table2 := HoldShared(pool, cache, key, e);
    var d := DecodeOnShared(pool, pages2, table2, rowK, rowV, rest, F);
    if d.Err? {
      return Err(d.error);
    }
    r := Ok(());
  }

  /**
   * Request 2 and the cleanup (lines 144-182): unless the pool has no page
   * left for the copy, the first cleanup loop reaches the copy, the first
   * page of the shared list that only one request holds, and free_page
   * fails there.
   */
  method AfterFirst(pool: PagePool, cache: PrefixCache, key: int, e: CacheEntry, rowK: Vec, rowV: Vec)
    returns (r: Result<()>)
    requires pool.Valid() && pool.logger == null && pool.pageSize > 0
    requires cache.cache == map[key := e]
    requires e.pages.items != [] && HeldOnce(pool, e.pages.items)
    modifies pool, e.pages, e.table, pool.all`refCount, pool.all`used, pool.all`k, pool.all`v
    ensures r == Err(if old(pool.free) == [] then RuntimeError(OutOfPagesMessage(pool.kind)) else UnboundLocalError("page"))
  {
    var second := SecondDay5(pool, cache, key, e, rowK, rowV);
    if second.Err? {
      return Err(second.error);
    }
    var items := e.pages.items;
    ghost var refs := RefCounts(items);
    assert forall i | 0 <= i < |items| - 1 :: refs[i] != 1;
    FirstHeldOnceAt(refs, |items| - 1);
    r := ReleasePlain(pool, items);
  }

  /**
   * `main` of the day-5 driver for a prompt the tokenizer turns into n
   * tokens under the hash `key`: no prompt gets through cleanup.
   */
  method Day5Main(key: int, n: nat, fwdK: Forward, fwdV: Forward, rowK1: Vec, rowV1: Vec, rowK2: Vec, rowV2: Vec,
                  numLayers: nat, numHeads: nat) returns (r: Result<()>)
    ensures r == Err(Day5Error(n))
  {
    var pool := new PagePool(Plain, null, Day5Pages, Day5PageSize, numLayers, numHeads);
    var cache := new PrefixCache();
    var first := FirstDay5(pool, cache, key, n, fwdK, fwdV, rowK1, rowV1);
    if first.Err? {
      return Err(first.error);
    }
    r := AfterFirst(pool, cache, key, first.value, rowK2, rowV2);
  }

  /** The run ends in the cleanup loop exactly for the prompts of 1 to 27 tokens that do not fill their last page. */
  lemma CleanupFailsFor(n: nat)
    ensures Day5Error(n) == UnboundLocalError("page") <==> 0 < n < 28 && n % Day5PageSize != 0
  {
    TimesIsProduct(Day5PageSize, Day5Pages - 1);
    var m := CeilDiv(n, Day5PageSize);
    if 0 < n < 28 && m >= Day5Pages {
      TimesMono(Day5PageSize, Day5Pages - 1, m - 1);
    } else if n > 28 {
      NeedsMorePages(n, Day5PageSize, Day5Pages - 1);
    }
  }
}
