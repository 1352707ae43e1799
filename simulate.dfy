/**
 * `KVCacheSimulator.simulate` of backend/simulator.py end to end, on the
 * fresh pool of 8 pages of 16 slots it builds for every run. The free list
 * starts in id order and pages are popped from its end, so request 1's list
 * is pages 7, 6, ... down to 8 - m for an m-page prompt, and the copy made
 * on write in request 2 is page 7 - m.
 *
 * `Simulate` runs request 2 on the cached list object itself, as the source
 * does; `SimulateCopied` runs it on a copy of that list and table. The two
 * differ in what cleanup hands back.
 */
module Simulate {
  import opened Common
  import opened Pages
  import opened Pool
  import opened PageTables
  import opened PrefixCaches
  import opened EventLog
  import opened Prefix
  import opened Requests
  import opened Simulator

  lemma Assoc3<T>(a: seq<T>, b: seq<T>, c: seq<T>)
    ensures a + b + c == a + (b + c)
  {
  }

  lemma Regroup<T>(a: seq<T>, b: seq<T>, c: seq<T>, d: seq<T>)
    ensures a + b + c + d == a + (b + c + d)
  {
  }

  /** The ids of the m pages request 1 takes: 7, 6, ... down to 8 - m. */
  function TakenIds(m: nat): (ids: seq<nat>)
    requires m <= SimPages
  {
    seq(m, i requires 0 <= i < m => SimPages - 1 - i)
  }

  /** Request 2's list: request 1's with its last page replaced by the copy, page 7 - m. */
  function SharedIds(m: nat): (ids: seq<nat>)
    requires 0 < m < SimPages
  {
    TakenIds(m - 1) + [SimPages - 1 - m]
  }

  /** The pages with the given ids. */
  ghost function PagesOf(all: seq<Page>, ids: seq<nat>): (ps: seq<Page>)
    requires forall i | 0 <= i < |ids| :: ids[i] < |all|
    ensures |ps| == |ids|
  {
    seq(|ids|, i requires 0 <= i < |ids| => all[ids[i]])
  }

  /** `[p.page_id for p in ps]`. */
  function PageIds(ps: seq<Page>): (ids: seq<nat>)
    ensures |ids| == |ps| && forall i | 0 <= i < |ps| :: ids[i] == ps[i].id
  {
    seq(|ps|, i requires 0 <= i < |ps| => ps[i].id)
  }

  /** The table entries of an n-token prompt on request 1's pages: token u in slot u mod 16 of page 7 - u / 16. */
  function SimEntries(n: nat): (entries: seq<Entry>)
    requires n <= SimPages * SimPageSize
  {
    seq(n, u requires 0 <= u < n => (SimPages - 1 - u / SimPageSize, u % SimPageSize))
  }

  /** What request 1 logs for an n-token prompt that it serves. */
  function FirstLog(prompt: string, rid: nat, n: nat, layers: nat): seq<Details>
    requires n <= SimPages * SimPageSize
  {
    [RequestStart(prompt, rid)] + PrefixLog(SimEntries(n), layers)
      + [DecodeStart(CeilDiv(n, SimPageSize)), DecodeEnd, RequestEnd(rid)]
  }

  /** What request 2 logs: the cache hit, the fault and copy of the last page 8 - m into page 7 - m. */
  function SecondLog(prompt: string, rid: nat, key: int, m: nat): seq<Details>
    requires 0 < m < SimPages
  {
    [RequestStart(prompt, rid), PrefixReuse(DecimalString(key), m),
     PageFault(SimPages - 1 - m), CopyOnWrite(SimPages - m, SimPages - 1 - m), RequestEnd(rid)]
  }

  /** A pool as the simulator builds it, before anything is taken. */
  ghost predicate FreshPool(pool: PagePool)
    reads pool, pool.free
  {
    && pool.Valid() && pool.FreeInOrder() && pool.logger != null
    && pool.pageSize == SimPageSize && pool.numPages == SimPages && pool.kind == Instrumented
    && |pool.free| == SimPages && pool.used == map[] && pool.usedOrder == []
  }

  /**
   * The pool after both requests served an n-token prompt (m pages): pages
   * 0 .. 6 - m still free, the rest in use; the prefix pages held twice, the
   * old last page 8 - m once with the decoded token of request 1, and the
   * copy 7 - m once with the token of request 2 in its first slot.
   */
  ghost predicate Served(pool: PagePool, n: nat)
    reads pool, pool.all
  {
    var all, m := pool.all, CeilDiv(n, SimPageSize);
    && 0 < m < SimPages && |all| == SimPages
    && pool.free == all[..SimPages - 1 - m]
    && (forall id: nat :: id in pool.used <==> SimPages - 1 - m <= id < SimPages)
    && (forall j | SimPages - m < j < SimPages :: all[j].refCount == 2)
    && all[SimPages - m].refCount == 1 && all[SimPages - m].used == n % SimPageSize + 1
    && all[SimPages - 1 - m].refCount == 1 && all[SimPages - 1 - m].used == 1
  }

  /**
   * The pool and the cached entry after request 1 served an n-token prompt
   * (m pages): its list is pages 7 down to 8 - m, each held once, which are
   * exactly the pages in use; pages 0 .. 7 - m are still free; the last page
   * holds the decoded token after the prompt's last one.
   */
  ghost predicate OneServed(pool: PagePool, e: CacheEntry, n: nat)
    reads pool, pool.all, e.pages
  {
    var all, m, items := pool.all, CeilDiv(n, SimPageSize), e.pages.items;
    && 0 < m <= SimPages && n <= SimPages * SimPageSize && |all| == SimPages
    && (forall j | 0 <= j < |all| :: all[j].id == j)
    && items == PagesOf(all, TakenIds(m))
    && pool.free == all[..SimPages - m]
    && InUse(pool.used, items) && DistinctIds(items)
    && (forall id: nat :: id in pool.used <==> SimPages - m <= id < SimPages)
    && (forall j | SimPages - m <= j < SimPages :: all[j].refCount == 1)
    && all[SimPages - m].used == n % SimPageSize + 1
  }

  /** Request 1 in the simulator's terms, read off FirstServed on the fresh pool. */
  lemma FirstConcrete(pool: PagePool, e: CacheEntry, n: nat, F0: seq<Page>)
    requires FirstServed(pool, e, n, F0, {})
    requires pool.pageSize == SimPageSize && |F0| == SimPages == |pool.all|
    requires forall j | 0 <= j < |F0| :: F0[j] == pool.all[j] && pool.all[j].id == j
    ensures OneServed(pool, e, n)
    ensures e.table.entries[..n] == SimEntries(n)
  {
    var items, entries, all, m := e.pages.items, e.table.entries, pool.all, CeilDiv(n, SimPageSize);
    assert items == PagesOf(all, TakenIds(m));
    assert n <= SimPages * SimPageSize by {
      TimesIsProduct(SimPageSize, m);
      TimesIsProduct(SimPageSize, SimPages);
      TimesMono(SimPageSize, m, SimPages);
    }
    forall u | 0 <= u < n
      ensures entries[u] == SimEntries(n)[u]
    {
      assert entries[u] == (items[u / SimPageSize].id, u % SimPageSize);
    }
    forall id: nat
      ensures id in pool.used <==> SimPages - m <= id < SimPages
    {
      if SimPages - m <= id < SimPages {
        assert items[SimPages - 1 - id].id == id;
      }
    }
    forall j | SimPages - m <= j < SimPages
      ensures all[j].refCount == 1
    {
      assert items[SimPages - 1 - j] == all[j];
    }
    assert items[m - 1] == all[SimPages - m];
  }

  /** The fresh pool's free list is its pages in id order. */
  lemma FreshOrder(pool: PagePool)
    requires FreshPool(pool)
    ensures |pool.free| == SimPages == |pool.all|
    ensures forall j | 0 <= j < |pool.free| :: pool.free[j] == pool.all[j] && pool.all[j].id == j
  {
  }

  /** The log FirstRequest promises, in the simulator's terms. */
  lemma FirstLogged(D0: seq<Details>, D1: seq<Details>, prompt: string, rid: nat, n: nat, L: nat, m: nat, entries: seq<Entry>)
    requires n <= |entries| && n <= SimPages * SimPageSize
    requires m == CeilDiv(n, SimPageSize) && entries[..n] == SimEntries(n)
    requires D1 == D0 + [RequestStart(prompt, rid)] + PrefixLog(entries[..n], L) + [DecodeStart(m), DecodeEnd, RequestEnd(rid)]
    ensures D1 == D0 + FirstLog(prompt, rid, n, L)
  {
    Regroup(D0, [RequestStart(prompt, rid)], PrefixLog(SimEntries(n), L), [DecodeStart(m), DecodeEnd, RequestEnd(rid)]);
  }

  /** Request 1 of `simulate` on the fresh pool and empty cache. */
  method RequestOne(pool: PagePool, cache: PrefixCache, prompt: string, key: int, n: nat,
                    fwdK: Forward, fwdV: Forward, rowK: Vec, rowV: Vec) returns (r: Result<CacheEntry>)
    requires FreshPool(pool) && pool.logger.Valid() && cache.cache == map[]
    modifies pool, pool.logger, pool.free`used, pool.free`k, pool.free`v, pool.free`refCount, cache
    ensures PoolValid(pool) && pool.logger.Valid()
    ensures r.Err? <==> !Serves(n, SimPageSize, SimPages)
    ensures r.Err? ==> r.error == FirstError(n, Instrumented, SimPageSize, SimPages)
    ensures r.Ok? ==> fresh(r.value.pages) && fresh(r.value.table)
    ensures r.Ok? ==> cache.cache == map[key := r.value] && OneServed(pool, r.value, n)
    ensures r.Ok? ==> pool.logger.requestCounter == old(pool.logger.requestCounter) + 1
    ensures r.Ok? ==> pool.logger.Details() == old(pool.logger.Details()) + FirstLog(prompt, pool.logger.requestCounter, n, pool.numLayers)
  {
    ghost var F0, D0 := pool.free, pool.logger.Details();
    FreshOrder(pool);
    r := FirstRequest(pool, cache, prompt, key, n, fwdK, fwdV, rowK, rowV);
    if r.Ok? {
      FirstConcrete(pool, r.value, n, F0);
      FirstLogged(D0, pool.logger.Details(), prompt, pool.logger.requestCounter, n, pool.numLayers,
                  |r.value.pages.items|, r.value.table.entries);
    }
  }

  /**
   * Where request 1 left things, as values: its list `items` is pages 7 down
   * to 8 - m, the free list F is pages 0 .. 7 - m, and the in-use
   * dictionary U holds the list's pages.
   */
  ghost predicate Layout(all: seq<Page>, items: seq<Page>, F: seq<Page>, U: map<nat, Page>, n: nat)
  {
    var m := CeilDiv(n, SimPageSize);
    && 0 < m <= SimPages && |all| == SimPages && (forall j | 0 <= j < |all| :: all[j].id == j)
    && items == PagesOf(all, TakenIds(m)) && F == all[..SimPages - m]
    && (forall id: nat :: id in U <==> SimPages - m <= id < SimPages)
  }

  /**
   * Request 2 in the simulator's terms: after the copy of page 8 - m into
   * page 7 - m, with the prefix pages held twice, the pool is Served and the
   * list is SharedIds(m).
   */
  lemma SecondConcrete(pool: PagePool, list: seq<Page>, items: seq<Page>, F: seq<Page>, Um: map<nat, Page>, n: nat)
    requires Layout(pool.all, items, F, Um, n) && CeilDiv(n, SimPageSize) < SimPages
    requires pool.all[SimPages - CeilDiv(n, SimPageSize)].used == n % SimPageSize + 1
    requires CopiedOnWrite(pool, list, items, F, Um)
    ensures Served(pool, n) && list == PagesOf(pool.all, SharedIds(CeilDiv(n, SimPageSize)))
  {
    var all, m := pool.all, CeilDiv(n, SimPageSize);
    assert list == PagesOf(all, SharedIds(m));
    forall j | SimPages - m < j < SimPages
      ensures all[j].refCount == 2
    {
      assert items[SimPages - 1 - j] == all[j];
    }
  }

  /** The log SecondShared promises, in the simulator's terms. */
  lemma SecondLogged(D0: seq<Details>, D1: seq<Details>, prompt: string, rid: nat, key: int, all: seq<Page>, items: seq<Page>,
                     F: seq<Page>, U: map<nat, Page>, n: nat)
    requires Layout(all, items, F, U, n) && CeilDiv(n, SimPageSize) < SimPages
    requires D1 == D0 + [RequestStart(prompt, rid), PrefixReuse(DecimalString(key), |items|),
                        PageFault(F[|F| - 1].id), CopyOnWrite(items[|items| - 1].id, F[|F| - 1].id), RequestEnd(rid)]
    ensures D1 == D0 + SecondLog(prompt, rid, key, CeilDiv(n, SimPageSize))
  {
  }

  /** What request 2 needs of request 1's state, and its layout as values. */
  lemma TwoReady(pool: PagePool, e: CacheEntry, n: nat)
    requires OneServed(pool, e, n)
    ensures var items, m := e.pages.items, CeilDiv(n, SimPageSize);
      && Layout(pool.all, items, pool.free, pool.used, n)
      && (forall i | 0 <= i < |items| :: items[i].refCount == 1)
      && items[m - 1] == pool.all[SimPages - m]
      && (forall j | 0 <= j < |pool.free| :: pool.free[j] != items[m - 1])
  {
    var all, items, m := pool.all, e.pages.items, CeilDiv(n, SimPageSize);
    forall i | 0 <= i < |items|
      ensures items[i].refCount == 1
    {
      assert items[i] == all[SimPages - 1 - i];
    }
  }

  /**
   * Request 2 of `simulate` as written: the cache hit hands back request 1's
   * list itself, and the copy-on-write into page 7 - m replaces that list's
   * last page. With all 8 pages taken by request 1 there is no page to copy
   * into.
   */
  method RequestTwoShared(pool: PagePool, cache: PrefixCache, e: CacheEntry, ghost n: nat, prompt: string, key: int,
                          rowK: Vec, rowV: Vec) returns (r: Result<CacheEntry>)
    requires PoolValid(pool) && pool.logger != null && pool.logger.Valid()
    requires pool.pageSize == SimPageSize && pool.kind == Instrumented
    requires cache.cache == map[key := e] && OneServed(pool, e, n)
    modifies pool, pool.logger, e.pages, e.table, pool.all`refCount, pool.all`used, pool.all`k, pool.all`v
    ensures PoolValid(pool) && pool.logger.Valid()
    ensures r.Ok? <==> CeilDiv(n, SimPageSize) < SimPages
    ensures r.Err? ==> r.error == RuntimeError(OutOfPagesMessage(Instrumented))
    ensures r.Ok? ==> r.value == e && Served(pool, n) && e.pages.items == PagesOf(pool.all, SharedIds(CeilDiv(n, SimPageSize)))
    ensures r.Ok? ==> pool.logger.requestCounter == old(pool.logger.requestCounter) + 1
    ensures r.Ok? ==>
      pool.logger.Details() == old(pool.logger.Details()) + SecondLog(prompt, pool.logger.requestCounter, key, CeilDiv(n, SimPageSize))
  {
    ghost var all, items, m := pool.all, e.pages.items, CeilDiv(n, SimPageSize);
    ghost var F, Um, D0 := pool.free, pool.used, pool.logger.Details();
    TwoReady(pool, e, n);
    r := SecondShared(pool, cache, e, prompt, key, rowK, rowV);
    if r.Ok? {
      SecondConcrete(pool, e.pages.items, items, F, Um, n);
      SecondLogged(D0, pool.logger.Details(), prompt, pool.logger.requestCounter, key, all, items, F, Um, n);
    }
  }

  /**
   * Request 2 of `simulate` as evidently meant: the same steps on copies of
   * the cached list and table, so that request 1's list stays pages 7 down
   * to 8 - m.
   */
  method RequestTwoCopied(pool: PagePool, cache: PrefixCache, e: CacheEntry, ghost n: nat, prompt: string, key: int,
                          rowK: Vec, rowV: Vec) returns (r: Result<CacheEntry>)
    requires PoolValid(pool) && pool.logger != null && pool.logger.Valid()
    requires pool.pageSize == SimPageSize && pool.kind == Instrumented
    requires cache.cache == map[key := e] && OneServed(pool, e, n)
    modifies pool, pool.logger, pool.all`refCount, pool.all`used, pool.all`k, pool.all`v
    ensures PoolValid(pool) && pool.logger.Valid()
    ensures r.Ok? <==> CeilDiv(n, SimPageSize) < SimPages
    ensures r.Err? ==> r.error == RuntimeError(OutOfPagesMessage(Instrumented))
    ensures r.Ok? ==>
      && fresh(r.value.pages) && fresh(r.value.table) && Served(pool, n)
      && r.value.pages.items == PagesOf(pool.all, SharedIds(CeilDiv(n, SimPageSize)))
      && e.pages.items == PagesOf(pool.all, TakenIds(CeilDiv(n, SimPageSize)))
    ensures r.Ok? ==> pool.logger.requestCounter == old(pool.logger.requestCounter) + 1
    ensures r.Ok? ==>
      pool.logger.Details() == old(pool.logger.Details()) + SecondLog(prompt, pool.logger.requestCounter, key, CeilDiv(n, SimPageSize))
  {
    ghost var all, items, m := pool.all, e.pages.items, CeilDiv(n, SimPageSize);
    ghost var F, Um, D0 := pool.free, pool.used, pool.logger.Details();
    TwoReady(pool, e, n);
    r := SecondCopied(pool, cache, prompt, key, rowK, rowV);
    if r.Ok? {
      SecondConcrete(pool, r.value.pages.items, items, F, Um, n);
      SecondLogged(D0, pool.logger.Details(), prompt, pool.logger.requestCounter, key, all, items, F, Um, n);
    }
  }

  /** An in-use dictionary with the single key k lists k alone. */
  lemma OnlyKey(order: seq<nat>, used: map<nat, Page>, k: nat)
    requires (forall j | 0 <= j < |order| :: order[j] in used) && k in order && DistinctKeys(order)
    requires forall id :: id in used <==> id == k
    ensures order == [k]
  {
  }

  /**
   * The pool after the first cleanup loop of the run as written: the copy,
   * page 7 - m, was held once and went back to the free list; the prefix
   * pages are held once and the old last page 8 - m is still held once.
   */
  ghost predicate HalfReleased(pool: PagePool, n: nat)
    reads pool, pool.all
  {
    var all, m := pool.all, CeilDiv(n, SimPageSize);
    && 0 < m < SimPages && |all| == SimPages
    && pool.free == all[..SimPages - m]
    && (forall id: nat :: id in pool.used <==> SimPages - m <= id < SimPages)
    && (forall j | SimPages - m < j < SimPages :: all[j].refCount == 1)
    && all[SimPages - m].refCount == 1 && all[SimPages - m].used == n % SimPageSize + 1
    && all[SimPages - 1 - m].refCount == 0 && all[SimPages - 1 - m].used == 0
  }

  /** The pages of request 2's list are distinct pool pages, and page 8 - m, which request 1 wrote last, is not among them. */
  lemma SharedListPages(all: seq<Page>, items: seq<Page>, m: nat)
    requires SharedList(all, items, m) && forall j | 0 <= j < |all| :: all[j].id == j
    ensures DistinctIds(items) && OfPool(all, items) && all[SimPages - m] !in items
  {
    assert forall i | 0 <= i < m :: items[i] == all[if i < m - 1 then SimPages - 1 - i else SimPages - 1 - m];
  }

  lemma IdsOfOne(p: Page)
    ensures IdsOf([p]) == {p.id}
  {
    assert [p][0] == p;
  }

  /** Release, with the pages it hands back named in advance, the log stated as details, and one page `q` off the list untouched. */
  method ReleaseKnown(pool: PagePool, items: seq<Page>, ghost refs: seq<int>, ghost ps: seq<Page>, ghost q: Page)
    requires PoolValid(pool) && pool.logger != null && pool.logger.Valid()
    requires DistinctIds(items) && OfPool(pool.all, items) && refs == RefCounts(items) && q !in items
    requires Dropped(items, refs, pool.used.Keys) == ps
    modifies pool, pool.logger, items`refCount, items`used
    ensures PoolValid(pool) && pool.logger.Valid()
    ensures forall i | 0 <= i < |items| :: items[i].refCount == refs[i] - 1
    ensures forall i | 0 <= i < |items| :: refs[i] == 1 && items[i].id in old(pool.used) ==> items[i].used == 0
    ensures pool.free == old(pool.free) + ps && pool.used == old(pool.used) - IdsOf(ps)
    ensures pool.usedOrder == WithoutAll(old(pool.usedOrder), ps)
    ensures pool.logger.requestCounter == old(pool.logger.requestCounter)
    ensures pool.logger.Details() == old(pool.logger.Details()) + FreedLog(ps)
    ensures q.refCount == old(q.refCount) && q.used == old(q.used)
  {
    ghost var E0 := pool.logger.events;
    Release(pool, items, refs);
    ExtendsDetails(E0, pool.logger.events, pool.logger.currentRequestId, FreedLog(ps));
  }

  /** Request 2's list as a sequence of pool pages: the m - 1 shared pages, then the copy. */
  ghost predicate SharedList(all: seq<Page>, items: seq<Page>, m: nat)
  {
    && 0 < m < SimPages && |all| == SimPages && |items| == m
    && (forall i | 0 <= i < m - 1 :: items[i] == all[SimPages - 1 - i])
    && items[m - 1] == all[SimPages - 1 - m]
  }

  /** Which pages a release of request 2's list hands back, on the state Served describes. */
  lemma FirstPassDrops(all: seq<Page>, items: seq<Page>, refs: seq<int>, U: set<nat>, n: nat)
    requires var m := CeilDiv(n, SimPageSize);
      && 0 < m < SimPages && |all| == SimPages && (forall j | 0 <= j < |all| :: all[j].id == j)
      && SharedList(all, items, m) && |refs| == m
      && (forall i | 0 <= i < m - 1 :: refs[i] == 2) && refs[m - 1] == 1 && SimPages - 1 - m in U
    ensures Dropped(items, refs, U) == [all[SimPages - 1 - CeilDiv(n, SimPageSize)]]
  {
    DroppedOnlyLast(items, refs, U);
  }

  /** The first cleanup loop of the run as written, read off Release's promise. */
  lemma FirstPassConcrete(pool: PagePool, items: seq<Page>, refs: seq<int>, F: seq<Page>, Um: map<nat, Page>, n: nat)
    requires var all, m := pool.all, CeilDiv(n, SimPageSize);
      && 0 < m < SimPages && |all| == SimPages && (forall j | 0 <= j < |all| :: all[j].id == j)
      && SharedList(all, items, m) && |refs| == m
      && (forall i | 0 <= i < m - 1 :: refs[i] == 2) && refs[m - 1] == 1
      && F == all[..SimPages - 1 - m] && (forall id: nat :: id in Um <==> SimPages - 1 - m <= id < SimPages)
    requires forall i | 0 <= i < |items| :: items[i].refCount == refs[i] - 1
    requires forall i | 0 <= i < |items| :: refs[i] == 1 && items[i].id in Um ==> items[i].used == 0
    requires var all, m := pool.all, CeilDiv(n, SimPageSize);
      && pool.free == F + [all[SimPages - 1 - m]] && pool.used == Um - IdsOf([all[SimPages - 1 - m]])
      && all[SimPages - m].refCount == 1 && all[SimPages - m].used == n % SimPageSize + 1
    ensures HalfReleased(pool, n)
  {
    var all, m := pool.all, CeilDiv(n, SimPageSize);
    forall j | SimPages - m < j < SimPages
      ensures all[j].refCount == 1
    {
      assert items[SimPages - 1 - j] == all[j];
    }
    assert items[m - 1] == all[SimPages - 1 - m];
    assert F + [all[SimPages - 1 - m]] == all[..SimPages - m];
  }

  /** Everything the first loop of the run as written needs to know before it runs. */
  lemma FirstPassReady(pool: PagePool, items: seq<Page>, n: nat)
    requires Served(pool, n) && (forall j | 0 <= j < |pool.all| :: pool.all[j].id == j)
    requires SharedList(pool.all, items, CeilDiv(n, SimPageSize))
    ensures var all, m, refs := pool.all, CeilDiv(n, SimPageSize), RefCounts(items);
      && (forall i | 0 <= i < m - 1 :: refs[i] == 2) && refs[m - 1] == 1
      && Dropped(items, refs, pool.used.Keys) == [all[SimPages - 1 - m]]
      && FreedLog([all[SimPages - 1 - m]]) == [PageFreed(SimPages - 1 - m)]
      && DistinctIds(items) && OfPool(all, items) && all[SimPages - m] !in items
  {
    var all, m, refs := pool.all, CeilDiv(n, SimPageSize), RefCounts(items);
    assert forall i | 0 <= i < m - 1 :: refs[i] == 2;
    FirstPassDrops(all, items, refs, pool.used.Keys, n);
    SharedListPages(all, items, m);
  }

  /** The first cleanup loop of the run as written, over request 1's list, which request 2 has changed. */
  method FirstPassShared(pool: PagePool, ghost n: nat, items: seq<Page>)
    requires PoolValid(pool) && pool.logger != null && pool.logger.Valid()
    requires Served(pool, n) && (forall j | 0 <= j < |pool.all| :: pool.all[j].id == j)
    requires SharedList(pool.all, items, CeilDiv(n, SimPageSize))
    modifies pool, pool.logger, pool.all`refCount, pool.all`used
    ensures PoolValid(pool) && pool.logger.Valid() && HalfReleased(pool, n)
    ensures pool.logger.requestCounter == old(pool.logger.requestCounter)
    ensures pool.logger.Details() == old(pool.logger.Details()) + [PageFreed(SimPages - 1 - CeilDiv(n, SimPageSize))]
  {
    ghost var all, m := pool.all, CeilDiv(n, SimPageSize);
    ghost var refs, Um, F := RefCounts(items), pool.used, pool.free;
    FirstPassReady(pool, items, n);
    ReleaseKnown(pool, items, refs, [all[SimPages - 1 - m]], all[SimPages - m]);
    FirstPassConcrete(pool, items, refs, F, Um, n);
  }

  /** The page_freed details for the given ids, in order. */
  function FreedIds(ids: seq<nat>): (ds: seq<Details>)
    ensures |ds| == |ids| && forall k | 0 <= k < |ids| :: ds[k] == PageFreed(ids[k])
  {
    seq(|ids|, k requires 0 <= k < |ids| => PageFreed(ids[k]))
  }

  /**
   * The pool after both cleanup loops of the run as written: the m - 1 shared
   * pages went back to the free list after the copy, page 7 - m was released
   * a second time and holds -1 references, and page 8 - m, which request 1
   * wrote last and request 2 dropped from the list, stays in use for good.
   */
  ghost predicate Leaked(pool: PagePool, n: nat)
    reads pool, pool.all
  {
    var all, m := pool.all, CeilDiv(n, SimPageSize);
    && 0 < m < SimPages && |all| == SimPages
    && pool.free == all[..SimPages - m] + PagesOf(all, TakenIds(m - 1))
    && pool.used == map[SimPages - m := all[SimPages - m]] && pool.usedOrder == [SimPages - m]
    && (forall j | SimPages - m < j < SimPages :: all[j].refCount == 0 && all[j].used == 0)
    && all[SimPages - m].refCount == 1 && all[SimPages - m].used == n % SimPageSize + 1
    && all[SimPages - 1 - m].refCount == -1 && all[SimPages - 1 - m].used == 0
  }

  /**
   * What the second loop of the run as written starts from, on values: the
   * list is request 2's, the shared pages are held once and in use, the copy
   * is held by nobody, and the free list is pages 0 .. 7 - m.
   */
  ghost predicate SecondStart(all: seq<Page>, items: seq<Page>, refs: seq<int>, F: seq<Page>, Um: map<nat, Page>, n: nat)
  {
    var m := CeilDiv(n, SimPageSize);
    && SharedList(all, items, m) && |refs| == m && (forall j | 0 <= j < |all| :: all[j].id == j)
    && (forall i | 0 <= i < m - 1 :: refs[i] == 1) && refs[m - 1] == 0
    && F == all[..SimPages - m] && (forall id: nat :: id in Um <==> SimPages - m <= id < SimPages)
  }

  /** In the second loop all but the copy go back, in list order. */
  lemma SecondPassDrops(all: seq<Page>, items: seq<Page>, refs: seq<int>, F: seq<Page>, Um: map<nat, Page>, n: nat)
    requires SecondStart(all, items, refs, F, Um, n)
    ensures var m := CeilDiv(n, SimPageSize);
      && Dropped(items, refs, Um.Keys) == PagesOf(all, TakenIds(m - 1))
      && FreedLog(PagesOf(all, TakenIds(m - 1))) == FreedIds(TakenIds(m - 1))
  {
    var m := CeilDiv(n, SimPageSize);
    assert forall i | 0 <= i < m - 1 :: items[i].id == SimPages - 1 - i;
    DroppedAllButLast(items, refs, Um.Keys);
    assert items[..m - 1] == PagesOf(all, TakenIds(m - 1));
  }

  /** The second cleanup loop of the run as written, read off Release's promise. */
  lemma SecondPassConcrete(pool: PagePool, items: seq<Page>, refs: seq<int>, F: seq<Page>, Um: map<nat, Page>, n: nat)
    requires PoolValid(pool) && SecondStart(pool.all, items, refs, F, Um, n)
    requires forall i | 0 <= i < |items| :: items[i].refCount == refs[i] - 1
    requires forall i | 0 <= i < |items| :: refs[i] == 1 && items[i].id in Um ==> items[i].used == 0
    requires var all, m := pool.all, CeilDiv(n, SimPageSize);
      && pool.free == F + PagesOf(all, TakenIds(m - 1)) && pool.used == Um - IdsOf(PagesOf(all, TakenIds(m - 1)))
      && all[SimPages - m].refCount == 1 && all[SimPages - m].used == n % SimPageSize + 1
    ensures Leaked(pool, n)
  {
    var all, m := pool.all, CeilDiv(n, SimPageSize);
    var ps := PagesOf(all, TakenIds(m - 1));
    forall j | SimPages - m < j < SimPages
      ensures all[j].refCount == 0 && all[j].used == 0
    {
      assert items[SimPages - 1 - j] == all[j];
    }
    assert items[m - 1] == all[SimPages - 1 - m] == pool.free[SimPages - 1 - m];
    var k := SimPages - m;
    forall id: nat
      ensures id in pool.used <==> id == k
    {
      if id in IdsOf(ps) {
        var j :| 0 <= j < |ps| && ps[j].id == id;
      }
      if SimPages - m < id < SimPages {
        assert ps[SimPages - 1 - id].id == id;
      }
    }
    assert pool.used == map[k := all[k]];
    OnlyKey(pool.usedOrder, pool.used, k);
  }

  /** The second cleanup loop of the run as written, over the very same list. */
  method SecondPassShared(pool: PagePool, ghost n: nat, items: seq<Page>)
    requires PoolValid(pool) && pool.logger != null && pool.logger.Valid()
    requires HalfReleased(pool, n) && (forall j | 0 <= j < |pool.all| :: pool.all[j].id == j)
    requires SharedList(pool.all, items, CeilDiv(n, SimPageSize))
    modifies pool, pool.logger, pool.all`refCount, pool.all`used
    ensures PoolValid(pool) && pool.logger.Valid() && Leaked(pool, n)
    ensures pool.logger.requestCounter == old(pool.logger.requestCounter)
    ensures pool.logger.Details() == old(pool.logger.Details()) + FreedIds(TakenIds(CeilDiv(n, SimPageSize) - 1))
  {
    ghost var all, m := pool.all, CeilDiv(n, SimPageSize);
    ghost var refs, Um, F := RefCounts(items), pool.used, pool.free;
    assert forall i | 0 <= i < m - 1 :: refs[i] == 1;
    assert SecondStart(all, items, refs, F, Um, n);
    SecondPassDrops(all, items, refs, F, Um, n);
    SharedListPages(all, items, m);
    ReleaseKnown(pool, items, refs, PagesOf(all, TakenIds(m - 1)), all[SimPages - m]);
    SecondPassConcrete(pool, items, refs, F, Um, n);
  }

  /** Request 1's list as a sequence of pool pages: pages 7, 6, ... down to 8 - m. */
  ghost predicate TakenList(all: seq<Page>, items: seq<Page>, m: nat)
  {
    && 0 < m <= SimPages && |all| == SimPages && |items| == m
    && forall i | 0 <= i < m :: items[i] == all[SimPages - 1 - i]
  }

  /**
   * The pool after the first cleanup loop when request 2 ran on a copy:
   * request 1's last page, 8 - m, was held by that list alone and went back;
   * the shared pages are held once more, by the copy, and the copy's own page
   * 7 - m is untouched.
   */
  ghost predicate CopyHalfReleased(pool: PagePool, n: nat)
    reads pool, pool.all
  {
    var all, m := pool.all, CeilDiv(n, SimPageSize);
    && 0 < m < SimPages && |all| == SimPages
    && pool.free == all[..SimPages - 1 - m] + [all[SimPages - m]]
    && (forall id: nat :: id in pool.used <==> id == SimPages - 1 - m || SimPages - m < id < SimPages)
    && (forall j | SimPages - m < j < SimPages :: all[j].refCount == 1)
    && all[SimPages - m].refCount == 0 && all[SimPages - m].used == 0
    && all[SimPages - 1 - m].refCount == 1
  }

  /** What the first loop of the corrected run starts from, on values. */
  ghost predicate CopyFirstStart(all: seq<Page>, items: seq<Page>, refs: seq<int>, F: seq<Page>, Um: map<nat, Page>, n: nat)
  {
    var m := CeilDiv(n, SimPageSize);
    && m < SimPages && TakenList(all, items, m) && |refs| == m && (forall j | 0 <= j < |all| :: all[j].id == j)
    && (forall i | 0 <= i < m - 1 :: refs[i] == 2) && refs[m - 1] == 1
    && F == all[..SimPages - 1 - m] && (forall id: nat :: id in Um <==> SimPages - 1 - m <= id < SimPages)
  }

  /** Request 1's pages are distinct pool pages, and the copy, page 7 - m, is not among them. */
  lemma TakenListPages(all: seq<Page>, items: seq<Page>, m: nat)
    requires TakenList(all, items, m) && m < SimPages && forall j | 0 <= j < |all| :: all[j].id == j
    ensures DistinctIds(items) && OfPool(all, items) && all[SimPages - 1 - m] !in items
  {
  }

  /** In the corrected first loop only request 1's last page goes back. */
  lemma FirstCopiedDrops(all: seq<Page>, items: seq<Page>, refs: seq<int>, F: seq<Page>, Um: map<nat, Page>, n: nat)
    requires CopyFirstStart(all, items, refs, F, Um, n)
    ensures Dropped(items, refs, Um.Keys) == [all[SimPages - CeilDiv(n, SimPageSize)]]
    ensures FreedLog([all[SimPages - CeilDiv(n, SimPageSize)]]) == [PageFreed(SimPages - CeilDiv(n, SimPageSize))]
  {
    DroppedOnlyLast(items, refs, Um.Keys);
  }

  /** The corrected first loop, read off Release's promise. */
  lemma FirstCopiedConcrete(pool: PagePool, items: seq<Page>, refs: seq<int>, F: seq<Page>, Um: map<nat, Page>, n: nat)
    requires CopyFirstStart(pool.all, items, refs, F, Um, n)
    requires forall i | 0 <= i < |items| :: items[i].refCount == refs[i] - 1
    requires forall i | 0 <= i < |items| :: refs[i] == 1 && items[i].id in Um ==> items[i].used == 0
    requires var all, m := pool.all, CeilDiv(n, SimPageSize);
      && pool.free == F + [all[SimPages - m]] && pool.used == Um - IdsOf([all[SimPages - m]])
      && all[SimPages - 1 - m].refCount == 1
    ensures CopyHalfReleased(pool, n)
  {
    var all, m := pool.all, CeilDiv(n, SimPageSize);
    assert items[m - 1] == all[SimPages - m];
    IdsOfOne(all[SimPages - m]);
    forall j | SimPages - m < j < SimPages
      ensures all[j].refCount == 1
    {
      assert items[SimPages - 1 - j] == all[j];
    }
  }

  /** Everything the corrected first loop needs to know before it runs. */
  lemma FirstCopiedReady(pool: PagePool, items: seq<Page>, n: nat)
    requires Served(pool, n) && (forall j | 0 <= j < |pool.all| :: pool.all[j].id == j)
    requires TakenList(pool.all, items, CeilDiv(n, SimPageSize))
    ensures var all, m, refs := pool.all, CeilDiv(n, SimPageSize), RefCounts(items);
      && CopyFirstStart(all, items, refs, pool.free, pool.used, n)
      && Dropped(items, refs, pool.used.Keys) == [all[SimPages - m]]
      && FreedLog([all[SimPages - m]]) == [PageFreed(SimPages - m)]
      && DistinctIds(items) && OfPool(all, items) && all[SimPages - 1 - m] !in items
  {
    var all, m, refs := pool.all, CeilDiv(n, SimPageSize), RefCounts(items);
    assert forall i | 0 <= i < m - 1 :: refs[i] == 2;
    FirstCopiedDrops(all, items, refs, pool.free, pool.used, n);
    TakenListPages(all, items, m);
  }

  /** The first cleanup loop of the corrected run, over request 1's own list. */
  method FirstPassCopied(pool: PagePool, ghost n: nat, items: seq<Page>)
    requires PoolValid(pool) && pool.logger != null && pool.logger.Valid()
    requires Served(pool, n) && (forall j | 0 <= j < |pool.all| :: pool.all[j].id == j)
    requires TakenList(pool.all, items, CeilDiv(n, SimPageSize))
    modifies pool, pool.logger, pool.all`refCount, pool.all`used
    ensures PoolValid(pool) && pool.logger.Valid() && CopyHalfReleased(pool, n)
    ensures pool.logger.requestCounter == old(pool.logger.requestCounter)
    ensures pool.logger.Details() == old(pool.logger.Details()) + [PageFreed(SimPages - CeilDiv(n, SimPageSize))]
  {
    ghost var all, m := pool.all, CeilDiv(n, SimPageSize);
    ghost var refs, Um, F := RefCounts(items), pool.used, pool.free;
    FirstCopiedReady(pool, items, n);
    ReleaseKnown(pool, items, refs, [all[SimPages - m]], all[SimPages - 1 - m]);
    FirstCopiedConcrete(pool, items, refs, F, Um, n);
  }

  /** The pool after both cleanup loops of the corrected run: pages 7 - m .. 7 are all back, clean and unreferenced. */
  ghost predicate AllReleased(pool: PagePool, n: nat)
    reads pool, pool.all
  {
    var all, m := pool.all, CeilDiv(n, SimPageSize);
    && 0 < m < SimPages && |all| == SimPages
    && pool.free == all[..SimPages - 1 - m] + [all[SimPages - m]] + PagesOf(all, SharedIds(m))
    && pool.used == map[] && pool.usedOrder == []
    && (forall j | SimPages - 1 - m <= j < SimPages :: all[j].refCount == 0 && all[j].used == 0)
  }

  /** What the second loop of the corrected run starts from, on values. */
  ghost predicate CopySecondStart(all: seq<Page>, items: seq<Page>, refs: seq<int>, F: seq<Page>, Um: map<nat, Page>, n: nat)
  {
    var m := CeilDiv(n, SimPageSize);
    && SharedList(all, items, m) && |refs| == m && (forall j | 0 <= j < |all| :: all[j].id == j)
    && (forall i | 0 <= i < m :: refs[i] == 1)
    && F == all[..SimPages - 1 - m] + [all[SimPages - m]]
    && (forall id: nat :: id in Um <==> id == SimPages - 1 - m || SimPages - m < id < SimPages)
  }

  /** In the corrected second loop the whole copy goes back. */
  lemma SecondCopiedDrops(all: seq<Page>, items: seq<Page>, refs: seq<int>, F: seq<Page>, Um: map<nat, Page>, n: nat)
    requires CopySecondStart(all, items, refs, F, Um, n)
    ensures Dropped(items, refs, Um.Keys) == PagesOf(all, SharedIds(CeilDiv(n, SimPageSize)))
    ensures FreedLog(PagesOf(all, SharedIds(CeilDiv(n, SimPageSize)))) == FreedIds(SharedIds(CeilDiv(n, SimPageSize)))
  {
    var m := CeilDiv(n, SimPageSize);
    var ids := SharedIds(m);
    assert forall i | 0 <= i < m :: ids[i] == if i < m - 1 then SimPages - 1 - i else SimPages - 1 - m;
    assert forall i | 0 <= i < m :: items[i] == all[ids[i]] && items[i].id == ids[i];
    DroppedAll(items, refs, Um.Keys);
    assert items == PagesOf(all, ids);
  }

  /** The corrected second loop, read off Release's promise. */
  lemma SecondCopiedConcrete(pool: PagePool, items: seq<Page>, refs: seq<int>, F: seq<Page>, Um: map<nat, Page>, n: nat)
    requires PoolValid(pool) && CopySecondStart(pool.all, items, refs, F, Um, n)
    requires forall i | 0 <= i < |items| :: items[i].refCount == refs[i] - 1
    requires forall i | 0 <= i < |items| :: refs[i] == 1 && items[i].id in Um ==> items[i].used == 0
    requires var all, m := pool.all, CeilDiv(n, SimPageSize);
      && pool.free == F + PagesOf(all, SharedIds(m)) && pool.used == Um - IdsOf(PagesOf(all, SharedIds(m)))
      && all[SimPages - m].refCount == 0 && all[SimPages - m].used == 0
    ensures AllReleased(pool, n)
  {
    var all, m := pool.all, CeilDiv(n, SimPageSize);
    var ps := PagesOf(all, SharedIds(m));
    forall j | SimPages - m < j < SimPages
      ensures all[j].refCount == 0 && all[j].used == 0
    {
      assert items[SimPages - 1 - j] == all[j];
    }
    assert items[m - 1] == all[SimPages - 1 - m];
    forall id: nat | id in Um
      ensures id in IdsOf(ps)
    {
      if id == SimPages - 1 - m {
        assert ps[m - 1].id == id;
      } else {
        assert ps[SimPages - 1 - id].id == id;
      }
    }
    assert pool.used == map[];
  }

  /** Everything the corrected second loop needs to know before it runs. */
  lemma SecondCopiedReady(pool: PagePool, items: seq<Page>, n: nat)
    requires CopyHalfReleased(pool, n) && (forall j | 0 <= j < |pool.all| :: pool.all[j].id == j)
    requires SharedList(pool.all, items, CeilDiv(n, SimPageSize))
    ensures var all, m, refs := pool.all, CeilDiv(n, SimPageSize), RefCounts(items);
      && CopySecondStart(all, items, refs, pool.free, pool.used, n)
      && Dropped(items, refs, pool.used.Keys) == PagesOf(all, SharedIds(m))
      && FreedLog(PagesOf(all, SharedIds(m))) == FreedIds(SharedIds(m))
      && DistinctIds(items) && OfPool(all, items) && all[SimPages - m] !in items
  {
    var all, m, refs := pool.all, CeilDiv(n, SimPageSize), RefCounts(items);
    assert forall i | 0 <= i < m - 1 :: items[i] == all[SimPages - 1 - i] && refs[i] == 1;
    SecondCopiedDrops(all, items, refs, pool.free, pool.used, n);
    SharedListPages(all, items, m);
  }

  /** The second cleanup loop of the corrected run, over the copy. */
  method SecondPassCopied(pool: PagePool, ghost n: nat, items: seq<Page>)
    requires PoolValid(pool) && pool.logger != null && pool.logger.Valid()
    requires CopyHalfReleased(pool, n) && (forall j | 0 <= j < |pool.all| :: pool.all[j].id == j)
    requires SharedList(pool.all, items, CeilDiv(n, SimPageSize))
    modifies pool, pool.logger, pool.all`refCount, pool.all`used
    ensures PoolValid(pool) && pool.logger.Valid() && AllReleased(pool, n)
    ensures pool.logger.requestCounter == old(pool.logger.requestCounter)
    ensures pool.logger.Details() == old(pool.logger.Details()) + FreedIds(SharedIds(CeilDiv(n, SimPageSize)))
  {
    ghost var all, m := pool.all, CeilDiv(n, SimPageSize);
    ghost var refs, Um, F := RefCounts(items), pool.used, pool.free;
    SecondCopiedReady(pool, items, n);
    ReleaseKnown(pool, items, refs, PagesOf(all, SharedIds(m)), all[SimPages - m]);
    SecondCopiedConcrete(pool, items, refs, F, Um, n);
  }

  lemma SharedListOf(all: seq<Page>, items: seq<Page>, m: nat)
    requires 0 < m < SimPages && |all| == SimPages && items == PagesOf(all, SharedIds(m))
    ensures SharedList(all, items, m)
  {
    assert forall i | 0 <= i < m - 1 :: SharedIds(m)[i] == SimPages - 1 - i;
  }

  lemma TakenListOf(all: seq<Page>, items: seq<Page>, m: nat)
    requires 0 < m <= SimPages && |all| == SimPages && items == PagesOf(all, TakenIds(m))
    ensures TakenList(all, items, m)
  {
  }

  /** What requests 1 and 2 log, when the request counter stood at rid before them. */
  function RunHead(prompt: string, rid: nat, key: int, n: nat, layers: nat): seq<Details>
    requires 0 < CeilDiv(n, SimPageSize) < SimPages && n <= SimPages * SimPageSize
  {
    FirstLog(prompt, rid + 1, n, layers) + SecondLog(prompt, rid + 2, key, CeilDiv(n, SimPageSize))
  }

  /** The log of a whole run after the logger was cleared: request 1, request 2, then what cleanup freed. */
  function RunLog(prompt: string, rid: nat, key: int, n: nat, layers: nat, freed: seq<Details>): seq<Details>
    requires 0 < CeilDiv(n, SimPageSize) < SimPages && n <= SimPages * SimPageSize
  {
    RunHead(prompt, rid, key, n, layers) + freed
  }

  /** What cleanup frees in the run as written: the copy, then request 1's pages but the last. */
  function LeakedFrees(m: nat): seq<Details>
    requires 0 < m < SimPages
  {
    [PageFreed(SimPages - 1 - m)] + FreedIds(TakenIds(m - 1))
  }

  /** What cleanup frees in the corrected run: request 1's last page, then the whole copy list. */
  function CleanFrees(m: nat): seq<Details>
    requires 0 < m < SimPages
  {
    [PageFreed(SimPages - m)] + FreedIds(SharedIds(m))
  }

  /** The log of requests 1 and 2, put together from what each promises. */
  lemma HeadLogged(D0: seq<Details>, D1: seq<Details>, D2: seq<Details>, prompt: string, rc: nat, rc1: nat, rc2: nat,
                   key: int, n: nat, layers: nat)
    requires 0 < CeilDiv(n, SimPageSize) < SimPages && n <= SimPages * SimPageSize
    requires rc1 == rc + 1 && rc2 == rc1 + 1
    requires D1 == D0 + FirstLog(prompt, rc1, n, layers) && D2 == D1 + SecondLog(prompt, rc2, key, CeilDiv(n, SimPageSize))
    ensures D2 == D0 + RunHead(prompt, rc, key, n, layers)
  {
  }

  /** Requests 1 and 2 of the run as written, on a fresh pool and an empty cache. */
  method ServeShared(pool: PagePool, cache: PrefixCache, prompt: string, key: int, n: nat, fwdK: Forward, fwdV: Forward,
                     rowK1: Vec, rowV1: Vec, rowK2: Vec, rowV2: Vec) returns (r: Result<CacheEntry>)
    requires FreshPool(pool) && pool.logger.Valid() && cache.cache == map[]
    requires forall j | 0 <= j < |pool.free| :: pool.free[j] == pool.all[j]
    modifies pool, pool.logger, pool.all`refCount, pool.all`used, pool.all`k, pool.all`v, cache
    ensures PoolValid(pool) && pool.logger.Valid()
    ensures r.Err? <==> !Serves(n, SimPageSize, SimPages) || CeilDiv(n, SimPageSize) == SimPages
    ensures r.Err? ==> r.error == if !Serves(n, SimPageSize, SimPages) then FirstError(n, Instrumented, SimPageSize, SimPages)
                                  else RuntimeError(OutOfPagesMessage(Instrumented))
    ensures r.Ok? ==> var m := CeilDiv(n, SimPageSize);
      && 0 < m < SimPages && n <= SimPages * SimPageSize && Served(pool, n)
      && (forall j | 0 <= j < |pool.all| :: pool.all[j].id == j)
      && SharedList(pool.all, r.value.pages.items, m)
      && pool.logger.requestCounter == old(pool.logger.requestCounter) + 2
      && pool.logger.Details() == old(pool.logger.Details()) + RunHead(prompt, old(pool.logger.requestCounter), key, n, pool.numLayers)
  {
    ghost var D0, rc := pool.logger.Details(), pool.logger.requestCounter;
    var r1 := RequestOne(pool, cache, prompt, key, n, fwdK, fwdV, rowK1, rowV1);
    if r1.Err? {
      return Err(r1.error);
    }
    ghost var D1, rc1 := pool.logger.Details(), pool.logger.requestCounter;
    r := RequestTwoShared(pool, cache, r1.value, n, prompt, key, rowK2, rowV2);
    if r.Ok? {
      SharedListOf(pool.all, r.value.pages.items, CeilDiv(n, SimPageSize));
      HeadLogged(D0, D1, pool.logger.Details(), prompt, rc, rc1, pool.logger.requestCounter, key, n, pool.numLayers);
    }
  }

  /** Both cleanup loops of the run as written, each over the one list both requests used. */
  method CleanShared(pool: PagePool, ghost n: nat, items: seq<Page>)
    requires PoolValid(pool) && pool.logger != null && pool.logger.Valid()
    requires Served(pool, n) && (forall j | 0 <= j < |pool.all| :: pool.all[j].id == j)
    requires SharedList(pool.all, items, CeilDiv(n, SimPageSize))
    modifies pool, pool.logger, pool.all`refCount, pool.all`used
    ensures PoolValid(pool) && pool.logger.Valid() && Leaked(pool, n)
    ensures pool.logger.requestCounter == old(pool.logger.requestCounter)
    ensures pool.logger.Details() == old(pool.logger.Details()) + LeakedFrees(CeilDiv(n, SimPageSize))
  {
    ghost var D0, m := pool.logger.Details(), CeilDiv(n, SimPageSize);
    FirstPassShared(pool, n, items);
    assert SharedList(pool.all, items, m);
    SecondPassShared(pool, n, items);
    Assoc3(D0, [PageFreed(SimPages - 1 - m)], FreedIds(TakenIds(m - 1)));
  }


  /** Requests 1 and 2 of the corrected run: request 2 works on a copy of the cached list and table. */
  method ServeCopied(pool: PagePool, cache: PrefixCache, prompt: string, key: int, n: nat, fwdK: Forward, fwdV: Forward,
                     rowK1: Vec, rowV1: Vec, rowK2: Vec, rowV2: Vec) returns (r: Result<(seq<Page>, seq<Page>)>)
    requires FreshPool(pool) && pool.logger.Valid() && cache.cache == map[]
    requires forall j | 0 <= j < |pool.free| :: pool.free[j] == pool.all[j]
    modifies pool, pool.logger, pool.all`refCount, pool.all`used, pool.all`k, pool.all`v, cache
    ensures PoolValid(pool) && pool.logger.Valid()
    ensures r.Err? <==> !Serves(n, SimPageSize, SimPages) || CeilDiv(n, SimPageSize) == SimPages
    ensures r.Err? ==> r.error == if !Serves(n, SimPageSize, SimPages) then FirstError(n, Instrumented, SimPageSize, SimPages)
                                  else RuntimeError(OutOfPagesMessage(Instrumented))
    ensures r.Ok? ==> var m := CeilDiv(n, SimPageSize);
      && 0 < m < SimPages && n <= SimPages * SimPageSize && Served(pool, n)
      && (forall j | 0 <= j < |pool.all| :: pool.all[j].id == j)
      && TakenList(pool.all, r.value.0, m) && SharedList(pool.all, r.value.1, m)
      && pool.logger.requestCounter == old(pool.logger.requestCounter) + 2
      && pool.logger.Details() == old(pool.logger.Details()) + RunHead(prompt, old(pool.logger.requestCounter), key, n, pool.numLayers)
  {
    ghost var D0, rc := pool.logger.Details(), pool.logger.requestCounter;
    var r1 := RequestOne(pool, cache, prompt, key, n, fwdK, fwdV, rowK1, rowV1);
    if r1.Err? {
      return Err(r1.error);
    }
    ghost var D1, rc1 := pool.logger.Details(), pool.logger.requestCounter;
    var r2 := RequestTwoCopied(pool, cache, r1.value, n, prompt, key, rowK2, rowV2);
    if r2.Err? {
      return Err(r2.error);
    }
    ghost var m := CeilDiv(n, SimPageSize);
    HeadLogged(D0, D1, pool.logger.Details(), prompt, rc, rc1, pool.logger.requestCounter, key, n, pool.numLayers);
    TakenListOf(pool.all, r1.value.pages.items, m);
    SharedListOf(pool.all, r2.value.pages.items, m);
    r := Ok((r1.value.pages.items, r2.value.pages.items));
  }

  /** Both cleanup loops of the corrected run: request 1's own list, then the copy. */
  method CleanCopied(pool: PagePool, ghost n: nat, items: seq<Page>, copy: seq<Page>)
    requires PoolValid(pool) && pool.logger != null && pool.logger.Valid()
    requires Served(pool, n) && (forall j | 0 <= j < |pool.all| :: pool.all[j].id == j)
    requires TakenList(pool.all, items, CeilDiv(n, SimPageSize)) && SharedList(pool.all, copy, CeilDiv(n, SimPageSize))
    modifies pool, pool.logger, pool.all`refCount, pool.all`used
    ensures PoolValid(pool) && pool.logger.Valid() && AllReleased(pool, n)
    ensures pool.logger.requestCounter == old(pool.logger.requestCounter)
    ensures pool.logger.Details() == old(pool.logger.Details()) + CleanFrees(CeilDiv(n, SimPageSize))
  {
    ghost var D0, m := pool.logger.Details(), CeilDiv(n, SimPageSize);
    FirstPassCopied(pool, n, items);
    assert SharedList(pool.all, copy, m);
    SecondPassCopied(pool, n, copy);
    Assoc3(D0, [PageFreed(SimPages - m)], FreedIds(SharedIds(m)));
  }

  /** The details of exported events, in order. */
  function EventDetails(es: seq<EventDict>): (ds: seq<Details>)
    ensures |ds| == |es| && forall i | 0 <= i < |es| :: ds[i] == es[i].details
  {
    seq(|es|, i requires 0 <= i < |es| => es[i].details)
  }

  /** A page that request 1 never took: still free, empty and full-sized, reported with its own id. */
  predicate Untouched(st: PageState, j: nat)
  {
    st.pageId == j && st.usedSlots == 0 && st.totalSlots == SimPageSize && st.isFreed
  }

  /**
   * The page states the run as written reports: page 8 - m, which request 1
   * wrote last, is still in use with one reference; the copy 7 - m is free
   * with ref count -1; the shared pages are free with none.
   */
  predicate LeakedStates(st: seq<PageState>, n: nat)
    requires 0 < CeilDiv(n, SimPageSize) < SimPages
  {
    var m := CeilDiv(n, SimPageSize);
    && |st| == SimPages
    && (forall j | 0 <= j < SimPages - 1 - m :: Untouched(st[j], j))
    && st[SimPages - 1 - m] == PageState(SimPages - 1 - m, 0, SimPageSize, -1, true)
    && (forall j | SimPages - m <= j < SimPages - 1 :: st[j] == PageState(2 * SimPages - 1 - m - j, 0, SimPageSize, 0, true))
    && st[SimPages - 1] == PageState(SimPages - m, n % SimPageSize + 1, SimPageSize, 1, false)
  }

  /**
   * The page states the corrected run reports: every page is free; the m + 1
   * pages the two requests took are empty and unreferenced, request 1's last
   * page first, then the copy list in order.
   */
  predicate CleanStates(st: seq<PageState>, n: nat)
    requires 0 < CeilDiv(n, SimPageSize) < SimPages
  {
    var m := CeilDiv(n, SimPageSize);
    && |st| == SimPages
    && (forall j | 0 <= j < SimPages - 1 - m :: Untouched(st[j], j))
    && st[SimPages - 1 - m] == PageState(SimPages - m, 0, SimPageSize, 0, true)
    && (forall j | SimPages - m <= j < SimPages :: st[j] == PageState(SharedIds(m)[j - (SimPages - m)], 0, SimPageSize, 0, true))
  }

  /** The pool's page states after the run as written. */
  lemma LeakedPageStates(pool: PagePool, n: nat)
    requires PoolValid(pool) && Leaked(pool, n) && pool.pageSize == SimPageSize
    ensures LeakedStates(pool.PageStates(), n)
  {
    var all, m, st := pool.all, CeilDiv(n, SimPageSize), pool.PageStates();
    assert pool.free[SimPages - 1 - m] == all[SimPages - 1 - m];
    forall j | SimPages - m <= j < SimPages - 1
      ensures pool.free[j] == all[2 * SimPages - 1 - m - j]
    {
      assert pool.free[j] == PagesOf(all, TakenIds(m - 1))[j - (SimPages - m)];
    }
  }

  /** The pool's page states after the corrected run. */
  lemma CleanPageStates(pool: PagePool, n: nat)
    requires PoolValid(pool) && AllReleased(pool, n) && pool.pageSize == SimPageSize
    ensures CleanStates(pool.PageStates(), n)
  {
    var all, m, st := pool.all, CeilDiv(n, SimPageSize), pool.PageStates();
    assert pool.free[SimPages - 1 - m] == all[SimPages - m];
    forall j | SimPages - m <= j < SimPages
      ensures pool.free[j] == all[SharedIds(m)[j - (SimPages - m)]]
    {
      assert pool.free[j] == PagesOf(all, SharedIds(m))[j - (SimPages - m)];
    }
  }

  /** In the run as written one page is never handed back and one is released once too often. */
  lemma LeakedRunLeaks(st: seq<PageState>, n: nat)
    requires 0 < CeilDiv(n, SimPageSize) < SimPages && LeakedStates(st, n)
    ensures exists j | 0 <= j < |st| :: !st[j].isFreed
    ensures exists j | 0 <= j < |st| :: st[j].refCount < 0
  {
    assert !st[SimPages - 1].isFreed;
    assert st[SimPages - 1 - CeilDiv(n, SimPageSize)].refCount < 0;
  }

  /** In the corrected run every page is free, empty and unreferenced at the end. */
  lemma CleanRunFreesAll(st: seq<PageState>, n: nat)
    requires 0 < CeilDiv(n, SimPageSize) < SimPages && CleanStates(st, n)
    ensures forall j | 0 <= j < |st| :: st[j].isFreed && st[j].usedSlots == 0
    ensures forall j | SimPages - 1 - CeilDiv(n, SimPageSize) <= j < |st| :: st[j].refCount == 0
  {
  }

  /** The ids of request 2's list, whichever way it was built. */
  lemma SharedListIds(all: seq<Page>, items: seq<Page>, m: nat)
    requires SharedList(all, items, m) && forall j | 0 <= j < |all| :: all[j].id == j
    ensures PageIds(items + items) == SharedIds(m) + SharedIds(m)
  {
    assert forall i | 0 <= i < m - 1 :: SharedIds(m)[i] == SimPages - 1 - i;
  }

  lemma TakenListIds(all: seq<Page>, items: seq<Page>, copy: seq<Page>, m: nat)
    requires TakenList(all, items, m) && SharedList(all, copy, m) && forall j | 0 <= j < |all| :: all[j].id == j
    ensures PageIds(items + copy) == TakenIds(m) + SharedIds(m)
  {
    assert forall i | 0 <= i < m - 1 :: SharedIds(m)[i] == SimPages - 1 - i;
  }

  /** The log of a run, put together from what its stages promise. */
  lemma RunLogged(D0: seq<Details>, D1: seq<Details>, D2: seq<Details>, ev: seq<Details>, prompt: string,
                  rc: nat, key: int, n: nat, layers: nat, freed: seq<Details>)
    requires D0 == [] && 0 < CeilDiv(n, SimPageSize) < SimPages && n <= SimPages * SimPageSize
    requires D1 == D0 + RunHead(prompt, rc, key, n, layers)
    requires D2 == D1 + freed && ev == D2
    ensures ev == RunLog(prompt, rc, key, n, layers, freed)
  {
  }

  /** The pool `simulate` builds: 8 pages of 16 slots, instrumented with the simulator's logger. */
  method NewSimPool(logger: EventLogger, numLayers: nat, numHeads: nat) returns (pool: PagePool)
    requires logger.Valid()
    ensures fresh(pool) && FreshPool(pool) && pool.logger == logger && pool.numLayers == numLayers
    ensures forall j | 0 <= j < |pool.free| :: pool.free[j] == pool.all[j] && fresh(pool.all[j])
    ensures logger.Valid()
  {
    pool := new PagePool(Instrumented, logger, SimPages, SimPageSize, numLayers, numHeads);
    FreshOrder(pool);
  }

  /**
   * What `simulate` returns once cleanup is done: the events, the given
   * final page list, the page states and the summary. `leaked` says which
   * run's cleanup the pool went through.
   */
  method Report(pool: PagePool, finalPages: seq<Page>, ghost n: nat, ghost leaked: bool) returns (res: SimResult)
    requires PoolValid(pool) && pool.logger != null && pool.pageSize == SimPageSize
    requires if leaked then Leaked(pool, n) else AllReleased(pool, n)
    ensures 0 < CeilDiv(n, SimPageSize) < SimPages
    ensures if leaked then LeakedStates(res.pageStates, n) else CleanStates(res.pageStates, n)
    ensures res.finalPages == PageIds(finalPages)
    ensures EventDetails(res.events) == pool.logger.Details()
    ensures res.summary.numRequests == pool.logger.requestCounter && res.summary.totalEvents == |res.events|
  {
    if leaked {
      LeakedPageStates(pool, n);
    } else {
      CleanPageStates(pool, n);
    }
    var states := pool.PageStates();
    var summary := pool.logger.GetSummary();
    var events := pool.logger.GetEvents();
    res := SimResult(events, PageIds(finalPages), states, summary);
  }

  /** backend/simulator.py, class KVCacheSimulator: an event logger that outlives runs, and the model's shape. */
  class KvCacheSimulator {
    const logger: EventLogger
    const numLayers: nat
    const numHeads: nat

    constructor(numLayers: nat, numHeads: nat)
      ensures fresh(logger) && logger.Valid() && logger.events == [] && logger.requestCounter == 0
      ensures this.numLayers == numLayers && this.numHeads == numHeads
    {
      logger := new EventLogger();
      this.numLayers := numLayers;
      this.numHeads := numHeads;
    }

    /**
     * `simulate`, as written: request 2 reuses the cached list object, so
     * cleanup walks the same list twice. n is the prompt's token count, key
     * the hash of its tokens, fwdK/fwdV the forward pass, and the rows are
     * the decode rows of the two requests.
     */
    method Simulate(prompt: string, key: int, n: nat, fwdK: Forward, fwdV: Forward,
                    rowK1: Vec, rowV1: Vec, rowK2: Vec, rowV2: Vec) returns (r: Result<SimResult>)
      modifies logger
      ensures logger.Valid()
      ensures r.Err? <==> !Serves(n, SimPageSize, SimPages) || CeilDiv(n, SimPageSize) == SimPages
      ensures r.Err? ==> r.error == if !Serves(n, SimPageSize, SimPages) then FirstError(n, Instrumented, SimPageSize, SimPages)
                                    else RuntimeError(OutOfPagesMessage(Instrumented))
      ensures r.Ok? ==> var m := CeilDiv(n, SimPageSize);
        && 0 < m < SimPages && n <= SimPages * SimPageSize
        && logger.requestCounter == old(logger.requestCounter) + 2
        && EventDetails(r.value.events) == RunLog(prompt, old(logger.requestCounter), key, n, numLayers, LeakedFrees(m))
        && r.value.finalPages == SharedIds(m) + SharedIds(m)
        && LeakedStates(r.value.pageStates, n)
        && r.value.summary.numRequests == logger.requestCounter
        && r.value.summary.totalEvents == |r.value.events|
    {
      ghost var rc := logger.requestCounter;
      logger.Clear();
      var pool := NewSimPool(logger, numLayers, numHeads);
      var cache := new PrefixCache();
      ghost var D0 := logger.Details();
      var served := ServeShared(pool, cache, prompt, key, n, fwdK, fwdV, rowK1, rowV1, rowK2, rowV2);
      if served.Err? {
        return Err(served.error);
      }
      ghost var m := CeilDiv(n, SimPageSize);
      ghost var D1 := logger.Details();
      var items := served.value.pages.items;
      CleanShared(pool, n, items);
      ghost var D2 := logger.Details();
      SharedListIds(pool.all, items, m);
      var res := Report(pool, items + items, n, true);
      r := Ok(res);
      RunLogged(D0, D1, D2, EventDetails(res.events), prompt, rc, key, n, pool.numLayers, LeakedFrees(m));
    }

    /**
     * `simulate` as evidently intended: request 2 copies the cached list and
     * table before writing, so cleanup hands every page back exactly once.
     */
    method SimulateCopied(prompt: string, key: int, n: nat, fwdK: Forward, fwdV: Forward,
                          rowK1: Vec, rowV1: Vec, rowK2: Vec, rowV2: Vec) returns (r: Result<SimResult>)
      modifies logger
      ensures logger.Valid()
      ensures r.Err? <==> !Serves(n, SimPageSize, SimPages) || CeilDiv(n, SimPageSize) == SimPages
      ensures r.Err? ==> r.error == if !Serves(n, SimPageSize, SimPages) then FirstError(n, Instrumented, SimPageSize, SimPages)
                                    else RuntimeError(OutOfPagesMessage(Instrumented))
      ensures r.Ok? ==> var m := CeilDiv(n, SimPageSize);
        && 0 < m < SimPages && n <= SimPages * SimPageSize
        && logger.requestCounter == old(logger.requestCounter) + 2
        && EventDetails(r.value.events) == RunLog(prompt, old(logger.requestCounter), key, n, numLayers, CleanFrees(m))
        && r.value.finalPages == TakenIds(m) + SharedIds(m)
        && CleanStates(r.value.pageStates, n)
        && r.value.summary.numRequests == logger.requestCounter
        && r.value.summary.totalEvents == |r.value.events|
    {
      ghost var rc := logger.requestCounter;
      logger.Clear();
      var pool := NewSimPool(logger, numLayers, numHeads);
      var cache := new PrefixCache();
      ghost var D0 := logger.Details();
      var served := ServeCopied(pool, cache, prompt, key, n, fwdK, fwdV, rowK1, rowV1, rowK2, rowV2);
      if served.Err? {
        return Err(served.error);
      }
      ghost var m := CeilDiv(n, SimPageSize);
      ghost var D1 := logger.Details();
      var items, copy := served.value.0, served.value.1;
      CleanCopied(pool, n, items, copy);
      ghost var D2 := logger.Details();
      TakenListIds(pool.all, items, copy, m);
      var res := Report(pool, items + copy, n, false);
      r := Ok(res);
      RunLogged(D0, D1, D2, EventDetails(res.events), prompt, rc, key, n, pool.numLayers, CleanFrees(m));
    }
  }
}
