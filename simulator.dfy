/**
 * The simulator of backend/simulator.py: one run serves the same prompt
 * twice on a fresh instrumented pool of 8 pages of 16 slots. Request 1
 * builds the prefix and caches its page list and table; request 2 reuses
 * them, copies the shared last page on write and decodes into the copy;
 * then both lists are released and the pool's page states are read.
 *
 * The model's inputs stand for what the Python code computes with torch
 * and the tokenizer: n is the prompt's token count, key is Python's hash of
 * the token tuple, fwdK/fwdV are the model's forward pass, and the four
 * rows are the random decode rows.
 */
module Simulator {
  import opened Common
  import opened Pages
  import opened Pool
  import opened PageTables
  import opened PrefixCaches
  import opened EventLog
  import opened Prefix
  import opened Requests
  import opened PrefixSteps

  /**
   * The pool's invariant as one fact: the steps below promise it whole, so
   * that a later logger-only update keeps it by the pool's read frame.
   */
  ghost predicate PoolValid(pool: PagePool)
    reads pool, pool.free
  {
    pool.Valid()
  }

  /** The pool the simulator builds for every run. */
  const SimPages: nat := 8
  const SimPageSize: nat := 16

  /** What `simulate` returns (the model dimensions and the token texts are not modelled). */
  datatype SimResult = SimResult(events: seq<EventDict>, finalPages: seq<nat>, pageStates: seq<PageState>, summary: Summary)

  /**
   * Request 1 of a run gets through: there are tokens, the prefix fits the
   * free pages, and its last page has a slot left for the decoded token.
   */
  predicate Serves(n: nat, s: nat, f: nat)
    requires s > 0
  {
    0 < n && !PrefixFails(n, s, f) && n % s != 0
  }

  /** The exception request 1 raises otherwise: no last page, no free page, or a full last page. */
  function FirstError(n: nat, kind: PoolKind, s: nat, f: nat): Error
    requires s > 0
  {
    if n == 0 then IndexError
    else if PrefixFails(n, s, f) then PrefixError(kind, s, f)
    else RuntimeError(PageFullMessage)
  }

  /**
   * The last page of an n-token prefix holds (n - 1) mod s + 1 tokens: it is
   * full when s divides n, and otherwise the decoded token (position n)
   * lands on it, in slot n mod s.
   */
  lemma LastSlot(n: nat, s: nat)
    requires n > 0 && s > 0
    ensures n % s == 0 ==> (n - 1) % s + 1 == s
    ensures n % s != 0 ==> CeilDiv(n, s) - 1 == n / s && (n - 1) % s + 1 == n % s
  {
    PlaceIsDivMod(n - 1, s);
    var q, r := (n - 1) / s, (n - 1) % s;
    TimesIsProduct(s, q);
    if r + 1 < s {
      DivModOf(n, s, q, r + 1);
    } else {
      TimesIsProduct(s, q + 1);
      DivModOf(n, s, q + 1, 0);
    }
  }

  /** From Extends to the plain detail sequence. */
  /** Request 2's two stretches of logging, the cache hit and then the copy-on-write, as one. */
  lemma LoggedInTurn(D0: seq<Details>, D1: seq<Details>, D2: seq<Details>, a: Details, b: Details, c: Details, d: Details, e: Details)
    requires D1 == D0 + [a, b] && D2 == D1 + [c, d, e]
    ensures D2 == D0 + [a, b, c, d, e]
  {
  }

  lemma ExtendsDetails(e0: seq<Event>, e1: seq<Event>, rid: nat, ds: seq<Details>)
    requires Extends(e0, e1, rid, ds)
    ensures DetailsOf(e1) == DetailsOf(e0) + ds
  {
    assert forall i | 0 <= i < |ds| :: e1[|e0| + i] == Stamped(|e0|, rid, ds)[i];
  }

  /**
   * The table after request 1: the n prefix tokens and the decoded token
   * (position n), token u at slot u mod s of list page u / s.
   */
  ghost predicate Laid(items: seq<Page>, entries: seq<Entry>, n: nat, s: nat)
    requires s > 0
  {
    |entries| == n + 1 && forall u | 0 <= u <= n :: u / s < |items| && entries[u] == (items[u / s].id, u % s)
  }

  /**
   * When the decoded token (position n) lands on the last page of an
   * n-token prefix, in the slot after the prefix's last token, the table
   * holds the prefix followed by that token, laid out page by page.
   */
  lemma LaidAfterDecode(items: seq<Page>, entries: seq<Entry>, entries': seq<Entry>, n: nat, s: nat, fwdK: Forward, fwdV: Forward)
    requires s > 0 && n > 0 && n % s != 0
    requires PrefixBuilt(items, entries, n, s, fwdK, fwdV)
    requires entries' == entries + [(items[|items| - 1].id, n % s)]
    ensures Laid(items, entries', n, s) && entries'[..n] == entries
  {
    LastSlot(n, s);
    assert entries'[..n] == entries;
    forall u | 0 <= u <= n
      ensures u / s < |items| && entries'[u] == (items[u / s].id, u % s)
    {
      if u < n {
        assert entries'[u] == entries[u];
      }
    }
  }

  /**
   * Request 1's decode: a decode_start event with the list's length, the
   * decode write (no copy-on-write, as the last page is held once), and a
   * decode_end event if the write went through.
   */
  method DecodeFirst(pool: PagePool, pages: PageList, table: PageTable, rowK: Vec, rowV: Vec) returns (r: Result<Entry>)
    requires pool.Valid() && pool.logger != null && pool.logger.Valid()
    requires InUse(pool.used, LastOf(pages.items))
    requires pages.items != [] ==> pages.items[|pages.items| - 1].refCount == 1
    modifies pool, pool.logger, pages, table, LastOf(pages.items)`refCount, LastOf(pages.items)`used
    modifies LastOf(pages.items)`k, LastOf(pages.items)`v
    modifies pool.free`k, pool.free`v, pool.free`refCount, pool.free`used
    ensures PoolValid(pool) && pool.logger.Valid()
    ensures pool.free == old(pool.free) && pool.used == old(pool.used) && pool.usedOrder == old(pool.usedOrder)
    ensures pages.items == old(pages.items)
    ensures pool.logger.requestCounter == old(pool.logger.requestCounter)
    ensures pool.logger.currentRequestId == old(pool.logger.currentRequestId)
    ensures pool.logger.Details() == old(pool.logger.Details()) + [DecodeStart(|pages.items|)] + (if r.Ok? then [DecodeEnd] else [])
    ensures pages.items == [] ==> r == Err(IndexError) && table.entries == old(table.entries)
    ensures pages.items != [] ==> var last := pages.items[|pages.items| - 1];
      && last.refCount == 1
      && (old(last.used) >= last.size ==>
            r == Err(RuntimeError(PageFullMessage)) && last.used == old(last.used) && table.entries == old(table.entries))
      && (old(last.used) < last.size ==>
            r == Ok((last.id, old(last.used))) && last.used == old(last.used) + 1 && table.entries == old(table.entries) + [r.value])
  {
    pool.logger.LogEvent(DecodeStart(|pages.items|));
    ghost var E1 := pool.logger.events;
    r := Decode(pool, pages, table, rowK, rowV);
    ExtendsDetails(E1, pool.logger.events, pool.logger.currentRequestId, []);
    if r.Ok? {
      pool.logger.LogEvent(DecodeEnd);
    }
  }

  /**
   * The first half of request 1 on a fresh cache: request_start, then the
   * prefix step, which builds the prefix and caches it (the cache is empty,
   * so Acquire takes the miss path).
   */
  method StartFirst(pool: PagePool, cache: PrefixCache, prompt: string, key: int, n: nat,
                    fwdK: Forward, fwdV: Forward) returns (r: Result<CacheEntry>)
    requires pool.Valid() && pool.logger != null && pool.logger.Valid()
    requires cache.cache == map[]
    modifies pool, pool.logger, pool.free`used, pool.free`k, pool.free`v, pool.free`refCount, cache
    ensures PoolValid(pool) && pool.logger.Valid()
    ensures r.Err? <==> PrefixFails(n, pool.pageSize, |old(pool.free)|)
    ensures r.Err? ==> r.error == PrefixError(pool.kind, pool.pageSize, |old(pool.free)|)
    ensures r.Ok? ==>
      var items, entries := r.value.pages.items, r.value.table.entries;
      && fresh(r.value.pages) && fresh(r.value.table)
      && cache.cache == map[key := r.value]
      && PrefixBuilt(items, entries, n, pool.pageSize, fwdK, fwdV)
      && Taken(pool.free, pool.used, items, old(pool.free), old(pool.used).Keys)
      && (forall i | 0 <= i < |items| :: items[i].refCount == 1)
      && pool.logger.requestCounter == old(pool.logger.requestCounter) + 1
      && pool.logger.currentRequestId == pool.logger.requestCounter
      && pool.logger.Details() == old(pool.logger.Details()) + [RequestStart(prompt, pool.logger.requestCounter)]
           + PrefixLog(entries, pool.numLayers)
  {
    pool.logger.StartRequest(prompt);
    ghost var E1 := pool.logger.events;
    r := Acquire(pool, cache, key, n, fwdK, fwdV);
    if r.Ok? {
      ExtendsDetails(E1, pool.logger.events, pool.logger.currentRequestId, PrefixLog(r.value.table.entries, pool.numLayers));
    }
  }

  /**
   * The second half of request 1: DecodeFirst on a list held once and in
   * use, then request_end. No page changes hands and no count moves.
   */
  method FinishFirst(pool: PagePool, pages: PageList, table: PageTable, rowK: Vec, rowV: Vec) returns (r: Result<Entry>)
    requires pool.Valid() && pool.logger != null && pool.logger.Valid()
    requires pages.items != [] && InUse(pool.used, pages.items)
    requires forall i | 0 <= i < |pages.items| :: pages.items[i].refCount == 1
    modifies pool, pool.logger, pages, table, LastOf(pages.items)`refCount, LastOf(pages.items)`used
    modifies LastOf(pages.items)`k, LastOf(pages.items)`v
    modifies pool.free`k, pool.free`v, pool.free`refCount, pool.free`used
    ensures PoolValid(pool) && pool.logger.Valid()
    ensures pool.free == old(pool.free) && pool.used == old(pool.used)
    ensures pages.items == old(pages.items)
    ensures forall i | 0 <= i < |pages.items| :: pages.items[i].refCount == 1
    ensures pool.logger.requestCounter == old(pool.logger.requestCounter)
    ensures pool.logger.currentRequestId == old(pool.logger.currentRequestId)
    ensures var last := pages.items[|pages.items| - 1];
      && (r.Ok? <==> old(last.used) < last.size)
      && (r.Err? ==> r.error == RuntimeError(PageFullMessage))
      && (r.Ok? ==>
            && last.used == old(last.used) + 1
            && table.entries == old(table.entries) + [(last.id, old(last.used))]
            && pool.logger.Details() == old(pool.logger.Details())
                 + [DecodeStart(|pages.items|), DecodeEnd, RequestEnd(pool.logger.currentRequestId)])
  {
    ghost var items := pages.items;
    assert LastOf(items) == [items[|items| - 1]];
    assert forall i, j | 0 <= i < |items| && 0 <= j < |pool.free| :: items[i] != pool.free[j] by {
      forall i, j | 0 <= i < |items| && 0 <= j < |pool.free|
        ensures items[i] != pool.free[j]
      {
        assert pool.free[j].id in IdsOf(pool.free);
      }
    }
    r := DecodeFirst(pool, pages, table, rowK, rowV);
    if r.Ok? {
      assert PoolValid(pool);
      pool.logger.EndRequest();
    }
  }

  /**
   * Request 1 after its prefix is built: the decode of one token into the
   * last prefix page (FinishFirst). It fails when there is no page or the
   * last page is full.
   */
  method ServeFirst(pool: PagePool, pages: PageList, table: PageTable, ghost n: nat,
                    ghost fwdK: Forward, ghost fwdV: Forward, rowK: Vec, rowV: Vec) returns (r: Result<Entry>)
    requires pool.Valid() && pool.logger != null && pool.logger.Valid() && pool.pageSize > 0
    requires PrefixBuilt(pages.items, table.entries, n, pool.pageSize, fwdK, fwdV)
    requires InUse(pool.used, pages.items)
    requires forall i | 0 <= i < |pages.items| :: pages.items[i].refCount == 1
    modifies pool, pool.logger, pages, table, LastOf(pages.items)`refCount, LastOf(pages.items)`used
    modifies LastOf(pages.items)`k, LastOf(pages.items)`v
    modifies pool.free`k, pool.free`v, pool.free`refCount, pool.free`used
    ensures PoolValid(pool) && pool.logger.Valid()
    ensures pool.free == old(pool.free) && pool.used == old(pool.used)
    ensures pages.items == old(pages.items)
    ensures forall i | 0 <= i < |pages.items| :: pages.items[i].refCount == 1
    ensures pool.logger.requestCounter == old(pool.logger.requestCounter)
    ensures pool.logger.currentRequestId == old(pool.logger.currentRequestId)
    ensures r.Err? <==> n == 0 || n % pool.pageSize == 0
    ensures r.Err? ==> r.error == (if n == 0 then IndexError else RuntimeError(PageFullMessage))
    ensures r.Ok? ==>
      && pages.items[|pages.items| - 1].used == n % pool.pageSize + 1
      && Laid(pages.items, table.entries, n, pool.pageSize)
      && table.entries[..n] == old(table.entries)
      && pool.logger.Details() == old(pool.logger.Details())
           + [DecodeStart(|pages.items|), DecodeEnd, RequestEnd(pool.logger.currentRequestId)]
  {
    if pages.items == [] {
      r := DecodeFirst(pool, pages, table, rowK, rowV);
      return;
    }
    r := ServeLast(pool, pages, table, n, fwdK, fwdV, rowK, rowV);
  }

  /** ServeFirst on a non-empty prefix: the token goes into the last prefix page. */
  method ServeLast(pool: PagePool, pages: PageList, table: PageTable, ghost n: nat,
                   ghost fwdK: Forward, ghost fwdV: Forward, rowK: Vec, rowV: Vec) returns (r: Result<Entry>)
    requires pool.Valid() && pool.logger != null && pool.logger.Valid() && pool.pageSize > 0
    requires PrefixBuilt(pages.items, table.entries, n, pool.pageSize, fwdK, fwdV)
    requires pages.items != [] && InUse(pool.used, pages.items)
    requires forall i | 0 <= i < |pages.items| :: pages.items[i].refCount == 1
    modifies pool, pool.logger, pages, table, LastOf(pages.items)`refCount, LastOf(pages.items)`used
    modifies LastOf(pages.items)`k, LastOf(pages.items)`v
    modifies pool.free`k, pool.free`v, pool.free`refCount, pool.free`used
    ensures PoolValid(pool) && pool.logger.Valid()
    ensures pool.free == old(pool.free) && pool.used == old(pool.used)
    ensures pages.items == old(pages.items)
    ensures forall i | 0 <= i < |pages.items| :: pages.items[i].refCount == 1
    ensures pool.logger.requestCounter == old(pool.logger.requestCounter)
    ensures pool.logger.currentRequestId == old(pool.logger.currentRequestId)
    ensures r.Err? <==> n == 0 || n % pool.pageSize == 0
    ensures r.Err? ==> r.error == (if n == 0 then IndexError else RuntimeError(PageFullMessage))
    ensures r.Ok? ==>
      && pages.items[|pages.items| - 1].used == n % pool.pageSize + 1
      && Laid(pages.items, table.entries, n, pool.pageSize)
      && table.entries[..n] == old(table.entries)
      && pool.logger.Details() == old(pool.logger.Details())
           + [DecodeStart(|pages.items|), DecodeEnd, RequestEnd(pool.logger.currentRequestId)]
  {
    ghost var items, entries := pages.items, table.entries;
    ghost var S := pool.pageSize;
    LastSlot(n, S);
    assert items[|items| - 1].size == S;
    assert (items[|items| - 1].used < S) == (n % S != 0);
    ghost var entries' := entries + [(items[|items| - 1].id, n % S)];
    if n % S != 0 {
      LaidAfterDecode(items, entries, entries', n, S, fwdK, fwdV);
    }
    var d := FinishFirst(pool, pages, table, rowK, rowV);
    assert pages.items == items && pool.pageSize == S;
    if d.Err? {
      return Err(d.error);
    }
    assert table.entries == entries';
    r := d;
  }

  /**
   * The pool and the cached entry after request 1 served an n-token prompt:
   * its list holds the pages taken from the end of the free list F (U, the
   * ids in use before), one page per started block of the page size, each
   * held once; the last one also holds the decoded token, and the table
   * lays out the prompt and that token page by page.
   */
  ghost predicate FirstServed(pool: PagePool, e: CacheEntry, n: nat, F: seq<Page>, U: set<nat>)
    reads pool, e.pages, e.table, e.pages.items
  {
    var items, entries, S := e.pages.items, e.table.entries, pool.pageSize;
    && S > 0
    && Taken(pool.free, pool.used, items, F, U)
    && |items| == CeilDiv(n, S)
    && (forall i | 0 <= i < |items| :: items[i].refCount == 1)
    && items != [] && items[|items| - 1].used == n % S + 1
    && Laid(items, entries, n, S)
  }

  /**
   * Request 1 on a fresh cache: StartFirst, then ServeFirst, which logs
   * request_end once the decoded token is in.
   */
  method FirstRequest(pool: PagePool, cache: PrefixCache, prompt: string, key: int, n: nat,
                      fwdK: Forward, fwdV: Forward, rowK: Vec, rowV: Vec) returns (r: Result<CacheEntry>)
    requires pool.Valid() && pool.logger != null && pool.logger.Valid() && pool.pageSize > 0
    requires cache.cache == map[]
    modifies pool, pool.logger, pool.free`used, pool.free`k, pool.free`v, pool.free`refCount, cache
    ensures PoolValid(pool) && pool.logger.Valid()
    ensures r.Err? <==> !Serves(n, pool.pageSize, |old(pool.free)|)
    ensures r.Err? ==> r.error == FirstError(n, pool.kind, pool.pageSize, |old(pool.free)|)
    ensures r.Ok? ==>
      var items, entries := r.value.pages.items, r.value.table.entries;
      && fresh(r.value.pages) && fresh(r.value.table)
      && cache.cache == map[key := r.value]
      && FirstServed(pool, r.value, n, old(pool.free), old(pool.used).Keys)
      && pool.logger.requestCounter == old(pool.logger.requestCounter) + 1
      && pool.logger.currentRequestId == pool.logger.requestCounter
      && pool.logger.Details() == old(pool.logger.Details()) + [RequestStart(prompt, pool.logger.requestCounter)]
           + PrefixLog(entries[..n], pool.numLayers) + [DecodeStart(|items|), DecodeEnd, RequestEnd(pool.logger.requestCounter)]
  {
    ghost var D0 := pool.logger.Details();
    r := StartFirst(pool, cache, prompt, key, n, fwdK, fwdV);
    if r.Ok? {
      ghost var D1, rid, entries := pool.logger.Details(), pool.logger.requestCounter, r.value.table.entries;
      assert D1 == D0 + [RequestStart(prompt, rid)] + PrefixLog(entries, pool.numLayers);
      var d := ServeStarted(pool, r.value, n, fwdK, fwdV, rowK, rowV, old(pool.free), old(pool.used).Keys);
      if d.Err? {
        r := Err(d.error);
      } else {
        assert pool.logger.Details() == D1 + [DecodeStart(|r.value.pages.items|), DecodeEnd, RequestEnd(rid)];
      }
    }
  }

  /** ServeFirst on the entry StartFirst stored, stated as the pool and entry after request 1. */
  method ServeStarted(pool: PagePool, e: CacheEntry, n: nat, ghost fwdK: Forward, ghost fwdV: Forward,
                     rowK: Vec, rowV: Vec, ghost F: seq<Page>, ghost U: set<nat>) returns (d: Result<Entry>)
    requires pool.Valid() && pool.logger != null && pool.logger.Valid() && pool.pageSize > 0
    requires PrefixBuilt(e.pages.items, e.table.entries, n, pool.pageSize, fwdK, fwdV)
    requires Taken(pool.free, pool.used, e.pages.items, F, U)
    requires forall i | 0 <= i < |e.pages.items| :: e.pages.items[i].refCount == 1
    modifies pool, pool.logger, e.pages, e.table, LastOf(e.pages.items)`refCount, LastOf(e.pages.items)`used
    modifies LastOf(e.pages.items)`k, LastOf(e.pages.items)`v
    modifies pool.free`k, pool.free`v, pool.free`refCount, pool.free`used
    ensures PoolValid(pool) && pool.logger.Valid()
    ensures pool.logger.requestCounter == old(pool.logger.requestCounter)
    ensures pool.logger.currentRequestId == old(pool.logger.currentRequestId)
    ensures d.Err? <==> n == 0 || n % pool.pageSize == 0
    ensures d.Err? ==> d.error == (if n == 0 then IndexError else RuntimeError(PageFullMessage))
    ensures d.Ok? ==>
      && FirstServed(pool, e, n, F, U)
      && e.table.entries[..n] == old(e.table.entries)
      && pool.logger.Details() == old(pool.logger.Details())
           + [DecodeStart(|e.pages.items|), DecodeEnd, RequestEnd(pool.logger.currentRequestId)]
  {
    ghost var free, used, items := pool.free, pool.used, e.pages.items;
    d := ServeFirst(pool, e.pages, e.table, n, fwdK, fwdV, rowK, rowV);
    assert pool.free == free && pool.used == used && e.pages.items == items;
  }

  /**
   * The first half of request 2: request_start, then the cache hit on the
   * key request 1 stored (a prefix_reuse event, one more hold on every page
   * of the cached list).
   */
  method StartSecond(pool: PagePool, cache: PrefixCache, prompt: string, key: int) returns (e: CacheEntry)
    requires pool.logger != null && pool.logger.Valid()
    requires key in cache.cache && DistinctIds(cache.cache[key].pages.items)
    modifies pool.logger, cache.cache[key].pages.items`refCount
    ensures pool.logger.Valid()
    ensures e == cache.cache[key]
    ensures forall i | 0 <= i < |e.pages.items| :: e.pages.items[i].refCount == old(e.pages.items[i].refCount) + 1
    ensures pool.logger.requestCounter == old(pool.logger.requestCounter) + 1
    ensures pool.logger.currentRequestId == pool.logger.requestCounter
    ensures pool.logger.Details() == old(pool.logger.Details())
      + [RequestStart(prompt, pool.logger.requestCounter), PrefixReuse(DecimalString(key), |e.pages.items|)]
  {
    pool.logger.StartRequest(prompt);
    ghost var E1 := pool.logger.events;
    var r := Reuse(pool, cache, key);
    e := r.value;
    ExtendsDetails(E1, pool.logger.events, pool.logger.currentRequestId, [PrefixReuse(DecimalString(key), |e.pages.items|)]);
  }

  /**
   * The decode of request 2, on a list whose last page is shared:
   * copy-on-write into the last free page and the token in the copy's first
   * slot (DecodeShared); the rest of the list keeps its counts. No
   * decode_start or decode_end is logged here. An empty pool fails with the
   * pool's out-of-pages error.
   */
  method DecodeSecond(pool: PagePool, pages: PageList, table: PageTable, rowK: Vec, rowV: Vec) returns (r: Result<Entry>)
    requires pool.Valid() && pool.logger != null && pool.logger.Valid() && pool.pageSize > 0
    requires pages.items != [] && InUse(pool.used, pages.items) && DistinctIds(pages.items)
    requires pages.items[|pages.items| - 1].refCount > 1
    modifies pool, pool.logger, pages, table, LastOf(pages.items)`refCount
    modifies pool.free`k, pool.free`v, pool.free`refCount, pool.free`used
    ensures PoolValid(pool) && pool.logger.Valid()
    ensures pool.logger.requestCounter == old(pool.logger.requestCounter)
    ensures pool.logger.currentRequestId == old(pool.logger.currentRequestId)
    ensures var items := old(pages.items);
      forall i | 0 <= i < |items| - 1 :: items[i].refCount == old(items[i].refCount)
    ensures old(pool.free) == [] ==> r == Err(RuntimeError(OutOfPagesMessage(pool.kind)))
    ensures var items, F := old(pages.items), old(pool.free);
      F != [] ==> var last, p := items[|items| - 1], F[|F| - 1];
        && r == Ok((p.id, 0))
        && CopyMade(pool, pages.items, items, F, old(pool.used))
        && last.refCount == old(last.refCount) - 1
        && table.entries == old(table.entries) + [(p.id, 0)]
        && pool.logger.Details() == old(pool.logger.Details()) + [PageFault(p.id), CopyOnWrite(last.id, p.id)]
  {
    ghost var items := pages.items;
    assert LastOf(items) == [items[|items| - 1]];
    assert forall i, j | 0 <= i < |items| && 0 <= j < |pool.free| :: items[i] != pool.free[j] by {
      forall i, j | 0 <= i < |items| && 0 <= j < |pool.free|
        ensures items[i] != pool.free[j]
      {
        assert pool.free[j].id in IdsOf(pool.free);
      }
    }
    forall i | 0 <= i < |items| - 1
      ensures items[i] != items[|items| - 1]
    {
      IdsDiffer(items, i, |items| - 1);
    }
    ghost var E0 := pool.logger.events;
    r := DecodeShared(pool, pages, table, rowK, rowV);
    if r.Ok? {
      ExtendsDetails(E0, pool.logger.events, pool.logger.currentRequestId, [PageFault(r.value.0), CopyOnWrite(items[|items| - 1].id, r.value.0)]);
    }
  }

  /**
   * Request 2 after the cache hit, on a list every page of which two
   * requests hold: DecodeSecond, then request_end once the token is in.
   */
  method ServeSecond(pool: PagePool, pages: PageList, table: PageTable, rowK: Vec, rowV: Vec) returns (r: Result<Entry>)
    requires pool.Valid() && pool.logger != null && pool.logger.Valid() && pool.pageSize > 0
    requires pages.items != [] && InUse(pool.used, pages.items) && DistinctIds(pages.items)
    requires forall i | 0 <= i < |pages.items| :: pages.items[i].refCount == 2
    modifies pool, pool.logger, pages, table, LastOf(pages.items)`refCount
    modifies pool.free`k, pool.free`v, pool.free`refCount, pool.free`used
    ensures PoolValid(pool) && pool.logger.Valid()
    ensures pool.logger.requestCounter == old(pool.logger.requestCounter)
    ensures pool.logger.currentRequestId == old(pool.logger.currentRequestId)
    ensures old(pool.free) == [] ==> r == Err(RuntimeError(OutOfPagesMessage(pool.kind)))
    ensures var items, F := old(pages.items), old(pool.free);
      F != [] ==> var last, p := items[|items| - 1], F[|F| - 1];
        && r == Ok((p.id, 0))
        && CopiedOnWrite(pool, pages.items, items, F, old(pool.used))
        && table.entries == old(table.entries) + [(p.id, 0)]
        && pool.logger.Details() == old(pool.logger.Details())
             + [PageFault(p.id), CopyOnWrite(last.id, p.id), RequestEnd(pool.logger.currentRequestId)]
  {
    r := DecodeSecond(pool, pages, table, rowK, rowV);
    if r.Ok? {
      assert PoolValid(pool);
      pool.logger.EndRequest();
    }
  }

  /**
   * The pool and the pages after a copy-on-write of the last page of
   * `items`, for the free list F and the in-use dictionary U before it: the
   * request's list is `items` with its last page replaced by the last free
   * page p, which is now in use, held once and holds the token in its first
   * slot.
   */
  ghost predicate CopyMade(pool: PagePool, list: seq<Page>, items: seq<Page>, F: seq<Page>, U: map<nat, Page>)
    reads pool, F
  {
    && F != [] && items != []
    && var p := F[|F| - 1];
    && list == items[..|items| - 1] + [p]
    && pool.free == F[..|F| - 1] && pool.used == U[p.id := p] && p.id !in U
    && p.refCount == 1 && p.used == 1
  }

  /** Request 2's copy-on-write on a list held once: the old last page is held once again, the rest twice. */
  ghost predicate CopiedOnWrite(pool: PagePool, list: seq<Page>, items: seq<Page>, F: seq<Page>, U: map<nat, Page>)
    reads pool, items, F
  {
    && CopyMade(pool, list, items, F, U)
    && (forall i | 0 <= i < |items| - 1 :: items[i].refCount == 2)
    && items[|items| - 1].refCount == 1
  }

  /**
   * Request 2 as simulate runs it: the cache hit hands back request 1's own
   * list and table objects, so the copy-on-write replaces the last element
   * of the cached list itself, and request 2's token goes into the cached
   * table.
   */
  method SecondShared(pool: PagePool, cache: PrefixCache, e: CacheEntry, prompt: string, key: int, rowK: Vec, rowV: Vec)
    returns (r: Result<CacheEntry>)
    requires pool.Valid() && pool.logger != null && pool.logger.Valid() && pool.pageSize > 0
    requires key in cache.cache && cache.cache[key] == e
    requires var items := e.pages.items;
      items != [] && InUse(pool.used, items) && DistinctIds(items) && forall i | 0 <= i < |items| :: items[i].refCount == 1
    modifies pool, pool.logger, e.pages, e.table, e.pages.items`refCount
    modifies pool.free`k, pool.free`v, pool.free`refCount, pool.free`used
    ensures PoolValid(pool) && pool.logger.Valid()
    ensures old(pool.free) == [] ==> r == Err(RuntimeError(OutOfPagesMessage(pool.kind)))
    ensures var F := old(pool.free);
      F != [] ==> var items, p := old(e.pages.items), F[|F| - 1];
        && r == Ok(e)
        && CopiedOnWrite(pool, e.pages.items, items, F, old(pool.used))
        && e.table.entries == old(e.table.entries) + [(p.id, 0)]
        && pool.logger.requestCounter == old(pool.logger.requestCounter) + 1
        && pool.logger.currentRequestId == pool.logger.requestCounter
        && pool.logger.Details() == old(pool.logger.Details())
             + [RequestStart(prompt, pool.logger.requestCounter), PrefixReuse(DecimalString(key), |items|),
                PageFault(p.id), CopyOnWrite(items[|items| - 1].id, p.id), RequestEnd(pool.logger.requestCounter)]
  {
    ghost var D0, items, F, U, T0 := pool.logger.Details(), e.pages.items, pool.free, pool.used, e.table.entries;
    var got := StartSecond(pool, cache, prompt, key);
    ghost var D1, rid := pool.logger.Details(), pool.logger.requestCounter;
    r := ServeCached(pool, got, rowK, rowV, items, F, U, T0, D1, rid);
    if r.Ok? {
      ghost var p := F[|F| - 1];
      LoggedInTurn(D0, D1, pool.logger.Details(), RequestStart(prompt, rid), PrefixReuse(DecimalString(key), |items|),
                   PageFault(p.id), CopyOnWrite(items[|items| - 1].id, p.id), RequestEnd(rid));
    }
  }

  /**
   * The decode of request 2 into the cached entry itself, from the state the
   * cache hit left: the pages items (each held twice), the free list F, the
   * used map U, the table entries T0 and the log D1 of request rid.
   */
  method ServeCached(pool: PagePool, e: CacheEntry, rowK: Vec, rowV: Vec, ghost items: seq<Page>, ghost F: seq<Page>,
                     ghost U: map<nat, Page>, ghost T0: seq<Entry>, ghost D1: seq<Details>, ghost rid: nat)
    returns (r: Result<CacheEntry>)
    requires pool.Valid() && pool.logger != null && pool.logger.Valid() && pool.pageSize > 0
    requires e.pages.items == items && pool.free == F && pool.used == U && e.table.entries == T0
    requires pool.logger.Details() == D1 && pool.logger.currentRequestId == rid
    requires items != [] && InUse(U, items) && DistinctIds(items) && forall i | 0 <= i < |items| :: items[i].refCount == 2
    modifies pool, pool.logger, e.pages, e.table, LastOf(items)`refCount
    modifies pool.free`k, pool.free`v, pool.free`refCount, pool.free`used
    ensures PoolValid(pool) && pool.logger.Valid()
    ensures pool.logger.requestCounter == old(pool.logger.requestCounter) && pool.logger.currentRequestId == rid
    ensures F == [] ==> r == Err(RuntimeError(OutOfPagesMessage(pool.kind)))
    ensures F != [] ==> var p := F[|F| - 1];
      && r == Ok(e)
      && CopiedOnWrite(pool, e.pages.items, items, F, U)
      && e.table.entries == T0 + [(p.id, 0)]
      && pool.logger.Details() == D1 + [PageFault(p.id), CopyOnWrite(items[|items| - 1].id, p.id), RequestEnd(rid)]
  {
    var d := ServeSecond(pool, e.pages, e.table, rowK, rowV);
    if d.Err? {
      return Err(d.error);
    }
    r := Ok(e);
  }

  /** `list(pages)` and a fresh table with the same entries: copies that share the pages, not the containers. */
  method CopyEntry(e: CacheEntry) returns (c: CacheEntry)
    ensures fresh(c.pages) && fresh(c.table)
    ensures c.pages.items == e.pages.items && c.table.entries == e.table.entries
  {
    var pages := new PageList.Of(e.pages.items);
    var table := new PageTable.Of(e.table.entries);
    c := CacheEntry(pages, table);
  }

  /**
   * Request 2 as it is evidently meant to run: the same steps on a copy of
   * the cached list and of the cached table, so the copy-on-write leaves
   * request 1's list and table as they were.
   */
  method SecondCopied(pool: PagePool, cache: PrefixCache, prompt: string, key: int, rowK: Vec, rowV: Vec) returns (r: Result<CacheEntry>)
    requires pool.Valid() && pool.logger != null && pool.logger.Valid() && pool.pageSize > 0
    requires key in cache.cache
    requires var items := cache.cache[key].pages.items;
      items != [] && InUse(pool.used, items) && DistinctIds(items) && forall i | 0 <= i < |items| :: items[i].refCount == 1
    modifies pool, pool.logger, cache.cache[key].pages.items`refCount
    modifies pool.free`k, pool.free`v, pool.free`refCount, pool.free`used
    ensures PoolValid(pool) && pool.logger.Valid()
    ensures old(pool.free) == [] ==> r == Err(RuntimeError(OutOfPagesMessage(pool.kind)))
    ensures var F := old(pool.free);
      F != [] ==> var items, p := old(cache.cache[key].pages.items), F[|F| - 1];
        && r.Ok? && fresh(r.value.pages) && fresh(r.value.table)
        && CopiedOnWrite(pool, r.value.pages.items, items, F, old(pool.used))
        && r.value.table.entries == old(cache.cache[key].table.entries) + [(p.id, 0)]
        && pool.logger.requestCounter == old(pool.logger.requestCounter) + 1
        && pool.logger.currentRequestId == pool.logger.requestCounter
        && pool.logger.Details() == old(pool.logger.Details())
             + [RequestStart(prompt, pool.logger.requestCounter), PrefixReuse(DecimalString(key), |items|),
                PageFault(p.id), CopyOnWrite(items[|items| - 1].id, p.id), RequestEnd(pool.logger.requestCounter)]
  {
    ghost var D0, items, F, U := pool.logger.Details(), cache.cache[key].pages.items, pool.free, pool.used;
    var e := StartSecond(pool, cache, prompt, key);
    ghost var D1, rid := pool.logger.Details(), pool.logger.requestCounter;
    var c := CopyEntry(e);
    var d := ServeSecond(pool, c.pages, c.table, rowK, rowV);
    if d.Ok? {
      r := Ok(c);
      ghost var p := F[|F| - 1];
      assert CopiedOnWrite(pool, c.pages.items, items, F, U);
      LoggedInTurn(D0, D1, pool.logger.Details(), RequestStart(prompt, rid), PrefixReuse(DecimalString(key), |items|),
                   PageFault(p.id), CopyOnWrite(items[|items| - 1].id, p.id), RequestEnd(rid));
    } else {
      r := Err(d.error);
    }
  }
}
