/**
 * The steps a request goes through in the day-5 driver and in the simulator:
 * take the prompt prefix from the prefix cache or build it, count the request
 * as a holder of its pages, decode one token with copy-on-write of a shared
 * last page, and give the pages back at cleanup. The same list and table
 * objects that the cache holds are the ones these steps change.
 */
module Requests {
  import opened Common
  import opened Pages
  import opened Pool
  import opened PageTables
  import opened PrefixCaches
  import opened EventLog

  /** The pages of a list are pages the pool handed out and has not taken back. */
  ghost predicate InUse(used: map<nat, Page>, items: seq<Page>)
  {
    forall i | 0 <= i < |items| :: items[i].id in used && used[items[i].id] == items[i]
  }

  /** The pages of a list are pages of the pool (free or not). */
  ghost predicate OfPool(all: seq<Page>, items: seq<Page>)
  {
    forall i | 0 <= i < |items| :: items[i].id < |all| && all[items[i].id] == items[i]
  }

  /** The ref counts of the pages, read off the heap. */
  ghost function RefCounts(items: seq<Page>): (refs: seq<int>)
    reads items
    ensures |refs| == |items| && forall i | 0 <= i < |items| :: refs[i] == items[i].refCount
  {
    seq(|items|, i requires 0 <= i < |items| reads items => items[i].refCount)
  }

  /** The last page of a list, as a frame. */
  function LastOf(items: seq<Page>): seq<Page>
  {
    if items == [] then [] else [items[|items| - 1]]
  }

  /** The page list of the entry a key has in the cache, as a frame. */
  function CachedPages(cache: map<int, CacheEntry>, key: int): set<PageList>
  {
    if key in cache then {cache[key].pages} else {}
  }

  // ---------------------------------------------------------------------
  // Holding pages
  // ---------------------------------------------------------------------

  /** `for p in pages: p.ref_count = 1`: a prefix just built is held by one request. */
  method HoldOnce(items: seq<Page>)
    modifies items`refCount
    ensures forall i | 0 <= i < |items| :: items[i].refCount == 1
  {
    for i := 0 to |items|
      invariant forall j | 0 <= j < i :: items[j].refCount == 1
    {
      items[i].refCount := 1;
    }
  }

  /** `for p in pages: p.ref_count += 1`: one more request holds every page of the list. */
  method HoldAgain(items: seq<Page>)
    requires DistinctIds(items)
    modifies items`refCount
    ensures forall i | 0 <= i < |items| :: items[i].refCount == old(items[i].refCount) + 1
  {
    for i := 0 to |items|
      invariant forall j | 0 <= j < |items| :: items[j].refCount == old(items[j].refCount) + (if j < i then 1 else 0)
    {
      forall j | 0 <= j < |items| && j != i
        ensures items[j] != items[i]
      {
        IdsDiffer(items, i, j);
      }
      items[i].refCount := items[i].refCount + 1;
    }
  }

  /**
   * The hit path: a prefix_reuse event with the key's decimal string and the
   * list's length (instrumented pool only), then one more hold on every page.
   * A key that is not cached makes Python's tuple unpacking of None fail.
   */
  method Reuse(pool: PagePool, cache: PrefixCache, key: int) returns (r: Result<CacheEntry>)
    requires pool.logger != null ==> pool.logger.Valid()
    requires key in cache.cache ==> DistinctIds(cache.cache[key].pages.items)
    modifies pool.logger, (if key in cache.cache then cache.cache[key].pages.items else [])`refCount
    ensures pool.logger != null ==> pool.logger.Valid()
    ensures key !in cache.cache ==> r == Err(TypeError) && (pool.logger != null ==> pool.logger.Logged([]))
    ensures key in cache.cache ==> r == Ok(cache.cache[key])
    ensures key in cache.cache ==> var items := cache.cache[key].pages.items;
      && (forall i | 0 <= i < |items| :: items[i].refCount == old(items[i].refCount) + 1)
      && (pool.logger != null ==> pool.logger.Logged([PrefixReuse(DecimalString(key), |items|)]))
  {
    if key !in cache.cache {
      return Err(TypeError);
    }
    var e := cache.cache[key];
    if pool.logger != null {
      pool.logger.LogEvent(PrefixReuse(DecimalString(key), |e.pages.items|));
    }
    HoldAgain(e.pages.items);
    return Ok(e);
  }

  // ---------------------------------------------------------------------
  // Decoding one token
  // ---------------------------------------------------------------------

  /**
   * The first half of copy-on-write: a page from the pool (its page_fault
   * logged) takes over a shared page's K and V tensors, not its slot counter;
   * the shared page loses a reference and the copy has one. An empty pool
   * fails with nothing changed.
   */
  method Unshare(pool: PagePool, last: Page) returns (r: Result<Page>)
    requires pool.Valid() && (pool.logger != null ==> pool.logger.Valid())
    requires last.id in pool.used && pool.used[last.id] == last
    modifies pool, pool.logger, last`refCount, pool.free`k, pool.free`v, pool.free`refCount
    ensures pool.Valid() && (pool.logger != null ==> pool.logger.Valid())
    ensures pool.Allocated(old(pool.free), old(pool.used), old(pool.usedOrder), r)
    ensures r.Err? ==> last.refCount == old(last.refCount)
    ensures r.Ok? ==>
      && r.value != last
      && r.value.k == old(last.k) && r.value.v == old(last.v)
      && r.value.used == 0 && r.value.refCount == 1
      && r.value.size == pool.pageSize && r.value !in pool.free
      && last.refCount == old(last.refCount) - 1
    ensures pool.logger != null ==> pool.logger.Logged(if r.Ok? then [PageFault(r.value.id)] else [])
  {
    r := pool.AllocatePage();
    if r.Err? {
      return;
    }
    var page := r.value;
    page.TakeOver(last);
  }

  /**
   * The decode write into the chosen page: the next slot (no has_space check
   * first, so a full page fails with "The Page is Full" and nothing written),
   * the decoded token's K and V rows at layer 0, head 0 of that slot, and the
   * (page id, slot) entry appended to the table.
   */
  method DecodeInto(page: Page, table: PageTable, rowK: Vec, rowV: Vec) returns (r: Result<Entry>)
    modifies page`used, page`k, page`v, table
    ensures old(page.used) >= page.size ==>
      && r == Err(RuntimeError(PageFullMessage))
      && page.used == old(page.used) && page.k == old(page.k) && page.v == old(page.v)
      && table.entries == old(table.entries)
    ensures old(page.used) < page.size ==>
      && r == Ok((page.id, old(page.used)))
      && page.used == old(page.used) + 1
      && page.k == old(page.k)[(0, 0, old(page.used)) := rowK]
      && page.v == old(page.v)[(0, 0, old(page.used)) := rowV]
      && table.entries == old(table.entries) + [r.value]
  {
    var s := page.AllocateSlot();
    if s.Err? {
      return Err(s.error);
    }
    page.WriteCell((0, 0, s.value), rowK, rowV);
    table.Add(page.id, s.value);
    return Ok((page.id, s.value));
  }

  /**
   * Copy-on-write of the list's shared last page: Unshare, then a
   * copy_on_write event naming the shared page and its copy (after the
   * allocation's page_fault).
   */
  method CopyLast(pool: PagePool, pages: PageList) returns (r: Result<Page>)
    requires pool.Valid() && (pool.logger != null ==> pool.logger.Valid())
    requires pages.items != [] && InUse(pool.used, LastOf(pages.items))
    modifies pool, pool.logger, LastOf(pages.items)`refCount, pool.free`k, pool.free`v, pool.free`refCount
    ensures pool.Valid() && (pool.logger != null ==> pool.logger.Valid())
    ensures pool.Allocated(old(pool.free), old(pool.used), old(pool.usedOrder), r)
    ensures var last := old(pages.items)[|old(pages.items)| - 1];
      && (r.Err? ==> last.refCount == old(last.refCount))
      && (r.Ok? ==>
            && r.value != last && r.value !in pool.free
            && r.value.k == old(last.k) && r.value.v == old(last.v)
            && r.value.used == 0 && r.value.refCount == 1
            && r.value.size == pool.pageSize
            && last.refCount == old(last.refCount) - 1)
      && (pool.logger != null ==> pool.logger.Logged(if r.Ok? then [PageFault(r.value.id), CopyOnWrite(last.id, r.value.id)] else []))
  {
    var last := pages.items[|pages.items| - 1];
    assert LastOf(pages.items)[0] == last;
    ghost var E0 := if pool.logger != null then pool.logger.events else [];
    r := Unshare(pool, last);
    if r.Err? {
      return;
    }
    var page := r.value;
    if pool.logger != null {
      ghost var E1 := pool.logger.events;
      pool.logger.LogEvent(CopyOnWrite(last.id, page.id));
      ExtendsTrans(E0, E1, pool.logger.events, pool.logger.currentRequestId, [PageFault(page.id)], [CopyOnWrite(last.id, page.id)]);
    }
  }

  /**
   * The decode write after a copy-on-write: the copy in place of the list's
   * last element, then the decode write into the copy.
   */
  method DecodeReplacing(pages: PageList, page: Page, table: PageTable, rowK: Vec, rowV: Vec) returns (r: Result<Entry>)
    requires pages.items != []
    modifies pages, page`used, page`k, page`v, table
    ensures pages.items == old(pages.items)[..|old(pages.items)| - 1] + [page]
    ensures old(page.used) >= page.size ==>
      && r == Err(RuntimeError(PageFullMessage))
      && page.used == old(page.used) && page.k == old(page.k) && page.v == old(page.v)
      && table.entries == old(table.entries)
    ensures old(page.used) < page.size ==>
      && r == Ok((page.id, old(page.used)))
      && page.used == old(page.used) + 1
      && page.k == old(page.k)[(0, 0, old(page.used)) := rowK]
      && page.v == old(page.v)[(0, 0, old(page.used)) := rowV]
      && table.entries == old(table.entries) + [r.value]
  {
    var _ := pages.SetLast(page);
    r := DecodeInto(page, table, rowK, rowV);
  }

  /**
   * Decoding into a list whose last page is shared: copy-on-write (the
   * allocation's page_fault, then a copy_on_write event naming the shared
   * page and its copy), the copy replaces the list's last element, and the
   * token goes into the copy's first slot (none on a pool of zero-slot pages).
   */
  method DecodeShared(pool: PagePool, pages: PageList, table: PageTable, rowK: Vec, rowV: Vec) returns (r: Result<Entry>)
    requires pool.Valid() && (pool.logger != null ==> pool.logger.Valid())
    requires pages.items != [] && InUse(pool.used, LastOf(pages.items))
    modifies pool, pool.logger, pages, table, LastOf(pages.items)`refCount
    modifies pool.free`k, pool.free`v, pool.free`refCount, pool.free`used
    ensures pool.Valid() && (pool.logger != null ==> pool.logger.Valid())
    ensures var last, F := old(pages.items)[|old(pages.items)| - 1], old(pool.free);
      F == [] ==>
        && r == Err(RuntimeError(OutOfPagesMessage(pool.kind)))
        && pool.free == F && pool.used == old(pool.used) && pool.usedOrder == old(pool.usedOrder)
        && pages.items == old(pages.items) && table.entries == old(table.entries)
        && last.refCount == old(last.refCount)
        && (pool.logger != null ==> pool.logger.Logged([]))
    ensures var last, F := old(pages.items)[|old(pages.items)| - 1], old(pool.free);
      F != [] ==> var p := F[|F| - 1];
        && pool.free == F[..|F| - 1] && pool.used == old(pool.used)[p.id := p] && pool.usedOrder == old(pool.usedOrder) + [p.id]
        && p != last && p.id !in old(pool.used)
        && last.refCount == old(last.refCount) - 1 && p.refCount == 1
        && pages.items == old(pages.items)[..|old(pages.items)| - 1] + [p]
        && (pool.logger != null ==> pool.logger.Logged([PageFault(p.id), CopyOnWrite(last.id, p.id)]))
    ensures var last, F := old(pages.items)[|old(pages.items)| - 1], old(pool.free);
      F != [] && pool.pageSize > 0 ==> var p := F[|F| - 1];
        && r == Ok((p.id, 0)) && p.used == 1
        && p.k == old(last.k)[(0, 0, 0) := rowK] && p.v == old(last.v)[(0, 0, 0) := rowV]
        && table.entries == old(table.entries) + [(p.id, 0)]
    ensures var last, F := old(pages.items)[|old(pages.items)| - 1], old(pool.free);
      F != [] && pool.pageSize == 0 ==> var p := F[|F| - 1];
        && r == Err(RuntimeError(PageFullMessage)) && p.used == 0
        && p.k == old(last.k) && p.v == old(last.v) && table.entries == old(table.entries)
  {
    var c := CopyLast(pool, pages);
    if c.Err? {
      return Err(c.error);
    }
    var page := c.value;
    ghost var free, used, order := pool.free, pool.used, pool.usedOrder;
    assert pool.Valid() && page !in free;
    r := DecodeReplacing(pages, page, table, rowK, rowV);
    assert pool.free == free && pool.used == used && pool.usedOrder == order;
  }

  /**
   * Decoding one token after the prefix (the driver's `pages[-1]` through
   * `page_table.add`): an empty list fails with IndexError; a last page held
   * by this request alone takes the token in its next slot; a shared last
   * page is copied on write first (DecodeShared).
   */
  method Decode(pool: PagePool, pages: PageList, table: PageTable, rowK: Vec, rowV: Vec) returns (r: Result<Entry>)
    requires pool.Valid() && (pool.logger != null ==> pool.logger.Valid())
    requires InUse(pool.used, LastOf(pages.items))
    modifies pool, pool.logger, pages, table, LastOf(pages.items)`refCount, LastOf(pages.items)`used
    modifies LastOf(pages.items)`k, LastOf(pages.items)`v
    modifies pool.free`k, pool.free`v, pool.free`refCount, pool.free`used
    ensures pool.Valid() && (pool.logger != null ==> pool.logger.Valid())
    ensures old(pages.items) == [] ==>
      && r == Err(IndexError)
      && pool.free == old(pool.free) && pool.used == old(pool.used) && pool.usedOrder == old(pool.usedOrder)
      && pages.items == old(pages.items) && table.entries == old(table.entries)
      && (pool.logger != null ==> pool.logger.Logged([]))
    ensures old(pages.items) != [] ==> var last := old(pages.items)[|old(pages.items)| - 1];
      old(last.refCount) <= 1 ==>
        && pool.free == old(pool.free) && pool.used == old(pool.used) && pool.usedOrder == old(pool.usedOrder)
        && pages.items == old(pages.items) && last.refCount == old(last.refCount)
        && (pool.logger != null ==> pool.logger.Logged([]))
        && (old(last.used) >= last.size ==>
              && r == Err(RuntimeError(PageFullMessage))
              && last.used == old(last.used) && last.k == old(last.k) && last.v == old(last.v)
              && table.entries == old(table.entries))
        && (old(last.used) < last.size ==>
              && r == Ok((last.id, old(last.used)))
              && last.used == old(last.used) + 1
              && last.k == old(last.k)[(0, 0, old(last.used)) := rowK]
              && last.v == old(last.v)[(0, 0, old(last.used)) := rowV]
              && table.entries == old(table.entries) + [r.value])
    ensures old(pages.items) != [] ==> var last, F := old(pages.items)[|old(pages.items)| - 1], old(pool.free);
      old(last.refCount) > 1 && F == [] ==>
        && r == Err(RuntimeError(OutOfPagesMessage(pool.kind)))
        && pool.free == F && pool.used == old(pool.used) && pool.usedOrder == old(pool.usedOrder)
        && pages.items == old(pages.items) && table.entries == old(table.entries)
        && last.refCount == old(last.refCount)
        && (pool.logger != null ==> pool.logger.Logged([]))
    ensures old(pages.items) != [] ==> var last, F := old(pages.items)[|old(pages.items)| - 1], old(pool.free);
      old(last.refCount) > 1 && F != [] ==> var p := F[|F| - 1];
        && pool.free == F[..|F| - 1] && pool.used == old(pool.used)[p.id := p] && pool.usedOrder == old(pool.usedOrder) + [p.id]
        && p != last && p.id !in old(pool.used)
        && last.refCount == old(last.refCount) - 1 && p.refCount == 1
        && pages.items == old(pages.items)[..|old(pages.items)| - 1] + [p]
        && (pool.logger != null ==> pool.logger.Logged([PageFault(p.id), CopyOnWrite(last.id, p.id)]))
        && (pool.pageSize > 0 ==>
              && r == Ok((p.id, 0)) && p.used == 1
              && p.k == old(last.k)[(0, 0, 0) := rowK] && p.v == old(last.v)[(0, 0, 0) := rowV]
              && table.entries == old(table.entries) + [(p.id, 0)])
        && (pool.pageSize == 0 ==>
              && r == Err(RuntimeError(PageFullMessage)) && p.used == 0
              && p.k == old(last.k) && p.v == old(last.v) && table.entries == old(table.entries))
  {
    if pages.items == [] {
      return Err(IndexError);
    }
    var last := pages.items[|pages.items| - 1];
    assert LastOf(pages.items)[0] == last;
    if last.refCount > 1 {
      r := DecodeShared(pool, pages, table, rowK, rowV);
    } else {
      assert last !in pool.free by {
        InUseNotFree(pool.all, pool.free, pool.used, pool.usedOrder, last.id);
      }
      r := DecodeInto(last, table, rowK, rowV);
    }
  }

  // ---------------------------------------------------------------------
  // Giving pages back
  // ---------------------------------------------------------------------

  /**
   * The pages a cleanup loop over a list hands back to the pool, in list
   * order: those held once (refs, the ref counts before the loop) whose id
   * is in use (U, the in-use ids before the loop).
   */
  function Dropped(items: seq<Page>, refs: seq<int>, U: set<nat>): seq<Page>
    requires |refs| == |items|
    decreases |items|
  {
    if items == [] then []
    else
      var n := |items| - 1;
      Dropped(items[..n], refs[..n], U) + (if refs[n] == 1 && items[n].id in U then [items[n]] else [])
  }

  /** The page_freed events of the pages handed back, in order. */
  function FreedLog(ps: seq<Page>): (ds: seq<Details>)
    ensures |ds| == |ps| && forall k | 0 <= k < |ps| :: ds[k] == PageFreed(ps[k].id)
  {
    seq(|ps|, k requires 0 <= k < |ps| => PageFreed(ps[k].id))
  }

  /** The in-use order with the ids of the pages handed back removed one after the other. */
  function WithoutAll(order: seq<nat>, ps: seq<Page>): seq<nat>
    decreases |ps|
  {
    if ps == [] then order else Without(WithoutAll(order, ps[..|ps| - 1]), ps[|ps| - 1].id)
  }

  /** The pages handed back are pages of the list that were in use. */
  lemma {:induction false} DroppedFrom(items: seq<Page>, refs: seq<int>, U: set<nat>)
    requires |refs| == |items|
    ensures forall k | 0 <= k < |Dropped(items, refs, U)| ::
      Dropped(items, refs, U)[k] in items && Dropped(items, refs, U)[k].id in U
    decreases |items|
  {
    if items != [] {
      var n := |items| - 1;
      DroppedFrom(items[..n], refs[..n], U);
      var ps0 := Dropped(items[..n], refs[..n], U);
      assert forall k | 0 <= k < |ps0| :: ps0[k] in items[..n];
    }
  }

  /** One more page of the list seen: what the cleanup has handed back grows by that page or not at all. */
  lemma DroppedStep(items: seq<Page>, refs: seq<int>, U: set<nat>, order: seq<nat>, i: nat)
    requires |refs| == |items| && i < |items|
    ensures var ps := Dropped(items[..i], refs[..i], U);
      var drop := refs[i] == 1 && items[i].id in U;
      var one := if drop then [items[i]] else [];
      && Dropped(items[..i + 1], refs[..i + 1], U) == ps + one
      && FreedLog(ps + one) == FreedLog(ps) + (if drop then [PageFreed(items[i].id)] else [])
      && IdsOf(ps + one) == IdsOf(ps) + (if drop then {items[i].id} else {})
      && WithoutAll(order, ps + one) == (if drop then Without(WithoutAll(order, ps), items[i].id) else WithoutAll(order, ps))
  {
    assert items[..i + 1][..i] == items[..i] && refs[..i + 1][..i] == refs[..i];
    var ps := Dropped(items[..i], refs[..i], U);
    if refs[i] == 1 && items[i].id in U {
      var ps' := ps + [items[i]];
      assert ps'[..|ps|] == ps;
      assert forall k | 0 <= k < |ps| :: ps'[k] == ps[k];
      assert IdsOf(ps') == IdsOf(ps) + {items[i].id} by {
        assert ps'[|ps|] == items[i];
      }
    } else {
      assert ps + [] == ps;
    }
  }

  lemma AppendAssoc(a: seq<Page>, b: seq<Page>, c: seq<Page>)
    ensures a + b + c == a + (b + c)
  {
  }

  lemma MinusMinus(m: map<nat, Page>, a: set<nat>, b: set<nat>)
    ensures m - a - b == m - (a + b)
  {
  }

  /** When every page of a list is held once and in use, cleanup hands back the whole list. */
  lemma {:induction false} DroppedAll(items: seq<Page>, refs: seq<int>, U: set<nat>)
    requires |refs| == |items|
    requires forall i | 0 <= i < |items| :: refs[i] == 1 && items[i].id in U
    ensures Dropped(items, refs, U) == items
    decreases |items|
  {
    if items != [] {
      var n := |items| - 1;
      DroppedAll(items[..n], refs[..n], U);
      assert items[..n] + [items[n]] == items;
    }
  }

  /** When no page of a list is held once, cleanup hands back nothing. */
  lemma {:induction false} DroppedNone(items: seq<Page>, refs: seq<int>, U: set<nat>)
    requires |refs| == |items|
    requires forall i | 0 <= i < |items| :: refs[i] != 1
    ensures Dropped(items, refs, U) == []
    decreases |items|
  {
    if items != [] {
      var n := |items| - 1;
      DroppedNone(items[..n], refs[..n], U);
    }
  }

  /** When only the last page of a list is held once (and in use), cleanup hands back that page alone. */
  lemma DroppedOnlyLast(items: seq<Page>, refs: seq<int>, U: set<nat>)
    requires |refs| == |items| > 0
    requires forall i | 0 <= i < |items| - 1 :: refs[i] != 1
    requires refs[|items| - 1] == 1 && items[|items| - 1].id in U
    ensures Dropped(items, refs, U) == [items[|items| - 1]]
  {
    var n := |items| - 1;
    DroppedNone(items[..n], refs[..n], U);
  }

  /** When every page but the last is held once and in use, and the last is not held once, cleanup hands back all but the last. */
  lemma DroppedAllButLast(items: seq<Page>, refs: seq<int>, U: set<nat>)
    requires |refs| == |items| > 0
    requires forall i | 0 <= i < |items| - 1 :: refs[i] == 1 && items[i].id in U
    requires refs[|items| - 1] != 1
    ensures Dropped(items, refs, U) == items[..|items| - 1]
  {
    var n := |items| - 1;
    DroppedAll(items[..n], refs[..n], U);
  }

  /**
   * One turn of the instrumented cleanup loop: the ref count goes down by
   * one, and a page that reaches zero is freed by the instrumented pool
   * (page_freed, reset, pushed on the free list) when it is in use and left
   * alone when it is not.
   */
  method ReleaseOne(pool: PagePool, p: Page)
    requires pool.Valid() && pool.logger != null && pool.logger.Valid()
    requires p.id < |pool.all| && pool.all[p.id] == p
    modifies pool, pool.logger, p`refCount, p`used
    ensures pool.Valid() && pool.logger.Valid()
    ensures p.refCount == old(p.refCount) - 1
    ensures var drop := old(p.refCount) == 1 && p.id in old(pool.used);
      && pool.free == old(pool.free) + (if drop then [p] else [])
      && pool.used == old(pool.used) - (if drop then {p.id} else {})
      && pool.usedOrder == (if drop then Without(old(pool.usedOrder), p.id) else old(pool.usedOrder))
      && p.used == (if drop then 0 else old(p.used))
      && pool.logger.Logged(if drop then [PageFreed(p.id)] else [])
  {
    p.refCount := p.refCount - 1;
    if p.refCount == 0 {
      pool.FreePageInstrumented(p.id);
    } else {
      assert pool.logger.events == old(pool.logger.events) + [];
    }
  }

  /**
   * The pool and the log after the cleanup loop has seen the first i pages
   * of the list: the pages handed back so far are on the free list and out
   * of the in-use dictionary, and their page_freed events are logged.
   */
  ghost predicate ReleasedUpTo(pool: PagePool, items: seq<Page>, refs: seq<int>, U: set<nat>, i: nat,
                               free0: seq<Page>, used0: map<nat, Page>, order0: seq<nat>, E0: seq<Event>, rid: nat)
    requires |refs| == |items| && i <= |items|
    reads pool, pool.logger
  {
    var ps := Dropped(items[..i], refs[..i], U);
    && pool.free == free0 + ps
    && pool.used == used0 - IdsOf(ps)
    && pool.usedOrder == WithoutAll(order0, ps)
    && pool.logger != null
    && Extends(E0, pool.logger.events, rid, FreedLog(ps))
    && pool.logger.currentRequestId == rid
  }

  /** The counts of the pages after the first i turns of the cleanup loop (us: the used counts before it). */
  ghost predicate CountedUpTo(items: seq<Page>, refs: seq<int>, us: seq<nat>, U: set<nat>, i: nat)
    requires |refs| == |items| && |us| == |items|
    reads items
  {
    forall j | 0 <= j < |items| ::
      && items[j].refCount == refs[j] - (if j < i then 1 else 0)
      && items[j].used == (if j < i && refs[j] == 1 && items[j].id in U then 0 else us[j])
  }

  /** One turn of the cleanup loop, on the page at index i, keeps ReleasedUpTo one page further on. */
  method ReleaseAt(pool: PagePool, items: seq<Page>, i: nat, p: Page, ghost refs: seq<int>, ghost us: seq<nat>, ghost U: set<nat>,
                   ghost free0: seq<Page>, ghost used0: map<nat, Page>, ghost order0: seq<nat>, ghost E0: seq<Event>, ghost rid: nat)
    requires pool.Valid() && pool.logger != null && pool.logger.Valid()
    requires |refs| == |items| && |us| == |items| && i < |items| && DistinctIds(items) && OfPool(pool.all, items)
    requires used0.Keys == U && items[i] == p
    requires ReleasedUpTo(pool, items, refs, U, i, free0, used0, order0, E0, rid)
    requires CountedUpTo(items, refs, us, U, i)
    modifies pool, pool.logger, p`refCount, p`used
    ensures pool.Valid() && pool.logger.Valid()
    ensures ReleasedUpTo(pool, items, refs, U, i + 1, free0, used0, order0, E0, rid)
    ensures pool.logger.requestCounter == old(pool.logger.requestCounter)
    ensures CountedUpTo(items, refs, us, U, i + 1)
  {
    forall j | 0 <= j < |items| && j != i
      ensures items[j] != items[i]
    {
      IdsDiffer(items, i, j);
    }
    ReleaseTurn(pool, items, i, p, refs, U, free0, used0, order0, E0, rid);
  }

  /** The pool and log side of one turn of the cleanup loop. */
  method ReleaseTurn(pool: PagePool, items: seq<Page>, i: nat, p: Page, ghost refs: seq<int>, ghost U: set<nat>,
                   ghost free0: seq<Page>, ghost used0: map<nat, Page>, ghost order0: seq<nat>, ghost E0: seq<Event>, ghost rid: nat)
    requires pool.Valid() && pool.logger != null && pool.logger.Valid()
    requires |refs| == |items| && i < |items| && DistinctIds(items) && OfPool(pool.all, items)
    requires used0.Keys == U && items[i] == p && p.refCount == refs[i]
    requires ReleasedUpTo(pool, items, refs, U, i, free0, used0, order0, E0, rid)
    modifies pool, pool.logger, p`refCount, p`used
    ensures pool.Valid() && pool.logger.Valid()
    ensures ReleasedUpTo(pool, items, refs, U, i + 1, free0, used0, order0, E0, rid)
    ensures pool.logger.requestCounter == old(pool.logger.requestCounter)
    ensures items[i].refCount == refs[i] - 1
    ensures items[i].used == (if refs[i] == 1 && items[i].id in U then 0 else old(items[i].used))
  {
    ghost var ps := Dropped(items[..i], refs[..i], U);
    ghost var drop := refs[i] == 1 && items[i].id in U;
    ghost var E1 := pool.logger.events;
    assert items[i].id in pool.used <==> items[i].id in U by {
      DroppedFrom(items[..i], refs[..i], U);
      forall k | 0 <= k < |ps|
        ensures ps[k].id != items[i].id
      {
        var j :| 0 <= j < i && ps[k] == items[..i][j];
        IdsDiffer(items, j, i);
      }
    }
    ReleaseOne(pool, items[i]);
    DroppedStep(items, refs, U, order0, i);
    MinusMinus(used0, IdsOf(ps), if drop then {items[i].id} else {});
    ExtendsTrans(E0, E1, pool.logger.events, rid, FreedLog(ps), if drop then [PageFreed(items[i].id)] else []);
    ghost var ps' := ps + (if drop then [items[i]] else []);
    AppendAssoc(free0, ps, if drop then [items[i]] else []);
    assert Dropped(items[..i + 1], refs[..i + 1], U) == ps';
    assert pool.free == free0 + ps';
    assert pool.used == used0 - IdsOf(ps');
    assert pool.usedOrder == WithoutAll(order0, ps');
    assert Extends(E0, pool.logger.events, rid, FreedLog(ps'));
  }

  /**
   * The simulator's cleanup loop over one list (`for p in pages: p.ref_count
   * -= 1; if p.ref_count == 0: free_page(p.page_id)`): every page loses one
   * reference, and exactly the pages this list held last and that were in
   * use go back on the free list, each with a page_freed event, in list order.
   * `refs` names the ref counts the pages had on entry.
   */
  method Release(pool: PagePool, items: seq<Page>, ghost refs: seq<int>)
    requires pool.Valid() && pool.logger != null && pool.logger.Valid()
    requires DistinctIds(items) && OfPool(pool.all, items)
    requires refs == RefCounts(items)
    modifies pool, pool.logger, items`refCount, items`used
    ensures pool.Valid() && pool.logger.Valid()
    ensures forall i | 0 <= i < |items| :: items[i].refCount == refs[i] - 1
    ensures forall i | 0 <= i < |items| ::
      items[i].used == (if refs[i] == 1 && items[i].id in old(pool.used) then 0 else old(items[i].used))
    ensures var ps := Dropped(items, refs, old(pool.used).Keys);
      && pool.free == old(pool.free) + ps
      && pool.used == old(pool.used) - IdsOf(ps)
      && pool.usedOrder == WithoutAll(old(pool.usedOrder), ps)
      && pool.logger.Logged(FreedLog(ps))
  {
    ReleaseLoop(pool, items, refs);
    assert items[..|items|] == items && refs[..|items|] == refs;
  }

  /** The loop of Release, with what it has done stated through ReleasedUpTo. */
  method ReleaseLoop(pool: PagePool, items: seq<Page>, ghost refs: seq<int>)
    requires pool.Valid() && pool.logger != null && pool.logger.Valid()
    requires DistinctIds(items) && OfPool(pool.all, items)
    requires refs == RefCounts(items)
    modifies pool, pool.logger, items`refCount, items`used
    ensures pool.Valid() && pool.logger.Valid()
    ensures ReleasedUpTo(pool, items, refs, old(pool.used).Keys, |items|, old(pool.free), old(pool.used), old(pool.usedOrder),
                         old(pool.logger.events), old(pool.logger.currentRequestId))
    ensures pool.logger.requestCounter == old(pool.logger.requestCounter)
    ensures forall j | 0 <= j < |items| :: items[j].refCount == refs[j] - 1
    ensures forall j | 0 <= j < |items| ::
      items[j].used == (if refs[j] == 1 && items[j].id in old(pool.used) then 0 else old(items[j].used))
  {
    ghost var free0, used0, order0, U := pool.free, pool.used, pool.usedOrder, pool.used.Keys;
    ghost var us: seq<nat> := seq(|items|, j requires 0 <= j < |items| reads items => items[j].used);
    ghost var E0, rid, rc := pool.logger.events, pool.logger.currentRequestId, pool.logger.requestCounter;
    assert CountedUpTo(items, refs, us, U, 0);
    for i := 0 to |items|
      invariant pool.Valid() && pool.logger.Valid()
      invariant ReleasedUpTo(pool, items, refs, U, i, free0, used0, order0, E0, rid)
      invariant pool.logger.requestCounter == rc
      invariant CountedUpTo(items, refs, us, U, i)
    {
      ReleaseAt(pool, items, i, items[i], refs, us, U, free0, used0, order0, E0, rid);
    }
  }

  /** The index of the first page held once (refs are the ref counts), or the list's length if there is none. */
  function FirstHeldOnce(refs: seq<int>): (k: nat)
    ensures k <= |refs|
    ensures k < |refs| ==> refs[k] == 1
    ensures forall i | 0 <= i < k :: refs[i] != 1
  {
    if refs == [] then 0
    else if refs[0] == 1 then 0
    else 1 + FirstHeldOnce(refs[1..])
  }

  /**
   * The day-5 driver's cleanup loop over one list on the plain pool: every
   * page loses one reference until the first whose count reaches zero, where
   * the plain free_page fails with UnboundLocalError and the loop stops;
   * the pool itself never changes.
   */
  method ReleasePlain(pool: PagePool, items: seq<Page>) returns (r: Result<()>)
    requires DistinctIds(items)
    modifies items`refCount
    ensures var refs := old(RefCounts(items)); var k := FirstHeldOnce(refs);
      && (r.Err? <==> k < |items|)
      && (r.Err? ==> r.error == UnboundLocalError("page"))
      && forall i | 0 <= i < |items| :: items[i].refCount == refs[i] - (if i <= k then 1 else 0)
  {
    ghost var refs := RefCounts(items);
    for i := 0 to |items|
      invariant forall j | 0 <= j < |items| :: items[j].refCount == refs[j] - (if j < i then 1 else 0)
      invariant forall j | 0 <= j < i :: refs[j] != 1
    {
      forall j | 0 <= j < |items| && j != i
        ensures items[j] != items[i]
      {
        IdsDiffer(items, i, j);
      }
      items[i].refCount := items[i].refCount - 1;
      if items[i].refCount == 0 {
        FirstHeldOnceAt(refs, i);
        r := pool.FreePagePlain(items[i].id);
        return;
      }
    }
    FirstHeldOnceAt(refs, |items|);
    r := Ok(());
  }

  /** FirstHeldOnce is the first index whose count is one. */
  lemma {:induction false} FirstHeldOnceAt(refs: seq<int>, k: nat)
    requires k <= |refs| && (k < |refs| ==> refs[k] == 1)
    requires forall i | 0 <= i < k :: refs[i] != 1
    ensures FirstHeldOnce(refs) == k
    decreases k
  {
    if k > 0 {
      FirstHeldOnceAt(refs[1..], k - 1);
    }
  }
}
