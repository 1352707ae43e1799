/**
 * `main` of comparison/driver_day4.py: a self-contained pool of 4 pages of 4
 * slots (1 layer, 2 heads), 16 tokens written page by page through an
 * allocate_slot that does not check for room, then the contiguous K and V
 * built from the table and the paged gather of every head, which read the
 * same rows. The attention arithmetic on those rows (scores, softmax,
 * weighted sum) is floating point and is not modelled.
 */
module DriverDay4 {
  import opened Common
  import opened Pages
  import opened Pool
  import opened PageTables
  import opened Prefix
  import opened PagedReader

  const Day4Layers: nat := 1
  const Day4Heads: nat := 2
  const Day4PageSize: nat := 4
  const Day4Pages: nat := 4
  const Day4Tokens: nat := 16

  /** The `pages` dictionary of the driver: every page the build took, under its id, and nothing else. */
  ghost predicate Indexed(pages: map<nat, Page>, items: seq<Page>)
  {
    && pages.Keys == IdsOf(items)
    && forall i | 0 <= i < |items| :: items[i].id in pages && pages[items[i].id] == items[i]
  }

  lemma IndexedSnoc(pages: map<nat, Page>, items: seq<Page>, p: Page)
    requires Indexed(pages, items) && DistinctIds(items + [p])
    ensures Indexed(pages[p.id := p], items + [p])
  {
    var items' := items + [p];
    assert IdsOf(items') == IdsOf(items) + {p.id} by {
      assert forall i | 0 <= i < |items| :: items'[i] == items[i];
      assert items'[|items|] == p;
    }
    forall i | 0 <= i < |items|
      ensures items[i].id != p.id
    {
      IdsDiffer(items', i, |items|);
    }
  }

  // ---------------------------------------------------------------------
  // The fill loop (lines 119-135)
  // ---------------------------------------------------------------------

  /**
   * The driver's `allocate_slot`: the last page of the build hands out its
   * next slot without checking for room (the loop checked `has_space`, or
   * the page is new). Nothing else changes.
   */
  method TakeSlotUnchecked(pool: PagePool, p: Page, items: seq<Page>, ghost us: seq<nat>) returns (slot: nat)
    requires pool.Valid() && items != [] && Mirror(items, us) && DistinctIds(items)
    requires p == items[|items| - 1] && p.id in pool.used && pool.used[p.id] == p
    modifies p`used
    ensures pool.Valid() && p !in pool.free
    ensures slot == us[|us| - 1] && Mirror(items, Bump(us))
  {
    InUseNotFree(pool.all, pool.free, pool.used, pool.usedOrder, p.id);
    slot := p.AllocateSlotUnchecked();
    forall i | 0 <= i < |items| - 1
      ensures items[i].used == us[i]
    {
      IdsDiffer(items, i, |items| - 1);
    }
  }

  /** The next slot of the current page, which has room; the dictionary is unchanged. */
  method ClaimCurrentDay4(pool: PagePool, items: seq<Page>, current: Page?, ghost us: seq<nat>, ghost entries: seq<Entry>,
                          ghost F: seq<Page>, ghost U: set<nat>)
    returns (r: Result<(Page, nat)>, items': seq<Page>, ghost us': seq<nat>)
    requires pool.Valid() && pool.logger == null
    requires Drawn(pool.free, pool.used, items, F, U, pool.pageSize, pool.numLayers, pool.numHeads)
    requires Current(items, current) && Mirror(items, us) && Layout(us, items, entries, pool.pageSize)
    requires current != null && current.used < current.size
    modifies F`used
    ensures pool.Valid() && !PrefixFails(|entries| + 1, pool.pageSize, |F|)
    ensures r.Ok? && items' == items
    ensures var (p, slot) := r.value;
      && p !in pool.free && slot > 0
      && Drawn(pool.free, pool.used, items', F, U, pool.pageSize, pool.numLayers, pool.numHeads)
      && Current(items', p) && Mirror(items', us') && (p.id, slot) !in entries
      && Layout(us', items', entries + [(p.id, slot)], pool.pageSize)
  {
    FillPage(us, items, entries, pool.pageSize);
    us' := Bump(us);
    var slot := TakeSlotUnchecked(pool, current, items, us);
    return Ok((current, slot)), items, us';
  }

  /**
   * A page from the pool, there being no current page or no room on it:
   * the pool's OOM error when the free list is empty; otherwise the popped
   * page goes into the `pages` dictionary under its id and hands out slot 0.
   */
  method ClaimFreshDay4(pool: PagePool, items: seq<Page>, current: Page?, pages: map<nat, Page>, ghost us: seq<nat>,
                        ghost entries: seq<Entry>, ghost F: seq<Page>, ghost U: set<nat>)
    returns (r: Result<(Page, nat)>, items': seq<Page>, pages': map<nat, Page>, ghost us': seq<nat>)
    requires pool.Valid() && pool.logger == null && pool.pageSize > 0
    requires Drawn(pool.free, pool.used, items, F, U, pool.pageSize, pool.numLayers, pool.numHeads)
    requires Current(items, current) && Mirror(items, us) && Layout(us, items, entries, pool.pageSize)
    requires current == null || current.used >= pool.pageSize
    requires Indexed(pages, items)
    modifies pool, F`used
    ensures pool.Valid()
    ensures r.Err? <==> PrefixFails(|entries| + 1, pool.pageSize, |F|)
    ensures r.Err? ==> r.error == RuntimeError(OutOfPagesMessage(pool.kind))
    ensures r.Ok? ==> var (p, slot) := r.value;
      && p !in pool.free && slot == 0 && items' == items + [p] && Indexed(pages', items')
      && Drawn(pool.free, pool.used, items', F, U, pool.pageSize, pool.numLayers, pool.numHeads)
      && Current(items', p) && Mirror(items', us') && (p.id, slot) !in entries
      && Layout(us', items', entries + [(p.id, slot)], pool.pageSize)
  {
    var a := TakePage(pool, items, current, us, entries, F, U);
    if a.Err? {
      return Err(a.error), items, pages, us;
    }
    var p := a.value;
    pages' := pages[p.id := p];
    items' := items + [p];
    us' := Bump(us + [0]);
    var slot := TakeSlotUnchecked(pool, p, items', us + [0]);
    IndexedSnoc(pages, items, p);
    r := Ok((p, slot));
  }

  /**
   * The page and slot of the next token: the current page's next slot when
   * it has room, otherwise slot 0 of a page popped from the pool and added
   * to the dictionary.
   */
  method ClaimDay4(pool: PagePool, items: seq<Page>, current: Page?, pages: map<nat, Page>, ghost us: seq<nat>,
                   ghost entries: seq<Entry>, ghost F: seq<Page>, ghost U: set<nat>)
    returns (r: Result<(Page, nat)>, items': seq<Page>, pages': map<nat, Page>, ghost us': seq<nat>)
    requires pool.Valid() && pool.logger == null && pool.pageSize > 0
    requires Drawn(pool.free, pool.used, items, F, U, pool.pageSize, pool.numLayers, pool.numHeads)
    requires Current(items, current) && Mirror(items, us) && Layout(us, items, entries, pool.pageSize)
    requires Indexed(pages, items)
    modifies pool, F`used
    ensures pool.Valid()
    ensures r.Err? <==> PrefixFails(|entries| + 1, pool.pageSize, |F|)
    ensures r.Err? ==> r.error == RuntimeError(OutOfPagesMessage(pool.kind))
    ensures r.Ok? ==> var (p, slot) := r.value;
      && p !in pool.free && items' == (if slot == 0 then items + [p] else items) && Indexed(pages', items')
      && Drawn(pool.free, pool.used, items', F, U, pool.pageSize, pool.numLayers, pool.numHeads)
      && Current(items', p) && Mirror(items', us') && (p.id, slot) !in entries
      && Layout(us', items', entries + [(p.id, slot)], pool.pageSize)
  {
    if current != null && current.HasSpace() {
      r, items', us' := ClaimCurrentDay4(pool, items, current, us, entries, F, U);
      pages' := pages;
    } else {
      r, items', pages', us' := ClaimFreshDay4(pool, items, current, pages, us, entries, F, U);
    }
  }

  /** Token t's page and slot, claimed, and its rows written there. */
  method PlaceDay4(pool: PagePool, t: nat, items: seq<Page>, current: Page?, pages: map<nat, Page>, ghost us: seq<nat>,
                   ghost entries: seq<Entry>, ghost kvs: seq<Tensors>, ghost F: seq<Page>, ghost U: set<nat>, fwdK: Forward, fwdV: Forward)
    returns (r: Result<(Page, nat)>, items': seq<Page>, pages': map<nat, Page>, ghost us': seq<nat>, ghost kvs': seq<Tensors>)
    requires pool.Valid() && pool.logger == null && pool.pageSize > 0
    requires Drawn(pool.free, pool.used, items, F, U, pool.pageSize, pool.numLayers, pool.numHeads)
    requires Current(items, current) && Mirror(items, us) && Layout(us, items, entries, pool.pageSize)
    requires |entries| == t && Holds(items, kvs) && Filled(kvs, entries, pool.pageSize, pool.numLayers, pool.numHeads, fwdK, fwdV)
    requires Indexed(pages, items)
    modifies pool, F`used, F`k, F`v
    ensures pool.Valid()
    ensures r.Err? <==> PrefixFails(t + 1, pool.pageSize, |F|)
    ensures r.Err? ==> r.error == RuntimeError(OutOfPagesMessage(pool.kind))
    ensures r.Ok? ==>
      var entries' := entries + [(r.value.0.id, r.value.1)];
      && Drawn(pool.free, pool.used, items', F, U, pool.pageSize, pool.numLayers, pool.numHeads)
      && Current(items', r.value.0) && Mirror(items', us') && Layout(us', items', entries', pool.pageSize)
      && Indexed(pages', items')
      && Holds(items', kvs') && Filled(kvs', entries', pool.pageSize, pool.numLayers, pool.numHeads, fwdK, fwdV)
  {
    var c;
    c, items', pages', us' := ClaimDay4(pool, items, current, pages, us, entries, F, U);
    assert Holds(items, kvs);
    if c.Err? {
      return Err(c.error), items', pages', us', kvs;
    }
    var p, slot := c.value.0, c.value.1;
    kvs' := WriteClaimed(pool, p, slot, t, items, items', us', entries, kvs, F, U, fwdK, fwdV);
    r := Ok((p, slot));
  }

  /** `page_table.add(page.page_id, slot)`, which touches no page and not the pool. */
  method AddEntry(table: PageTable, pool: PagePool, items: seq<Page>, ghost us: seq<nat>, ghost kvs: seq<Tensors>, e: Entry)
    requires pool.Valid() && Mirror(items, us) && Holds(items, kvs)
    modifies table
    ensures table.entries == old(table.entries) + [e]
    ensures pool.Valid() && Mirror(items, us) && Holds(items, kvs)
  {
    table.Add(e.0, e.1);
  }

  /**
   * One token of the fill loop: its page and slot claimed, its K and V rows
   * for every layer and head written there, and (page id, slot) appended to
   * the table.
   */
  method TokenDay4(pool: PagePool, table: PageTable, t: nat, items: seq<Page>, current: Page?, pages: map<nat, Page>,
                   ghost us: seq<nat>, ghost kvs: seq<Tensors>, ghost F: seq<Page>, ghost U: set<nat>, fwdK: Forward, fwdV: Forward)
    returns (r: Result<Page>, items': seq<Page>, pages': map<nat, Page>, ghost us': seq<nat>, ghost kvs': seq<Tensors>)
    requires pool.Valid() && pool.logger == null && pool.pageSize > 0
    requires Drawn(pool.free, pool.used, items, F, U, pool.pageSize, pool.numLayers, pool.numHeads)
    requires Current(items, current) && Mirror(items, us) && Layout(us, items, table.entries, pool.pageSize)
    requires |table.entries| == t && Holds(items, kvs) && Filled(kvs, table.entries, pool.pageSize, pool.numLayers, pool.numHeads, fwdK, fwdV)
    requires Indexed(pages, items)
    modifies pool, table, F`used, F`k, F`v
    ensures pool.Valid()
    ensures r.Err? <==> PrefixFails(t + 1, pool.pageSize, |F|)
    ensures r.Err? ==> r.error == RuntimeError(OutOfPagesMessage(pool.kind))
    ensures r.Ok? ==>
      && Drawn(pool.free, pool.used, items', F, U, pool.pageSize, pool.numLayers, pool.numHeads)
      && Current(items', r.value) && Mirror(items', us') && Layout(us', items', table.entries, pool.pageSize)
      && |table.entries| == t + 1 && Indexed(pages', items')
      && Holds(items', kvs') && Filled(kvs', table.entries, pool.pageSize, pool.numLayers, pool.numHeads, fwdK, fwdV)
  {
    var c;
    ghost var entries := table.entries;
    c, items', pages', us', kvs' := PlaceDay4(pool, t, items, current, pages, us, entries, kvs, F, U, fwdK, fwdV);
    if c.Err? {
      return Err(c.error), items', pages', us', kvs';
    }
    AddEntry(table, pool, items', us', kvs', (c.value.0.id, c.value.1));
    r := Ok(c.value.0);
  }

  /**
   * The fill loop for n tokens on a pool without a logger: the pool's OOM
   * error exactly when the free pages cannot hold n tokens; otherwise the
   * pages taken from the free list in pop order, each in the dictionary
   * under its id, and the table laying token t at slot t mod s of page t / s
   * of the build, where its rows are stored.
   */
  method FillDay4(pool: PagePool, table: PageTable, n: nat, fwdK: Forward, fwdV: Forward)
    returns (r: Result<map<nat, Page>>, items: seq<Page>)
    requires pool.Valid() && pool.logger == null && pool.pageSize > 0 && table.entries == []
    modifies pool, table, pool.free`used, pool.free`k, pool.free`v
    ensures pool.Valid()
    ensures r.Err? <==> PrefixFails(n, pool.pageSize, |old(pool.free)|)
    ensures r.Err? ==> r.error == RuntimeError(OutOfPagesMessage(pool.kind))
    ensures r.Ok? ==>
      && PrefixBuilt(items, table.entries, n, pool.pageSize, fwdK, fwdV)
      && Drawn(pool.free, pool.used, items, old(pool.free), old(pool.used).Keys, pool.pageSize, pool.numLayers, pool.numHeads)
      && Indexed(r.value, items)
  {
    var S := pool.pageSize;
    ghost var F := pool.free;
    ghost var U := pool.used.Keys;
    items := [];
    var pages: map<nat, Page> := map[];
    var current: Page? := null;
    ghost var us: seq<nat> := [];
    ghost var kvs: seq<Tensors> := [];
    var t := 0;
    while t < n
      invariant 0 <= t <= n && pool.Valid()
      invariant Drawn(pool.free, pool.used, items, F, U, S, pool.numLayers, pool.numHeads)
      invariant Current(items, current) && Mirror(items, us) && Layout(us, items, table.entries, S)
      invariant |table.entries| == t && !PrefixFails(t, S, |F|) && Indexed(pages, items)
      invariant Holds(items, kvs) && Filled(kvs, table.entries, S, pool.numLayers, pool.numHeads, fwdK, fwdV)
    {
      var c, items', pages', us', kvs' := TokenDay4(pool, table, t, items, current, pages, us, kvs, F, U, fwdK, fwdV);
      if c.Err? {
        FailsMono(t + 1, n, S, |F|);
        return Err(c.error), items;
      }
      items, pages, us, kvs := items', pages', us', kvs';
      current := c.value;
      t := t + 1;
    }
    Finished(items, us, table.entries, kvs, n, S, pool.numLayers, pool.numHeads, fwdK, fwdV);
    r := Ok(pages);
  }

  // ---------------------------------------------------------------------
  // Contiguous K/V and the paged gather (lines 98-105, 141-170)
  // ---------------------------------------------------------------------

  /** Every entry names a page of the dictionary, and a slot and this head inside it at layer 0. */
  predicate Addressable(pages: map<nat, Page>, entries: seq<Entry>, head: nat)
  {
    forall t | 0 <= t < |entries| :: entries[t].0 in pages && pages[entries[t].0].InBounds((0, head, entries[t].1))
  }

  /**
   * Column `head` of `K_naive` and of `V_naive`: row t is the cell at
   * layer 0, that head and entry t's slot of the page the dictionary holds
   * under entry t's page id.
   */
  function NaiveColumn(pages: map<nat, Page>, entries: seq<Entry>, head: nat): (kv: (seq<Vec>, seq<Vec>))
    requires Addressable(pages, entries, head)
    reads pages.Values
    ensures |kv.0| == |entries| && |kv.1| == |entries|
  {
    (seq(|entries|, t requires 0 <= t < |entries| reads pages.Values => pages[entries[t].0].ReadK((0, head, entries[t].1))),
     seq(|entries|, t requires 0 <= t < |entries| reads pages.Values => pages[entries[t].0].ReadV((0, head, entries[t].1))))
  }

  /**
   * The paged gather of a head at layer 0 reads exactly the contiguous
   * column, when every entry names a page of the dictionary and a slot and
   * head inside that page.
   */
  lemma GatherIsNaive(pages: map<nat, Page>, entries: seq<Entry>, head: nat)
    requires entries != []
    requires Addressable(pages, entries, head)
    ensures GatherResult(ById(pages), entries, 0, head) == Ok(NaiveColumn(pages, entries, head))
  {
    var kv := NaiveColumn(pages, entries, head);
    forall t | 0 <= t < |entries|
      ensures ReadEntry(ById(pages), entries[t], 0, head) == Ok((kv.0[t], kv.1[t]))
    {
    }
    GatherRowsMeaning(ById(pages), entries, 0, head);
    var rows := GatherRows(ById(pages), entries, 0, head).value;
    assert rows.0 == kv.0 && rows.1 == kv.1;
  }

  /** `multi_head_paged_attention`'s gathers: one per head, in head order. Reads only. */
  method MultiHeadGather(pages: PageIndex, table: PageTable, layer: nat, numHeads: nat)
    returns (outs: seq<Result<(seq<Vec>, seq<Vec>)>>)
    ensures |outs| == numHeads
    ensures forall h | 0 <= h < numHeads :: outs[h] == GatherResult(pages, table.entries, layer, h)
  {
    outs := [];
    for h := 0 to numHeads
      invariant |outs| == h
      invariant forall h' | 0 <= h' < h :: outs[h'] == GatherResult(pages, table.entries, layer, h')
    {
      // the gathers so far read pages that exist before this one, which changes none of them
      assert forall p | p in PagesOf(pages) :: allocated(p);
      var out := Gather(pages, table, layer, h);
      outs := outs + [out];
    }
  }

  // ---------------------------------------------------------------------
  // main
  // ---------------------------------------------------------------------

  /** Entry t of the day-4 table: page num_pages - 1 - t / page_size (pages are popped from the end), slot t mod page_size. */
  function Day4Entry(t: nat): Entry
    requires t < Day4Tokens
  {
    (Day4Pages - 1 - t / Day4PageSize, t % Day4PageSize)
  }

  /** The rows the model produced for one head at layer 0, in token order. */
  function TokenRows(fwdK: Forward, fwdV: Forward, n: nat, head: nat): (kv: (seq<Vec>, seq<Vec>))
    ensures |kv.0| == n && |kv.1| == n
  {
    (seq(n, t requires 0 <= t < n => fwdK(0, head, t)), seq(n, t requires 0 <= t < n => fwdV(0, head, t)))
  }

  /** Stored rows, read back at layer 0. */
  lemma StoredAtLayer0(p: Page, slot: nat, u: nat, h: nat, fwdK: Forward, fwdV: Forward)
    requires Stored(p, slot, u, fwdK, fwdV) && 0 < p.numLayers && h < p.numHeads
    ensures p.ReadK((0, h, slot)) == fwdK(0, h, u) && p.ReadV((0, h, slot)) == fwdV(0, h, u)
  {
    assert RowsIn((p.k, p.v), p.numLayers, p.numHeads, slot, u, fwdK, fwdV);
  }

  /**
   * What the fill leaves on the driver's fresh pool: the table is the
   * day-4 layout, every entry names a dictionary page and a slot and head
   * inside it, and the contiguous column of every head holds the tokens'
   * rows in token order.
   */
  lemma Day4Layout(items: seq<Page>, entries: seq<Entry>, pages: map<nat, Page>, F: seq<Page>, free: seq<Page>,
                   used: map<nat, Page>, fwdK: Forward, fwdV: Forward)
    requires |F| == Day4Pages && forall j | 0 <= j < |F| :: F[j].id == j
    requires PrefixBuilt(items, entries, Day4Tokens, Day4PageSize, fwdK, fwdV)
    requires Drawn(free, used, items, F, {}, Day4PageSize, Day4Layers, Day4Heads) && Indexed(pages, items)
    ensures |entries| == Day4Tokens && forall t | 0 <= t < Day4Tokens :: entries[t] == Day4Entry(t)
    ensures forall h | 0 <= h < Day4Heads :: Addressable(pages, entries, h)
    ensures forall h | 0 <= h < Day4Heads :: NaiveColumn(pages, entries, h) == TokenRows(fwdK, fwdV, Day4Tokens, h)
  {
    PageCountExamples();
    assert |items| == Day4Pages;
    forall t | 0 <= t < Day4Tokens
      ensures entries[t] == Day4Entry(t) && entries[t].0 in pages && pages[entries[t].0] == items[t / Day4PageSize]
    {
      var i := t / Day4PageSize;
      assert entries[t] == (items[i].id, t % Day4PageSize);
      assert items[i] == F[Day4Pages - 1 - i];
    }
    forall h | 0 <= h < Day4Heads
      ensures NaiveColumn(pages, entries, h) == TokenRows(fwdK, fwdV, Day4Tokens, h)
    {
      var col, want := NaiveColumn(pages, entries, h), TokenRows(fwdK, fwdV, Day4Tokens, h);
      forall t | 0 <= t < Day4Tokens
        ensures col.0[t] == want.0[t] && col.1[t] == want.1[t]
      {
        var p := items[t / Day4PageSize];
        StoredAtLayer0(p, t % Day4PageSize, t, h, fwdK, fwdV);
      }
      assert col.0 == want.0 && col.1 == want.1;
    }
  }

  /**
   * The first half of `main` (lines 110-135): a fresh pool of 4 pages of 4
   * slots, 16 tokens filled in without running out, token t at slot t mod 4
   * of page 3 - t / 4; every entry names a dictionary page and a slot and
   * head inside it, and the contiguous column of every head holds the
   * tokens' rows in token order.
   */
  method Day4Fill(fwdK: Forward, fwdV: Forward) returns (table: PageTable, pages: map<nat, Page>)
    ensures |table.entries| == Day4Tokens && forall t | 0 <= t < Day4Tokens :: table.entries[t] == Day4Entry(t)
    ensures forall h | 0 <= h < Day4Heads :: Addressable(pages, table.entries, h)
    ensures forall h | 0 <= h < Day4Heads :: NaiveColumn(pages, table.entries, h) == TokenRows(fwdK, fwdV, Day4Tokens, h)
  {
    var pool := new PagePool(Day4, null, Day4Pages, Day4PageSize, Day4Layers, Day4Heads);
    table := new PageTable();
    ghost var F := pool.free;
    assert |F| == Day4Pages && forall j | 0 <= j < |F| :: F[j].id == j;
    assert pool.used.Keys == {};
    PageCountExamples();
    assert !PrefixFails(Day4Tokens, Day4PageSize, |F|);
    var fill, items := FillDay4(pool, table, Day4Tokens, fwdK, fwdV);
    pages := fill.value;
    Day4Layout(items, table.entries, pages, F, pool.free, pool.used, fwdK, fwdV);
  }

  /**
   * `main` of the day-4 driver, the model's K and V rows given as fwdK and
   * fwdV: 16 tokens fill the 4 pages without running out, token t landing
   * at slot t mod 4 of page 3 - t / 4; and for each of the 2 heads the paged
   * gather succeeds with exactly the contiguous column, which holds the
   * tokens' rows in token order.
   */
  method Day4Main(fwdK: Forward, fwdV: Forward)
    returns (entries: seq<Entry>, paged: seq<Result<(seq<Vec>, seq<Vec>)>>, naive: seq<(seq<Vec>, seq<Vec>)>)
    ensures |entries| == Day4Tokens && forall t | 0 <= t < Day4Tokens :: entries[t] == Day4Entry(t)
    ensures |paged| == Day4Heads && |naive| == Day4Heads
    ensures forall h | 0 <= h < Day4Heads :: paged[h] == Ok(naive[h])
    ensures forall h | 0 <= h < Day4Heads :: naive[h] == TokenRows(fwdK, fwdV, Day4Tokens, h)
  {
    var table, pages := Day4Fill(fwdK, fwdV);
    entries := table.entries;
    naive := [NaiveColumn(pages, entries, 0), NaiveColumn(pages, entries, 1)];
    paged := MultiHeadGather(ById(pages), table, 0, Day4Heads);
    GatherIsNaive(pages, entries, 0);
    GatherIsNaive(pages, entries, 1);
  }
}
