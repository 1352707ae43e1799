/**
 * The page pool: a free list used as a stack plus an in-use dictionary keyed
 * by page id. The repository has four pool classes that share allocation and
 * differ in their out-of-pages message and in `free_page`; `PoolKind` says
 * which one a pool is.
 */
module Pool {
  import opened Common
  import opened Pages
  import opened EventLog

  datatype PoolKind =
    | Plain         // pages/page_pool.py
    | KvCache       // kv-cache/page_pool.py
    | Day4          // the pool of comparison/driver_day4.py (no free_page)
    | Instrumented  // InstrumentedPagePool of backend/simulator.py

  function OutOfPagesMessage(kind: PoolKind): string
  {
    if kind == Day4 then "OOM: No KV pages left" else "we are out of pages"
  }

  function IdsOf(ps: seq<Page>): set<nat>
  {
    set j | 0 <= j < |ps| :: ps[j].id
  }

  /** The sequence with every occurrence of x removed. */
  function Without(s: seq<nat>, x: nat): (r: seq<nat>)
    ensures forall y :: y in r <==> y in s && y != x
  {
    if s == [] then []
    else (if s[0] == x then [] else [s[0]]) + Without(s[1..], x)
  }

  lemma {:induction false} WithoutDistinct(s: seq<nat>, x: nat)
    requires DistinctKeys(s)
    ensures DistinctKeys(Without(s, x))
    decreases |s|
  {
    if s != [] {
      WithoutDistinct(s[1..], x);
      var tail := Without(s[1..], x);
      if s[0] != x {
        assert s[0] !in tail;
        assert ([s[0]] + tail)[1..] == tail;
      } else {
        assert Without(s, x) == [] + tail == tail;
      }
    }
  }

  lemma {:induction false} DistinctIdsSize(ps: seq<Page>)
    requires DistinctIds(ps)
    ensures |IdsOf(ps)| == |ps|
    decreases |ps|
  {
    if ps != [] {
      var init := ps[..|ps| - 1];
      DistinctInit(ps);
      DistinctIdsSize(init);
      assert IdsOf(ps) == IdsOf(init) + {ps[|ps| - 1].id};
    }
  }

  /** A page's displayed state, as listed by `page_states` in the simulator. */
  datatype PageState = PageState(pageId: nat, usedSlots: nat, totalSlots: nat, refCount: int, isFreed: bool)

  lemma Halves<T>(a: seq<T>, b: seq<T>, n: nat)
    requires |a| == n
    ensures forall j | 0 <= j < n :: (a + b)[j] == a[j]
    ensures forall j | 0 <= j < |b| :: (a + b)[n + j] == b[j]
  {
  }

  /** The state shown for page p; `freed` says whether p is off the in-use dictionary. */
  function StateOf(p: Page, freed: bool): PageState
    reads p
  {
    PageState(p.id, p.used, p.size, p.refCount, freed)
  }

  function StateIds(states: seq<PageState>): set<nat>
  {
    set j | 0 <= j < |states| :: states[j].pageId
  }

  /**
   * The id of page j of ps, as a term of its own: distinctness below is
   * stated over it, so that it is brought in only where a proof names it.
   */
  function IdAt(ps: seq<Page>, j: nat): nat
    requires j < |ps|
  {
    ps[j].id
  }

  ghost predicate DistinctIds(ps: seq<Page>)
  {
    forall j, j' | 0 <= j < j' < |ps| :: IdAt(ps, j) != IdAt(ps, j')
  }

  lemma IdsDiffer(ps: seq<Page>, j: nat, j': nat)
    requires DistinctIds(ps) && j < |ps| && j' < |ps| && j != j'
    ensures ps[j].id != ps[j'].id
  {
    if j < j' {
      assert IdAt(ps, j) != IdAt(ps, j');
    } else {
      assert IdAt(ps, j') != IdAt(ps, j);
    }
  }

  /** Without its last page, ps still has distinct ids, none of them the last page's. */
  lemma DistinctInit(ps: seq<Page>)
    requires DistinctIds(ps) && ps != []
    ensures DistinctIds(ps[..|ps| - 1]) && ps[|ps| - 1].id !in IdsOf(ps[..|ps| - 1])
  {
    var init := ps[..|ps| - 1];
    forall j, j' | 0 <= j < j' < |init|
      ensures IdAt(init, j) != IdAt(init, j')
    {
      IdsDiffer(ps, j, j');
    }
    forall j | 0 <= j < |init|
      ensures init[j].id != ps[|ps| - 1].id
    {
      IdsDiffer(ps, j, |ps| - 1);
    }
  }

  /** Appending a page with a new id keeps the ids distinct. */
  lemma DistinctSnoc(ps: seq<Page>, p: Page)
    requires DistinctIds(ps) && p.id !in IdsOf(ps)
    ensures DistinctIds(ps + [p])
  {
    var ps' := ps + [p];
    forall j, j' | 0 <= j < j' < |ps'|
      ensures IdAt(ps', j) != IdAt(ps', j')
    {
      if j' < |ps| {
        IdsDiffer(ps, j, j');
      } else {
        assert ps[j].id in IdsOf(ps);
      }
    }
  }

  /** No id occurs twice in s. */
  ghost predicate DistinctKeys(s: seq<nat>)
    decreases |s|
  {
    s != [] ==> s[0] !in s[1..] && DistinctKeys(s[1..])
  }

  lemma {:induction false} KeysDiffer(s: seq<nat>, j: nat, j': nat)
    requires DistinctKeys(s) && j < j' < |s|
    ensures s[j] != s[j']
    decreases j
  {
    if j == 0 {
      assert s[j'] == s[1..][j' - 1];
    } else {
      KeysDiffer(s[1..], j - 1, j' - 1);
    }
  }

  lemma {:induction false} DistinctKeysSnoc(s: seq<nat>, x: nat)
    requires DistinctKeys(s) && x !in s
    ensures DistinctKeys(s + [x])
    decreases |s|
  {
    if s != [] {
      DistinctKeysSnoc(s[1..], x);
      assert (s + [x])[1..] == s[1..] + [x];
    }
  }

  /**
   * The pool's bookkeeping over the pages `all` (page i has id i): free pages
   * and in-use pages are pages of `all`, no id is on the free list twice or
   * both free and in use, and `order` lists the in-use ids once each.
   */
  ghost predicate Shape(all: seq<Page>, free: seq<Page>, used: map<nat, Page>, order: seq<nat>)
  {
    && (forall i | 0 <= i < |all| :: all[i].id == i)
    && (forall j | 0 <= j < |free| :: free[j].id < |all| && all[free[j].id] == free[j])
    && DistinctIds(free)
    && (forall id | id in used :: id < |all| && used[id] == all[id] && id !in IdsOf(free))
    && (forall j | 0 <= j < |order| :: order[j] in used)
    && (forall id | id in used :: id in order)
    && DistinctKeys(order)
  }

  /** Every page id is free or in use. */
  ghost predicate Covers(n: nat, free: seq<Page>, used: map<nat, Page>)
  {
    forall id: nat | id < n :: id in used || id in IdsOf(free)
  }

  lemma PopKeepsShape(all: seq<Page>, free: seq<Page>, used: map<nat, Page>, order: seq<nat>)
    requires Shape(all, free, used, order) && free != []
    ensures var p := free[|free| - 1];
      && p.id !in used
      && IdsOf(free[..|free| - 1]) == IdsOf(free) - {p.id}
      && Shape(all, free[..|free| - 1], used[p.id := p], order + [p.id])
      && (Covers(|all|, free, used) ==> Covers(|all|, free[..|free| - 1], used[p.id := p]))
  {
    var p := free[|free| - 1];
    var rest := free[..|free| - 1];
    DistinctInit(free);
    assert p.id !in order;
    DistinctKeysSnoc(order, p.id);
    assert p.id in IdsOf(free);
    assert IdsOf(free) == IdsOf(rest) + {p.id};
  }

  lemma RemoveKeepsShape(all: seq<Page>, free: seq<Page>, used: map<nat, Page>, order: seq<nat>, id: nat)
    requires Shape(all, free, used, order) && id in used
    ensures used[id] !in free
    ensures Shape(all, free, used - {id}, Without(order, id))
  {
    InUseNotFree(all, free, used, order, id);
    var used', order' := used - {id}, Without(order, id);
    WithoutDistinct(order, id);
    assert forall j | 0 <= j < |order'| :: order'[j] in order && order'[j] != id;
    assert forall k | k in used' :: k in used && k != id;
  }

  lemma InUseNotFree(all: seq<Page>, free: seq<Page>, used: map<nat, Page>, order: seq<nat>, id: nat)
    requires Shape(all, free, used, order) && id in used
    ensures used[id] !in free
  {
    forall j | 0 <= j < |free|
      ensures free[j] != used[id]
    {
      assert free[j].id in IdsOf(free);
    }
  }

  lemma PushKeepsShape(all: seq<Page>, free: seq<Page>, used: map<nat, Page>, order: seq<nat>, id: nat)
    requires Shape(all, free, used, order) && id in used
    ensures used[id] !in free
    ensures IdsOf(free + [used[id]]) == IdsOf(free) + {id}
    ensures Shape(all, free + [used[id]], used - {id}, Without(order, id))
    ensures Covers(|all|, free, used) ==> Covers(|all|, free + [used[id]], used - {id})
  {
    RemoveKeepsShape(all, free, used, order, id);
    DistinctSnoc(free, used[id]);
    var free' := free + [used[id]];
    assert IdsOf(free') == IdsOf(free) + {id} by {
      assert free'[|free|].id == id;
      assert forall j | 0 <= j < |free| :: free'[j] == free[j];
    }
  }

  class PagePool {
    const kind: PoolKind
    const logger: EventLogger?
    const pageSize: nat
    const numPages: nat
    const numLayers: nat
    const numHeads: nat
    /** The pages the constructor made, by id. */
    ghost const all: seq<Page>
    var free: seq<Page>
    var used: map<nat, Page>
    /** The insertion order of the in-use dictionary's keys. */
    var usedOrder: seq<nat>

    function FreeIds(): set<nat>
      reads this
    {
      IdsOf(free)
    }

    /** Shape facts that every pool operation keeps, even the leaky free_page. */
    ghost predicate Wellformed()
      reads this
    {
      && |all| == numPages
      && (forall i | 0 <= i < |all| ::
            all[i].id == i && all[i].size == pageSize && all[i].numLayers == numLayers && all[i].numHeads == numHeads)
      && Shape(all, free, used, usedOrder)
      && ((kind == Instrumented) == (logger != null))
    }

    /** Every page id is free or in use (and by Wellformed, not both). */
    ghost predicate Partitioned()
      reads this
    {
      Covers(numPages, free, used)
    }

    /** Pages on the free list have no slots in use. */
    ghost predicate FreeClean()
      reads this, free`used
    {
      forall j | 0 <= j < |free| :: free[j].used == 0
    }

    ghost predicate Valid()
      reads this, free`used
    {
      Wellformed() && Partitioned() && FreeClean()
    }

    /** The free list is pages 0, 1, ..., in id order (as it is on a fresh pool until the first free). */
    ghost predicate FreeInOrder()
      reads this
    {
      forall j | 0 <= j < |free| :: free[j].id == j
    }

    /** `PagePool(num_pages, page_size, ...)`: all pages free, in id order, nothing in use. */
    constructor(kind: PoolKind, logger: EventLogger?, numPages: nat, pageSize: nat, numLayers: nat, numHeads: nat)
      requires (kind == Instrumented) == (logger != null)
      ensures Valid() && FreeInOrder()
      ensures this.kind == kind && this.logger == logger && this.numPages == numPages && this.pageSize == pageSize
      ensures this.numLayers == numLayers && this.numHeads == numHeads
      ensures |free| == numPages && used == map[] && usedOrder == [] && all == free
      ensures forall j | 0 <= j < |free| ::
        fresh(free[j]) && free[j].refCount == 0 && free[j].k == map[] && free[j].v == map[]
    {
      var ps: seq<Page> := [];
      while |ps| < numPages
        invariant |ps| <= numPages
        invariant forall j | 0 <= j < |ps| ::
          && ps[j].id == j && ps[j].size == pageSize && ps[j].numLayers == numLayers && ps[j].numHeads == numHeads
          && ps[j].used == 0 && ps[j].refCount == 0 && ps[j].k == map[] && ps[j].v == map[] && fresh(ps[j])
      {
        var p := new Page(|ps|, pageSize, numLayers, numHeads);
        ps := ps + [p];
      }
      this.kind := kind;
      this.logger := logger;
      this.pageSize := pageSize;
      this.numPages := numPages;
      this.numLayers := numLayers;
      this.numHeads := numHeads;
      this.all := ps;
      free := ps;
      used := map[];
      usedOrder := [];
      new;
      forall id: nat | id < numPages
        ensures id in IdsOf(free)
      {
        assert free[id].id == id;
      }
    }

    /** Free and in-use page counts add up to the pool size. */
    lemma SizesAddUp()
      requires Valid()
      ensures |free| + |used| == numPages
    {
      DistinctIdsSize(free);
      DistinctIdsSize(all);
      assert forall id: nat :: id in IdsOf(all) <==> id < numPages by {
        forall id: nat | id < numPages
          ensures id in IdsOf(all)
        {
          assert all[id].id == id;
        }
      }
      assert FreeIds() + used.Keys == IdsOf(all);
      assert FreeIds() * used.Keys == {};
    }

    /** What allocate_page leaves behind, from the free list, dictionary and key order before it. */
    ghost predicate Allocated(free0: seq<Page>, used0: map<nat, Page>, order0: seq<nat>, r: Result<Page>)
      reads this
    {
      if free0 == [] then
        r == Err(RuntimeError(OutOfPagesMessage(kind))) && free == free0 && used == used0 && usedOrder == order0
      else
        && r == Ok(free0[|free0| - 1])
        && free == free0[..|free0| - 1]
        && r.value.id !in used0
        && used == used0[r.value.id := r.value]
        && usedOrder == order0 + [r.value.id]
    }

    /** `allocate_page` of the base pools: pop the last free page into the in-use dictionary. */
    method AllocateBase() returns (r: Result<Page>)
      requires Valid()
      modifies this
      ensures Valid()
      ensures Allocated(old(free), old(used), old(usedOrder), r)
      ensures r.Ok? ==> r.value.used == 0 && r.value.size == pageSize && r.value == all[r.value.id]
      ensures r.Ok? ==> |used| == |old(used)| + 1 && r.value !in free
      ensures old(FreeInOrder()) ==> FreeInOrder() && (r.Ok? ==> r.value.id == |free|)
    {
      if free == [] {
        return Err(RuntimeError(OutOfPagesMessage(kind)));
      }
      var page := free[|free| - 1];
      PopKeepsShape(all, free, used, usedOrder);
      free := free[..|free| - 1];
      used := used[page.id := page];
      usedOrder := usedOrder + [page.id];
      assert Wellformed() && Partitioned();
      forall j | 0 <= j < |free|
        ensures free[j] != page
      {
        assert free[j].id in IdsOf(free);
      }
      return Ok(page);
    }

    /**
     * `allocate_page`: the base allocation; the instrumented pool then logs
     * one page_fault with the page's id.
     */
    method AllocatePage() returns (r: Result<Page>)
      requires Valid() && (logger != null ==> logger.Valid())
      modifies this, logger
      ensures Valid()
      ensures Allocated(old(free), old(used), old(usedOrder), r)
      ensures r.Ok? ==> r.value.used == 0 && r.value.size == pageSize && r.value == all[r.value.id]
      ensures r.Ok? ==> r.value.numLayers == numLayers && r.value.numHeads == numHeads
      ensures r.Ok? ==> |used| == |old(used)| + 1 && r.value !in free
      ensures old(FreeInOrder()) ==> FreeInOrder() && (r.Ok? ==> r.value.id == |free|)
      ensures logger != null ==> logger.Logged(if r.Ok? then [PageFault(r.value.id)] else [])
    {
      r := AllocateBase();
      if logger != null && r.Ok? {
        logger.LogEvent(PageFault(r.value.id));
      }
    }

    /**
     * `free_page` of pages/page_pool.py: its first statement reads the local
     * `page` before it is assigned, so every call fails with nothing changed.
     */
    method FreePagePlain(id: nat) returns (r: Result<()>)
      ensures r == Err(UnboundLocalError("page"))
    {
      return Err(UnboundLocalError("page"));
    }

    /**
     * `free_page` of kv-cache/page_pool.py: KeyError for an id not in use;
     * otherwise the page leaves the dictionary and is reset, then the append
     * to the free list fails, so the page is lost to both.
     */
    method FreePageKvCache(id: nat) returns (r: Result<()>)
      requires Wellformed() && FreeClean()
      modifies this, (if id in used then [used[id]] else [])`used
      ensures Wellformed() && FreeClean() && free == old(free)
      ensures id !in old(used) ==> r == Err(KeyError(id)) && used == old(used) && usedOrder == old(usedOrder)
      ensures id in old(used) ==>
        && r == Err(AttributeError("append"))
        && used == old(used) - {id}
        && usedOrder == Without(old(usedOrder), id)
        && old(used)[id].used == 0
        && id < numPages && id !in used && id !in FreeIds()
    {
      if id !in used {
        return Err(KeyError(id));
      }
      var page := used[id];
      RemoveKeepsShape(all, free, used, usedOrder, id);
      used := used - {id};
      usedOrder := Without(usedOrder, id);
      page.used := 0;
      return Err(AttributeError("append"));
    }

    /**
     * `free_page` of the instrumented pool: nothing at all for an id not in
     * use; otherwise a page_freed event, the page reset (no slots in use,
     * ref count 0) and pushed on the free list.
     */
    method FreePageInstrumented(id: nat)
      requires Valid() && logger != null && logger.Valid()
      modifies this, logger, (if id in used then [used[id]] else [])`used, (if id in used then [used[id]] else [])`refCount
      ensures Valid()
      ensures id !in old(used) ==>
        free == old(free) && used == old(used) && usedOrder == old(usedOrder) && logger.Logged([])
      ensures id in old(used) ==>
        && free == old(free) + [old(used)[id]]
        && used == old(used) - {id}
        && usedOrder == Without(old(usedOrder), id)
        && old(used)[id].used == 0 && old(used)[id].refCount == 0
        && logger.Logged([PageFreed(id)])
    {
      if id !in used {
        return;
      }
      var page := used[id];
      PushKeepsShape(all, free, used, usedOrder, id);
      used := used - {id};
      usedOrder := Without(usedOrder, id);
      logger.LogEvent(PageFreed(id));
      page.used := 0;
      page.refCount := 0;
      assert FreeClean();
      free := free + [page];
      assert Wellformed() && Partitioned();
    }

    /** `page_states`: every page on the free list, then every page in use, in dictionary order. */
    function PageStates(): (states: seq<PageState>)
      requires Valid()
      reads this, free, used.Values
      ensures |states| == |free| + |usedOrder|
      ensures forall j | 0 <= j < |free| :: states[j] == StateOf(free[j], true)
      ensures forall j | 0 <= j < |usedOrder| ::
        usedOrder[j] in used && states[|free| + j] == StateOf(used[usedOrder[j]], false)
    {
      var fs, us := FreeStates(), UsedStates();
      Halves(fs, us, |free|);
      fs + us
    }

    /** Every page of the pool is listed exactly once, and marked freed exactly when it is on the free list. */
    lemma PageStatesCover()
      requires Valid()
      ensures var states := PageStates();
        && (forall j | 0 <= j < |states| :: states[j].isFreed <==> j < |free|)
        && (forall id: nat :: id in StateIds(states) <==> id < numPages)
        && (forall j, j' | 0 <= j < j' < |states| :: states[j].pageId != states[j'].pageId)
    {
      var states := PageStates();
      assert forall j | 0 <= j < |free| :: states[j].pageId == free[j].id && states[j].isFreed;
      assert forall j | 0 <= j < |usedOrder| :: states[|free| + j].pageId == usedOrder[j] && !states[|free| + j].isFreed;
      StatesCover(states);
    }

    function FreeStates(): (states: seq<PageState>)
      requires Valid()
      reads this, free
      ensures |states| == |free|
      ensures forall j | 0 <= j < |free| :: states[j] == StateOf(free[j], true)
    {
      seq(|free|, j requires 0 <= j < |free| reads this, free =>
        PageState(free[j].id, free[j].used, free[j].size, free[j].refCount, free[j].id !in used))
    }

    function UsedStates(): (states: seq<PageState>)
      requires Valid()
      reads this, free, used.Values
      ensures |states| == |usedOrder|
      ensures forall j | 0 <= j < |usedOrder| ::
        usedOrder[j] in used && states[j] == StateOf(used[usedOrder[j]], false) && states[j].pageId == usedOrder[j]
    {
      seq(|usedOrder|, j requires 0 <= j < |usedOrder| && usedOrder[j] in used reads this, used.Values =>
        var p := used[usedOrder[j]];
        PageState(p.id, p.used, p.size, p.refCount, p.id !in used))
    }

    lemma StatesCover(states: seq<PageState>)
      requires Valid()
      requires |states| == |free| + |usedOrder|
      requires forall j | 0 <= j < |free| :: states[j].pageId == free[j].id
      requires forall j | 0 <= j < |usedOrder| :: states[|free| + j].pageId == usedOrder[j]
      ensures forall j | 0 <= j < |states| :: states[j].pageId < numPages
      ensures forall id: nat :: id in StateIds(states) <==> id < numPages
      ensures forall j, j' | 0 <= j < j' < |states| :: states[j].pageId != states[j'].pageId
    {
      forall id: nat | id < numPages
        ensures id in StateIds(states)
      {
        if id in used {
          var j :| 0 <= j < |usedOrder| && usedOrder[j] == id;
          assert states[|free| + j].pageId == id;
        } else {
          var j :| 0 <= j < |free| && free[j].id == id;
          assert states[j].pageId == id;
        }
      }
      assert forall j | 0 <= j < |states| :: states[j].pageId < numPages by {
        forall j | 0 <= j < |states|
          ensures states[j].pageId < numPages
        {
          if j >= |free| {
            assert usedOrder[j - |free|] in used;
          }
        }
      }
      forall j, j' | 0 <= j < j' < |states|
        ensures states[j].pageId != states[j'].pageId
      {
        if j' < |free| {
          IdsDiffer(free, j, j');
        } else if j < |free| {
          assert free[j].id in IdsOf(free);
          assert usedOrder[j' - |free|] in used;
        } else {
          KeysDiffer(usedOrder, j - |free|, j' - |free|);
        }
      }
    }
  }
}
