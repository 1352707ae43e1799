/**
 * Building a prompt prefix into pages (`compute_prefix` of the day-5 driver
 * and of the simulator): token by token, take a new page from the pool when
 * there is none yet or the current one is full, take the next slot, store the
 * token's K and V rows for every layer and head there, and record
 * (page id, slot) in the table. The instrumented pool's simulator version also
 * logs a token_step per token and a kv_write per (token, layer).
 */
module Prefix {
  import opened Common
  import opened Pages
  import opened Pool
  import opened PageTables
  import opened EventLog

  /** The model's forward pass: the K (or V) row it produces for (layer, head, token). */
  type Forward = (nat, nat, nat) -> Vec

  // ---------------------------------------------------------------------
  // Page arithmetic
  // ---------------------------------------------------------------------

  /**
   * s * q spelt out as repeated addition: the solver sees the product as a
   * term of its own, so facts about page boundaries stay linear.
   */
  function Times(s: nat, q: nat): nat
  {
    if q == 0 then 0 else Times(s, q - 1) + s
  }

  lemma {:induction false} TimesIsProduct(s: nat, q: nat)
    ensures Times(s, q) == s * q
    decreases q
  {
    if q > 0 {
      TimesIsProduct(s, q - 1);
    }
  }

  lemma {:induction false} TimesMono(s: nat, a: nat, b: nat)
    requires a <= b
    ensures Times(s, a) <= Times(s, b)
    decreases b - a
  {
    if a < b {
      TimesMono(s, a, b - 1);
    }
  }

  /** The page of 0-based token position t at s slots a page (t div s), by repeated subtraction. */
  function PageOf(t: nat, s: nat): (q: nat)
    requires s > 0
    ensures Times(s, q) <= t < Times(s, q) + s
    decreases t
  {
    if t < s then 0 else PageOf(t - s, s) + 1
  }

  /** The slot of token position t within its page (t mod s). */
  function SlotOf(t: nat, s: nat): (r: nat)
    requires s > 0
    ensures r < s && t == Times(s, PageOf(t, s)) + r
  {
    t - Times(s, PageOf(t, s))
  }

  /** Position Times(s, q) + r, with r < s, is slot r of page q. */
  lemma PlaceOf(t: nat, s: nat, q: nat, r: nat)
    requires s > 0 && r < s && t == Times(s, q) + r
    ensures PageOf(t, s) == q && SlotOf(t, s) == r
  {
    var q' := PageOf(t, s);
    if q' < q {
      TimesMono(s, q' + 1, q);
    }
  }

  /** PageOf and SlotOf are integer division and remainder. */
  lemma PlaceIsDivMod(t: nat, s: nat)
    requires s > 0
    ensures PageOf(t, s) == t / s && SlotOf(t, s) == t % s
  {
    DivModOf(t, s, PageOf(t, s), SlotOf(t, s));
  }

  /** Pages needed for n tokens at s slots a page (0 when there is nothing to place or no room per page). */
  function CeilDiv(n: nat, s: nat): (m: nat)
    ensures n == 0 || s == 0 ==> m == 0
    ensures n > 0 && s > 0 ==> m >= 1 && Times(s, m - 1) < n <= Times(s, m)
  {
    if n == 0 || s == 0 then 0 else PageOf(n - 1, s) + 1
  }

  /** Division by s recovers the quotient and remainder of t = s * q + r. */
  lemma DivModOf(t: nat, s: nat, q: nat, r: nat)
    requires s > 0 && r < s && t == Times(s, q) + r
    ensures t / s == q && t % s == r
  {
    TimesIsProduct(s, q);
    var q', r' := t / s, t % s;
    assert t == s * q' + r';
    if q' > q {
      Distribute(s, q, q' - q);
      MulAtLeast(s, q' - q);
    } else if q' < q {
      Distribute(s, q', q - q');
      MulAtLeast(s, q - q');
    }
  }

  lemma Distribute(s: nat, a: nat, b: nat)
    ensures s * (a + b) == s * a + s * b
  {
  }

  lemma MulAtLeast(s: nat, a: nat)
    requires a >= 1
    ensures s * a >= s
  {
  }

  /** With more than s * m tokens, m pages of s slots are not enough. */
  lemma NeedsMorePages(n: nat, s: nat, m: nat)
    requires s > 0 && n > Times(s, m)
    ensures CeilDiv(n, s) > m
  {
    var c := CeilDiv(n, s);
    if c <= m {
      TimesMono(s, c, m);
    }
  }

  /** The pages tests of the repository: 10 tokens in pages of 4 and of 5, 5 tokens in pages of 2. */
  lemma PageCountExamples()
    ensures CeilDiv(10, 4) == 3 && CeilDiv(10, 5) == 2 && CeilDiv(5, 2) == 3 && CeilDiv(16, 4) == 4
  {
  }

  // ---------------------------------------------------------------------
  // What a built prefix looks like
  // ---------------------------------------------------------------------

  /** Whether building n tokens fails: pages of size 0, or more pages needed than are free. */
  predicate PrefixFails(n: nat, s: nat, freeCount: nat)
  {
    n > 0 && (s == 0 || CeilDiv(n, s) > freeCount)
  }

  /** The error a failing build raises: out of pages, unless a page was found but had no slot. */
  function PrefixError(kind: PoolKind, s: nat, freeCount: nat): Error
  {
    if s > 0 || freeCount == 0 then RuntimeError(OutOfPagesMessage(kind)) else RuntimeError(PageFullMessage)
  }

  /** Token u's K and V rows for every layer and head sit at this slot of page p. */
  ghost predicate Stored(p: Page, slot: nat, u: nat, fwdK: Forward, fwdV: Forward)
    reads p`k, p`v
  {
    RowsIn((p.k, p.v), p.numLayers, p.numHeads, slot, u, fwdK, fwdV)
  }

  /** A page's K and V tensors, as values. */
  type Tensors = (map<Cell, Vec>, map<Cell, Vec>)

  /** Token u's K and V rows for every layer and head sit at this slot of the tensors kv. */
  ghost predicate RowsIn(kv: Tensors, layers: nat, heads: nat, slot: nat, u: nat, fwdK: Forward, fwdV: Forward)
  {
    forall l: nat, h: nat | l < layers && h < heads ::
      Read(kv.0, (l, h, slot)) == fwdK(l, h, u) && Read(kv.1, (l, h, slot)) == fwdV(l, h, u)
  }

  /**
   * The result of building n tokens at s slots a page: ceil(n / s) pages,
   * all full but the last; table entry t is (id of page t / s, t mod s);
   * and each token's rows are stored where its entry points.
   */
  ghost predicate PrefixBuilt(items: seq<Page>, entries: seq<Entry>, n: nat, s: nat, fwdK: Forward, fwdV: Forward)
    reads items`used, items`k, items`v
  {
    && (n > 0 ==> s > 0)
    && |items| == CeilDiv(n, s)
    && DistinctIds(items)
    && (forall i | 0 <= i < |items| :: items[i].size == s)
    && (forall i | 0 <= i < |items| - 1 :: items[i].used == s)
    && (n > 0 ==> items[|items| - 1].used == (n - 1) % s + 1)
    && |entries| == n
    && (forall u | 0 <= u < n ::
          u / s < |items| && entries[u] == (items[u / s].id, u % s) && Stored(items[u / s], u % s, u, fwdK, fwdV))
  }

  /** The kv_write events of token u stored in slot `slot` of page `pid`, one per layer. */
  function KvWrites(pid: nat, slot: nat, u: nat, layers: nat): (ds: seq<Details>)
    ensures |ds| == layers && forall l | 0 <= l < layers :: ds[l] == KvWrite(pid, slot, u, l)
  {
    seq(layers, l requires 0 <= l < layers => KvWrite(pid, slot, u, l))
  }

  /** What the instrumented build logs for token u placed at entry e: a token_step, a page_fault when the token opens a page, one kv_write per layer. */
  function TokenLog(u: nat, e: Entry, layers: nat): seq<Details>
  {
    [TokenStep(u)] + (if e.1 == 0 then [PageFault(e.0)] else []) + KvWrites(e.0, e.1, u, layers)
  }

  /** What the instrumented build logs once token u has its page and slot: the page_fault, if any, and the kv_writes. */
  function WriteLog(u: nat, e: Entry, layers: nat): seq<Details>
  {
    (if e.1 == 0 then [PageFault(e.0)] else []) + KvWrites(e.0, e.1, u, layers)
  }

  /** The whole log of a build, from its table. */
  function PrefixLog(entries: seq<Entry>, layers: nat): (ds: seq<Details>)
    decreases |entries|
  {
    if entries == [] then []
    else PrefixLog(entries[..|entries| - 1], layers) + TokenLog(|entries| - 1, entries[|entries| - 1], layers)
  }

  /** The log holds one token_step per token and one kv_write per (token, layer). */
  lemma {:induction false} PrefixLogCounts(entries: seq<Entry>, layers: nat)
    ensures CountSteps(PrefixLog(entries, layers)) == |entries|
    ensures CountWrites(PrefixLog(entries, layers)) == layers * |entries|
    decreases |entries|
  {
    if entries != [] {
      var init := entries[..|entries| - 1];
      var e := entries[|entries| - 1];
      PrefixLogCounts(init, layers);
      CountsSplit(PrefixLog(init, layers), TokenLog(|init|, e, layers));
      TokenLogCounts(|init|, e, layers);
      Distribute(layers, |init|, 1);
    }
  }

  lemma TokenLogCounts(u: nat, e: Entry, layers: nat)
    ensures CountSteps(TokenLog(u, e, layers)) == 1
    ensures CountWrites(TokenLog(u, e, layers)) == layers
  {
    var fault: seq<Details> := if e.1 == 0 then [PageFault(e.0)] else [];
    var writes := KvWrites(e.0, e.1, u, layers);
    CountsSplit([TokenStep(u)], fault);
    CountsSplit([TokenStep(u)] + fault, writes);
    WritesCount(e.0, e.1, u, layers);
    assert CountSteps([TokenStep(u)]) == 1 by {
      assert [TokenStep(u)][..0] == [];
    }
    assert CountSteps(fault) == 0 && CountWrites(fault) == 0 by {
      if fault != [] {
        assert fault[..0] == [];
      }
    }
  }

  function CountSteps(ds: seq<Details>): nat
  {
    if ds == [] then 0 else CountSteps(ds[..|ds| - 1]) + (if ds[|ds| - 1].TokenStep? then 1 else 0)
  }

  function CountWrites(ds: seq<Details>): nat
  {
    if ds == [] then 0 else CountWrites(ds[..|ds| - 1]) + (if ds[|ds| - 1].KvWrite? then 1 else 0)
  }

  lemma {:induction false} CountsSplit(a: seq<Details>, b: seq<Details>)
    ensures CountSteps(a + b) == CountSteps(a) + CountSteps(b)
    ensures CountWrites(a + b) == CountWrites(a) + CountWrites(b)
    decreases |b|
  {
    if b == [] {
      assert a + b == a;
    } else {
      var b' := b[..|b| - 1];
      CountsSplit(a, b');
      assert (a + b)[..|a + b| - 1] == a + b';
    }
  }

  lemma {:induction false} WritesCount(pid: nat, slot: nat, u: nat, layers: nat)
    ensures CountSteps(KvWrites(pid, slot, u, layers)) == 0
    ensures CountWrites(KvWrites(pid, slot, u, layers)) == layers
    decreases layers
  {
    if layers > 0 {
      WritesCount(pid, slot, u, layers - 1);
      assert KvWrites(pid, slot, u, layers)[..layers - 1] == KvWrites(pid, slot, u, layers - 1);
    }
  }

  lemma PrefixLogAppend(entries: seq<Entry>, e: Entry, layers: nat)
    ensures PrefixLog(entries + [e], layers) == PrefixLog(entries, layers) + TokenLog(|entries|, e, layers)
  {
    assert (entries + [e])[..|entries|] == entries;
  }

  // ---------------------------------------------------------------------
  // A build in progress
  // ---------------------------------------------------------------------

  /**
   * Pool side of a build: the pages taken so far are the last |items| pages
   * of the free list F the build started from, in pop order; they and the
   * ids U in use before are exactly the ids in use now.
   */
  ghost predicate Taken(free: seq<Page>, used: map<nat, Page>, items: seq<Page>, F: seq<Page>, U: set<nat>)
  {
    && |items| <= |F|
    && free == F[..|F| - |items|]
    && (forall j | 0 <= j < |free| :: free[j] == F[j])
    && (forall i | 0 <= i < |items| :: items[i] == F[|F| - 1 - i])
    && used.Keys == U + IdsOf(items)
    && (forall i | 0 <= i < |items| :: items[i].id in used && used[items[i].id] == items[i])
    && DistinctIds(items)
  }

  /** Popping the last free page into the in-use dictionary extends the build by that page. */
  lemma TakeKeepsDrawn(free: seq<Page>, used: map<nat, Page>, items: seq<Page>, F: seq<Page>, U: set<nat>, s: nat, layers: nat, heads: nat)
    requires Drawn(free, used, items, F, U, s, layers, heads) && free != []
    requires var p := free[|free| - 1]; p.id !in used && p.size == s && p.numLayers == layers && p.numHeads == heads
    ensures var p := free[|free| - 1];
      && Drawn(free[..|free| - 1], used[p.id := p], items + [p], F, U, s, layers, heads)
      && p == F[|F| - 1 - |items|]
  {
    var p := free[|free| - 1];
    var items' := items + [p];
    DistinctSnoc(items, p);
    assert IdsOf(items') == IdsOf(items) + {p.id} by {
      assert forall i | 0 <= i < |items| :: items'[i] == items[i];
      assert items'[|items|] == p;
    }
    assert F[..|F| - |items'|] == free[..|free| - 1];
    assert Shaped(items', s, layers, heads);
  }

  /** The slot counters of the pages, read off the heap. */
  ghost predicate Mirror(items: seq<Page>, us: seq<nat>)
    reads set i | 0 <= i < |items| :: items[i]`used
  {
    |us| == |items| && forall i | 0 <= i < |items| :: items[i].used == us[i]
  }

  lemma MirrorSnoc(items: seq<Page>, us: seq<nat>, p: Page)
    requires Mirror(items, us)
    ensures Mirror(items + [p], us + [p.used])
  {
  }

  /** Slot counts of a build of t tokens: every page full but the last, which holds the rest (at least one). */
  ghost predicate Counts(us: seq<nat>, s: nat, t: nat)
  {
    && ((t == 0) == (us == []))
    && (us != [] ==> s > 0 && 1 <= us[|us| - 1] <= s && t == Times(s, |us| - 1) + us[|us| - 1])
    && (forall i | 0 <= i < |us| - 1 :: us[i] == s)
  }

  /** The pages all have the pool's page size and tensor shape. */
  ghost predicate Shaped(items: seq<Page>, s: nat, layers: nat, heads: nat)
  {
    forall i | 0 <= i < |items| :: items[i].size == s && items[i].numLayers == layers && items[i].numHeads == heads
  }

  /** The page being filled is the last one taken (none before the first token). */
  ghost predicate Current(items: seq<Page>, current: Page?)
  {
    && ((current == null) == (items == []))
    && (current != null ==> current == items[|items| - 1])
  }

  /** Entry u of the table names page PageOf(u, s) of the build at slot SlotOf(u, s). */
  ghost predicate PlacedAt(items: seq<Page>, e: Entry, u: nat, s: nat)
  {
    s > 0 && PageOf(u, s) < |items| && e == (items[PageOf(u, s)].id, SlotOf(u, s))
  }

  /** The table layout, entry by entry in the order the tokens were placed. */
  ghost predicate Laid(items: seq<Page>, entries: seq<Entry>, s: nat)
    decreases |entries|
  {
    entries != [] ==>
      && Laid(items, entries[..|entries| - 1], s)
      && PlacedAt(items, entries[|entries| - 1], |entries| - 1, s)
  }

  lemma {:induction false} LaidAt(items: seq<Page>, entries: seq<Entry>, s: nat, u: nat)
    requires Laid(items, entries, s) && u < |entries|
    ensures PlacedAt(items, entries[u], u, s)
    decreases |entries|
  {
    if u < |entries| - 1 {
      LaidAt(items, entries[..|entries| - 1], s, u);
    }
  }

  /** Pages added at the end of the build leave the layout of the table as it was. */
  lemma {:induction false} LaidGrow(items: seq<Page>, more: seq<Page>, entries: seq<Entry>, s: nat)
    requires Laid(items, entries, s)
    ensures Laid(items + more, entries, s)
    decreases |entries|
  {
    if entries != [] {
      var u := |entries| - 1;
      LaidGrow(items, more, entries[..u], s);
      assert (items + more)[PageOf(u, s)] == items[PageOf(u, s)];
    }
  }

  lemma LaidSnoc(items: seq<Page>, entries: seq<Entry>, s: nat, e: Entry)
    requires Laid(items, entries, s) && PlacedAt(items, e, |entries|, s)
    ensures Laid(items, entries + [e], s)
  {
    assert (entries + [e])[..|entries|] == entries;
  }

  /** Under the slot counts of a build of t tokens, token u < t sits at a slot its page has handed out. */
  lemma SlotTaken(us: seq<nat>, s: nat, t: nat, u: nat)
    requires Counts(us, s, t) && u < t
    ensures s > 0 && PageOf(u, s) < |us| && SlotOf(u, s) < us[PageOf(u, s)]
  {
    var m, q := |us|, PageOf(u, s);
    assert Times(s, m) == Times(s, m - 1) + s;
    if q >= m {
      TimesMono(s, m, q);
    }
  }

  /** The counters after the last page hands out one more slot. */
  function Bump(us: seq<nat>): (us': seq<nat>)
    requires us != []
    ensures |us'| == |us| && us'[|us| - 1] == us[|us| - 1] + 1
    ensures forall i | 0 <= i < |us| - 1 :: us'[i] == us[i]
  {
    us[|us| - 1 := us[|us| - 1] + 1]
  }

  /** Pool side and shape of a build's pages together. */
  ghost predicate Drawn(free: seq<Page>, used: map<nat, Page>, items: seq<Page>, F: seq<Page>, U: set<nat>, s: nat, layers: nat, heads: nat)
  {
    Taken(free, used, items, F, U) && Shaped(items, s, layers, heads)
  }

  /** The build's page counters and table agree with each other. */
  ghost predicate Layout(us: seq<nat>, items: seq<Page>, entries: seq<Entry>, s: nat)
  {
    |us| == |items| && Counts(us, s, |entries|) && Laid(items, entries, s)
  }

  /** Token t = |entries| opens page p, appended to items, at slot 0. */
  lemma OpenPage(us: seq<nat>, items: seq<Page>, entries: seq<Entry>, s: nat, p: Page)
    requires s > 0 && Layout(us, items, entries, s)
    requires us == [] || us[|us| - 1] == s
    requires DistinctIds(items + [p])
    ensures (p.id, 0) !in entries
    ensures Layout(Bump(us + [0]), items + [p], entries + [(p.id, 0)], s)
    ensures CeilDiv(|entries| + 1, s) == |items| + 1
  {
    var t := |entries|;
    assert t == Times(s, |items|) by {
      if us != [] {
        assert Times(s, |items|) == Times(s, |items| - 1) + s;
      }
    }
    PlaceOf(t, s, |items|, 0);
    OpenFresh(items, entries, s, p);
    OpenTable(items, entries, s, p);
    assert Bump(us + [0]) == us + [1];
    assert Counts(us + [1], s, t + 1);
  }

  /** A page not among the build's pages is named nowhere in the table. */
  lemma OpenFresh(items: seq<Page>, entries: seq<Entry>, s: nat, p: Page)
    requires Laid(items, entries, s) && DistinctIds(items + [p])
    ensures (p.id, 0) !in entries
  {
    var items' := items + [p];
    forall u | 0 <= u < |entries|
      ensures entries[u] != (p.id, 0)
    {
      LaidAt(items, entries, s, u);
      IdsDiffer(items', PageOf(u, s), |items|);
      assert entries[u].0 == items'[PageOf(u, s)].id && items'[|items|] == p;
    }
  }

  lemma OpenTable(items: seq<Page>, entries: seq<Entry>, s: nat, p: Page)
    requires s > 0 && Laid(items, entries, s)
    requires PageOf(|entries|, s) == |items| && SlotOf(|entries|, s) == 0
    ensures Laid(items + [p], entries + [(p.id, 0)], s)
  {
    LaidGrow(items, [p], entries, s);
    assert (items + [p])[|items|] == p;
    LaidSnoc(items + [p], entries, s, (p.id, 0));
  }

  /** Token t = |entries| takes the next slot of the last page, which has room. */
  lemma FillPage(us: seq<nat>, items: seq<Page>, entries: seq<Entry>, s: nat)
    requires Layout(us, items, entries, s) && DistinctIds(items)
    requires us != [] && us[|us| - 1] < s
    ensures var t := |entries|; var m := |us|; var p := items[m - 1]; var slot := us[m - 1];
      var entries' := entries + [(p.id, slot)];
      && slot > 0
      && (p.id, slot) !in entries
      && Layout(Bump(us), items, entries', s)
      && CeilDiv(t + 1, s) == |items|
  {
    var t, m := |entries|, |us|;
    var p, slot := items[m - 1], us[m - 1];
    PlaceOf(t, s, m - 1, slot);
    FillFresh(us, items, entries, s);
    FillTable(us, items, entries, s);
  }

  /** The slot the last page hands out next is not named by the table yet. */
  lemma FillFresh(us: seq<nat>, items: seq<Page>, entries: seq<Entry>, s: nat)
    requires |us| == |items| && DistinctIds(items) && us != []
    requires Laid(items, entries, s) && Counts(us, s, |entries|)
    ensures (items[|us| - 1].id, us[|us| - 1]) !in entries
  {
    var m := |us|;
    var p, slot := items[m - 1], us[m - 1];
    forall u | 0 <= u < |entries|
      ensures entries[u] != (p.id, slot)
    {
      LaidAt(items, entries, s, u);
      SlotTaken(us, s, |entries|, u);
      if PageOf(u, s) != m - 1 {
        IdsDiffer(items, PageOf(u, s), m - 1);
      }
    }
  }

  lemma FillTable(us: seq<nat>, items: seq<Page>, entries: seq<Entry>, s: nat)
    requires |us| == |items| && us != [] && s > 0 && Laid(items, entries, s)
    requires PageOf(|entries|, s) == |us| - 1 && SlotOf(|entries|, s) == us[|us| - 1]
    ensures Laid(items, entries + [(items[|us| - 1].id, us[|us| - 1])], s)
  {
    LaidSnoc(items, entries, s, (items[|us| - 1].id, us[|us| - 1]));
  }

  /** The K and V tensors of the build's pages, read off the heap. */
  ghost predicate Holds(items: seq<Page>, kvs: seq<Tensors>)
    reads set i | 0 <= i < |items| :: items[i]`k, set i | 0 <= i < |items| :: items[i]`v
  {
    |kvs| == |items| && forall i | 0 <= i < |items| :: items[i].k == kvs[i].0 && items[i].v == kvs[i].1
  }

  /** Token u's rows sit in the tensors of page PageOf(u, s) of the build, at the slot its entry e names. */
  ghost predicate RowsAt(kvs: seq<Tensors>, e: Entry, u: nat, s: nat, layers: nat, heads: nat, fwdK: Forward, fwdV: Forward)
  {
    s > 0 && PageOf(u, s) < |kvs| && RowsIn(kvs[PageOf(u, s)], layers, heads, e.1, u, fwdK, fwdV)
  }

  lemma HoldsSnoc(items: seq<Page>, kvs: seq<Tensors>, p: Page)
    requires Holds(items, kvs)
    ensures Holds(items + [p], kvs + [(p.k, p.v)])
  {
  }

  /** A page appended to the build brings its tensors along and disturbs no row already stored. */
  lemma Opened(items: seq<Page>, items': seq<Page>, kvs: seq<Tensors>, entries: seq<Entry>, p: Page, s: nat, layers: nat, heads: nat, fwdK: Forward, fwdV: Forward)
    requires Holds(items, kvs) && Filled(kvs, entries, s, layers, heads, fwdK, fwdV)
    requires items' == items || items' == items + [p]
    ensures var kvs' := if items' == items then kvs else kvs + [(p.k, p.v)];
      Holds(items', kvs') && Filled(kvs', entries, s, layers, heads, fwdK, fwdV)
  {
    if items' != items {
      HoldsSnoc(items, kvs, p);
      FilledGrow(kvs, [(p.k, p.v)], entries, s, layers, heads, fwdK, fwdV);
    }
  }

  /** Every token's rows sit where its table entry points. */
  ghost predicate Filled(kvs: seq<Tensors>, entries: seq<Entry>, s: nat, layers: nat, heads: nat, fwdK: Forward, fwdV: Forward)
    decreases |entries|
  {
    entries != [] ==>
      && Filled(kvs, entries[..|entries| - 1], s, layers, heads, fwdK, fwdV)
      && RowsAt(kvs, entries[|entries| - 1], |entries| - 1, s, layers, heads, fwdK, fwdV)
  }

  lemma {:induction false} FilledAt(kvs: seq<Tensors>, entries: seq<Entry>, s: nat, layers: nat, heads: nat, fwdK: Forward, fwdV: Forward, u: nat)
    requires Filled(kvs, entries, s, layers, heads, fwdK, fwdV) && u < |entries|
    ensures RowsAt(kvs, entries[u], u, s, layers, heads, fwdK, fwdV)
    decreases |entries|
  {
    if u < |entries| - 1 {
      FilledAt(kvs, entries[..|entries| - 1], s, layers, heads, fwdK, fwdV, u);
    }
  }

  /** Pages added at the end of the build do not disturb the rows already stored. */
  lemma {:induction false} FilledGrow(kvs: seq<Tensors>, more: seq<Tensors>, entries: seq<Entry>, s: nat, layers: nat, heads: nat, fwdK: Forward, fwdV: Forward)
    requires Filled(kvs, entries, s, layers, heads, fwdK, fwdV)
    ensures Filled(kvs + more, entries, s, layers, heads, fwdK, fwdV)
    decreases |entries|
  {
    if entries != [] {
      var u := |entries| - 1;
      FilledGrow(kvs, more, entries[..u], s, layers, heads, fwdK, fwdV);
      assert (kvs + more)[PageOf(u, s)] == kvs[PageOf(u, s)];
    }
  }

  /** Rewriting one slot of page m disturbs no token stored on page m at another slot, nor any other page. */
  lemma {:induction false} FilledKeep(kvs: seq<Tensors>, m: nat, kv: Tensors, slot: nat, entries: seq<Entry>, s: nat, layers: nat, heads: nat, fwdK: Forward, fwdV: Forward)
    requires Filled(kvs, entries, s, layers, heads, fwdK, fwdV) && m < |kvs|
    requires forall c: Cell | c.2 != slot :: Read(kv.0, c) == Read(kvs[m].0, c) && Read(kv.1, c) == Read(kvs[m].1, c)
    requires forall u | 0 <= u < |entries| :: PageOf(u, s) == m ==> entries[u].1 != slot
    ensures Filled(kvs[m := kv], entries, s, layers, heads, fwdK, fwdV)
    decreases |entries|
  {
    if entries != [] {
      var u := |entries| - 1;
      FilledKeep(kvs, m, kv, slot, entries[..u], s, layers, heads, fwdK, fwdV);
      assert RowsAt(kvs, entries[u], u, s, layers, heads, fwdK, fwdV);
    }
  }

  /** A build that failed on its first k tokens fails on any longer prompt. */
  lemma FailsMono(a: nat, b: nat, s: nat, f: nat)
    requires a <= b && PrefixFails(a, s, f)
    ensures PrefixFails(b, s, f)
  {
    if s > 0 {
      TimesMono(s, f, CeilDiv(a, s) - 1);
      NeedsMorePages(b, s, f);
    }
  }

  // ---------------------------------------------------------------------
  // compute_prefix
  // ---------------------------------------------------------------------

  method NewPage(pool: PagePool, items: seq<Page>, ghost F: seq<Page>, ghost U: set<nat>) returns (r: Result<Page>)
    requires pool.Valid() && (pool.logger != null ==> pool.logger.Valid())
    requires Drawn(pool.free, pool.used, items, F, U, pool.pageSize, pool.numLayers, pool.numHeads)
    modifies pool, pool.logger
    ensures pool.Valid() && (pool.logger != null ==> pool.logger.Valid())
    ensures r.Err? <==> |items| == |F|
    ensures r.Err? ==> r.error == RuntimeError(OutOfPagesMessage(pool.kind))
    ensures r.Ok? ==> Drawn(pool.free, pool.used, items + [r.value], F, U, pool.pageSize, pool.numLayers, pool.numHeads)
    ensures r.Ok? ==> r.value.used == 0 && r.value == F[|F| - 1 - |items|]
    ensures pool.logger != null ==> pool.logger.Logged(if r.Ok? then [PageFault(r.value.id)] else [])
  {
    ghost var free0, used0 := pool.free, pool.used;
    r := pool.AllocatePage();
    if r.Ok? {
      TakeKeepsDrawn(free0, used0, items, F, U, pool.pageSize, pool.numLayers, pool.numHeads);
    }
  }

  method TakeSlot(pool: PagePool, p: Page, items: seq<Page>, ghost us: seq<nat>) returns (r: Result<nat>)
    requires pool.Valid() && items != [] && Mirror(items, us) && DistinctIds(items)
    requires p == items[|items| - 1] && p.id in pool.used && pool.used[p.id] == p
    modifies p`used
    ensures pool.Valid() && p !in pool.free
    ensures var m := |us| - 1;
      && (us[m] < items[m].size ==> r == Ok(us[m]) && Mirror(items, Bump(us)))
      && (us[m] >= items[m].size ==> r == Err(RuntimeError(PageFullMessage)) && Mirror(items, us))
  {
    InUseNotFree(pool.all, pool.free, pool.used, pool.usedOrder, p.id);
    r := p.AllocateSlot();
    forall i | 0 <= i < |items| - 1
      ensures items[i].used == us[i]
    {
      IdsDiffer(items, i, |items| - 1);
    }
  }

  /** A fresh page from the pool for the next token, when there is no current page or it is full. */
  method TakePage(pool: PagePool, items: seq<Page>, current: Page?, ghost us: seq<nat>, ghost entries: seq<Entry>, ghost F: seq<Page>, ghost U: set<nat>)
    returns (r: Result<Page>)
    requires pool.Valid() && (pool.logger != null ==> pool.logger.Valid())
    requires Drawn(pool.free, pool.used, items, F, U, pool.pageSize, pool.numLayers, pool.numHeads)
    requires Current(items, current) && Mirror(items, us) && Layout(us, items, entries, pool.pageSize)
    requires current == null || current.used >= pool.pageSize
    modifies pool, pool.logger
    ensures pool.Valid() && (pool.logger != null ==> pool.logger.Valid())
    ensures r.Err? ==> PrefixFails(|entries| + 1, pool.pageSize, |F|) && r.error == PrefixError(pool.kind, pool.pageSize, |F|)
    ensures r.Ok? ==>
      var p := r.value;
      && Drawn(pool.free, pool.used, items + [p], F, U, pool.pageSize, pool.numLayers, pool.numHeads)
      && Mirror(items + [p], us + [0]) && p == F[|F| - 1 - |items|]
      && (0 < pool.pageSize <==> !PrefixFails(|entries| + 1, pool.pageSize, |F|))
      && (0 < pool.pageSize ==> (p.id, 0) !in entries && Layout(Bump(us + [0]), items + [p], entries + [(p.id, 0)], pool.pageSize))
    ensures pool.logger != null ==> pool.logger.Logged(if r.Ok? then [PageFault(r.value.id)] else [])
  {
    var S := pool.pageSize;
    if |items| == |F| && current != null {
      NeedsMorePages(|entries| + 1, S, |items|);
    }
    r := NewPage(pool, items, F, U);
    assert Mirror(items, us);
    if r.Ok? {
      MirrorSnoc(items, us, r.value);
      if S > 0 {
        OpenPage(us, items, entries, S, r.value);
      }
    }
  }

  /**
   * The page and slot the next token goes to: the current page while it
   * has room, else a page from the pool (which the instrumented pool logs
   * as a page_fault) appended to the build's pages; then that page's next
   * slot.
   */
  method Claim(pool: PagePool, items: seq<Page>, current: Page?, ghost us: seq<nat>, ghost entries: seq<Entry>, ghost F: seq<Page>, ghost U: set<nat>)
    returns (r: Result<(Page, nat)>, items': seq<Page>, ghost us': seq<nat>)
    requires pool.Valid() && (pool.logger != null ==> pool.logger.Valid())
    requires Drawn(pool.free, pool.used, items, F, U, pool.pageSize, pool.numLayers, pool.numHeads)
    requires Current(items, current) && Mirror(items, us) && Layout(us, items, entries, pool.pageSize)
    modifies pool, pool.logger, F`used
    ensures pool.Valid() && (pool.logger != null ==> pool.logger.Valid())
    ensures r.Err? <==> PrefixFails(|entries| + 1, pool.pageSize, |F|)
    ensures r.Err? ==> r.error == PrefixError(pool.kind, pool.pageSize, |F|)
    ensures r.Ok? ==>
      var (p, slot) := r.value;
      var entries' := entries + [(p.id, slot)];
      && p in F && p !in pool.free
      && items' == (if slot == 0 then items + [p] else items)
      && Drawn(pool.free, pool.used, items', F, U, pool.pageSize, pool.numLayers, pool.numHeads)
      && Current(items', p) && Mirror(items', us')
      && (p.id, slot) !in entries
      && Layout(us', items', entries', pool.pageSize)
    ensures r.Ok? && pool.logger != null ==>
      pool.logger.Logged(if r.value.1 == 0 then [PageFault(r.value.0.id)] else [])
  {
    if current != null && current.HasSpace() {
      r, items', us' := ClaimCurrent(pool, items, current, us, entries, F, U);
    } else {
      r, items', us' := ClaimFresh(pool, items, current, us, entries, F, U);
    }
  }

  /** The next slot of the current page, which has room. */
  method ClaimCurrent(pool: PagePool, items: seq<Page>, current: Page?, ghost us: seq<nat>, ghost entries: seq<Entry>, ghost F: seq<Page>, ghost U: set<nat>)
    returns (r: Result<(Page, nat)>, items': seq<Page>, ghost us': seq<nat>)
    requires pool.Valid() && (pool.logger != null ==> pool.logger.Valid())
    requires Drawn(pool.free, pool.used, items, F, U, pool.pageSize, pool.numLayers, pool.numHeads)
    requires Current(items, current) && Mirror(items, us) && Layout(us, items, entries, pool.pageSize)
    requires current != null && current.used < current.size
    modifies pool, pool.logger, F`used
    ensures pool.Valid() && (pool.logger != null ==> pool.logger.Valid())
    ensures r.Err? <==> PrefixFails(|entries| + 1, pool.pageSize, |F|)
    ensures r.Err? ==> r.error == PrefixError(pool.kind, pool.pageSize, |F|)
    ensures r.Ok? ==>
      var (p, slot) := r.value;
      var entries' := entries + [(p.id, slot)];
      && p in F && p !in pool.free
      && items' == (if slot == 0 then items + [p] else items)
      && Drawn(pool.free, pool.used, items', F, U, pool.pageSize, pool.numLayers, pool.numHeads)
      && Current(items', p) && Mirror(items', us')
      && (p.id, slot) !in entries
      && Layout(us', items', entries', pool.pageSize)
    ensures r.Ok? && pool.logger != null ==>
      pool.logger.Logged(if r.value.1 == 0 then [PageFault(r.value.0.id)] else [])
  {
    FillPage(us, items, entries, pool.pageSize);
    us' := Bump(us);
    var s := TakeSlot(pool, current, items, us);
    return Ok((current, s.value)), items, us';
  }

  /** The first slot of a page taken from the pool, there being no current page or no room on it. */
  method ClaimFresh(pool: PagePool, items: seq<Page>, current: Page?, ghost us: seq<nat>, ghost entries: seq<Entry>, ghost F: seq<Page>, ghost U: set<nat>)
    returns (r: Result<(Page, nat)>, items': seq<Page>, ghost us': seq<nat>)
    requires pool.Valid() && (pool.logger != null ==> pool.logger.Valid())
    requires Drawn(pool.free, pool.used, items, F, U, pool.pageSize, pool.numLayers, pool.numHeads)
    requires Current(items, current) && Mirror(items, us) && Layout(us, items, entries, pool.pageSize)
    requires current == null || current.used >= pool.pageSize
    modifies pool, pool.logger, F`used
    ensures pool.Valid() && (pool.logger != null ==> pool.logger.Valid())
    ensures r.Err? <==> PrefixFails(|entries| + 1, pool.pageSize, |F|)
    ensures r.Err? ==> r.error == PrefixError(pool.kind, pool.pageSize, |F|)
    ensures r.Ok? ==>
      var (p, slot) := r.value;
      var entries' := entries + [(p.id, slot)];
      && p in F && p !in pool.free
      && items' == (if slot == 0 then items + [p] else items)
      && Drawn(pool.free, pool.used, items', F, U, pool.pageSize, pool.numLayers, pool.numHeads)
      && Current(items', p) && Mirror(items', us')
      && (p.id, slot) !in entries
      && Layout(us', items', entries', pool.pageSize)
    ensures r.Ok? && pool.logger != null ==>
      pool.logger.Logged(if r.value.1 == 0 then [PageFault(r.value.0.id)] else [])
  {
    var a := TakePage(pool, items, current, us, entries, F, U);
    if a.Err? {
      return Err(a.error), items, us;
    }
    var p := a.value;
    items' := items + [p];
    us' := Bump(us + [0]);
    var s := TakeSlot(pool, p, items', us + [0]);
    if s.Err? {
      return Err(s.error), items', us';
    }
    return Ok((p, s.value)), items', us';
  }

  /** Store token |entries|'s rows for every layer and head at the slot it claimed. */
  method Store(p: Page, slot: nat, t: nat, ghost items: seq<Page>, ghost entries: seq<Entry>, ghost kvs: seq<Tensors>, s: nat, layers: nat, heads: nat, fwdK: Forward, fwdV: Forward)
    returns (ghost kvs': seq<Tensors>)
    requires t == |entries| && items != [] && p == items[|items| - 1] && DistinctIds(items) && (p.id, slot) !in entries
    requires p.numLayers == layers && p.numHeads == heads
    requires Laid(items, entries + [(p.id, slot)], s) && Holds(items, kvs) && Filled(kvs, entries, s, layers, heads, fwdK, fwdV)
    modifies p`k, p`v
    ensures Holds(items, kvs') && Filled(kvs', entries + [(p.id, slot)], s, layers, heads, fwdK, fwdV)
  {
    var m := |items| - 1;
    forall i | 0 <= i < m
      ensures items[i] != p
    {
      IdsDiffer(items, i, m);
    }
    forall u | 0 <= u < t
      ensures PageOf(u, s) == m ==> entries[u].1 != slot
    {
      LaidAt(items, entries + [(p.id, slot)], s, u);
    }
    p.WriteSlot(slot, (l: nat, h: nat) => fwdK(l, h, t), (l: nat, h: nat) => fwdV(l, h, t));
    kvs' := kvs[m := (p.k, p.v)];
    FilledKeep(kvs, m, (p.k, p.v), slot, entries, s, layers, heads, fwdK, fwdV);
    LaidAt(items, entries + [(p.id, slot)], s, t);
    if PageOf(t, s) != m {
      IdsDiffer(items, PageOf(t, s), m);
    }
    assert RowsIn((p.k, p.v), layers, heads, slot, t, fwdK, fwdV);
  }

  /** The instrumented pass's kv_write events for one token, one per layer. */
  method LogKvWrites(logger: EventLogger?, pid: nat, slot: nat, u: nat, layers: nat)
    requires logger != null ==> logger.Valid()
    modifies logger
    ensures logger != null ==> logger.Logged(KvWrites(pid, slot, u, layers))
  {
    var l := 0;
    while l < layers
      invariant 0 <= l <= layers
      invariant logger != null ==> logger.Logged(KvWrites(pid, slot, u, l))
    {
      if logger != null {
        logger.LogEvent(KvWrite(pid, slot, u, l));
        assert KvWrites(pid, slot, u, l + 1) == KvWrites(pid, slot, u, l) + [KvWrite(pid, slot, u, l)];
      }
      l := l + 1;
    }
  }

  /** One token's stretch of log (its token_step, then its page_fault and kv_writes) extends the build's log by that token. */
  lemma LogStep(e0: seq<Event>, e1: seq<Event>, e2: seq<Event>, e3: seq<Event>, rid: nat, entries: seq<Entry>, e: Entry, layers: nat)
    requires Extends(e0, e1, rid, PrefixLog(entries, layers))
    requires Extends(e1, e2, rid, [TokenStep(|entries|)])
    requires Extends(e2, e3, rid, WriteLog(|entries|, e, layers))
    ensures Extends(e0, e3, rid, PrefixLog(entries + [e], layers))
  {
    ExtendsTrans(e0, e1, e2, rid, PrefixLog(entries, layers), [TokenStep(|entries|)]);
    ExtendsTrans(e0, e2, e3, rid, PrefixLog(entries, layers) + [TokenStep(|entries|)], WriteLog(|entries|, e, layers));
    PrefixLogAppend(entries, e, layers);
  }

  /**
   * Token t's rows written at the slot it claimed, then (instrumented pool)
   * one kv_write per layer; the pool and the slot counters are left alone.
   */
  method Write(pool: PagePool, p: Page, slot: nat, t: nat, ghost items: seq<Page>, ghost us: seq<nat>, ghost entries: seq<Entry>, ghost kvs: seq<Tensors>, fwdK: Forward, fwdV: Forward)
    returns (ghost kvs': seq<Tensors>)
    requires pool.Valid() && p !in pool.free && (pool.logger != null ==> pool.logger.Valid())
    requires Mirror(items, us)
    requires t == |entries| && items != [] && p == items[|items| - 1] && DistinctIds(items) && (p.id, slot) !in entries
    requires p.numLayers == pool.numLayers && p.numHeads == pool.numHeads
    requires Laid(items, entries + [(p.id, slot)], pool.pageSize)
    requires Holds(items, kvs) && Filled(kvs, entries, pool.pageSize, pool.numLayers, pool.numHeads, fwdK, fwdV)
    modifies p`k, p`v, pool.logger
    ensures pool.free == old(pool.free) && pool.used == old(pool.used)
    ensures pool.Valid() && Mirror(items, us)
    ensures Holds(items, kvs') && Filled(kvs', entries + [(p.id, slot)], pool.pageSize, pool.numLayers, pool.numHeads, fwdK, fwdV)
    ensures pool.logger != null ==> pool.logger.Logged(KvWrites(p.id, slot, t, pool.numLayers))
  {
    kvs' := Store(p, slot, t, items, entries, kvs, pool.pageSize, pool.numLayers, pool.numHeads, fwdK, fwdV);
    LogKvWrites(pool.logger, p.id, slot, t, pool.numLayers);
  }

  /** The second half of Place: the rows of token t written into the page and slot it claimed. */
  method WriteClaimed(pool: PagePool, p: Page, slot: nat, t: nat, ghost items: seq<Page>, ghost items': seq<Page>,
                      ghost us': seq<nat>, ghost entries: seq<Entry>, ghost kvs: seq<Tensors>, ghost F: seq<Page>,
                      ghost U: set<nat>, fwdK: Forward, fwdV: Forward)
    returns (ghost kvs': seq<Tensors>)
    requires pool.Valid() && (pool.logger != null ==> pool.logger.Valid())
    requires |entries| == t && Holds(items, kvs) && Filled(kvs, entries, pool.pageSize, pool.numLayers, pool.numHeads, fwdK, fwdV)
    requires p in F && p !in pool.free && items' == (if slot == 0 then items + [p] else items)
    requires Drawn(pool.free, pool.used, items', F, U, pool.pageSize, pool.numLayers, pool.numHeads)
    requires Current(items', p) && Mirror(items', us') && (p.id, slot) !in entries
    requires Layout(us', items', entries + [(p.id, slot)], pool.pageSize)
    modifies p`k, p`v, pool.logger
    ensures pool.Valid() && (pool.logger != null ==> pool.logger.Valid())
    ensures var entries' := entries + [(p.id, slot)];
      && Drawn(pool.free, pool.used, items', F, U, pool.pageSize, pool.numLayers, pool.numHeads)
      && Current(items', p) && Mirror(items', us') && Layout(us', items', entries', pool.pageSize)
      && Holds(items', kvs') && Filled(kvs', entries', pool.pageSize, pool.numLayers, pool.numHeads, fwdK, fwdV)
    ensures pool.logger != null ==> pool.logger.Logged(KvWrites(p.id, slot, t, pool.numLayers))
  {
    ghost var kvs1 := if slot == 0 then kvs + [(p.k, p.v)] else kvs;
    Opened(items, items', kvs, entries, p, pool.pageSize, pool.numLayers, pool.numHeads, fwdK, fwdV);
    kvs' := Write(pool, p, slot, t, items', us', entries, kvs1, fwdK, fwdV);
  }

  /**
   * Token t's page and slot, claimed, and its rows written there; the
   * instrumented pool logs a page_fault when the token opens a page and
   * one kv_write per layer.
   */
  method Place(pool: PagePool, t: nat, items: seq<Page>, current: Page?, ghost us: seq<nat>, ghost entries: seq<Entry>,
               ghost kvs: seq<Tensors>, ghost F: seq<Page>, ghost U: set<nat>, fwdK: Forward, fwdV: Forward)
    returns (r: Result<(Page, nat)>, items': seq<Page>, ghost us': seq<nat>, ghost kvs': seq<Tensors>)
    requires pool.Valid() && (pool.logger != null ==> pool.logger.Valid())
    requires Drawn(pool.free, pool.used, items, F, U, pool.pageSize, pool.numLayers, pool.numHeads)
    requires Current(items, current) && Mirror(items, us) && Layout(us, items, entries, pool.pageSize)
    requires |entries| == t && Holds(items, kvs) && Filled(kvs, entries, pool.pageSize, pool.numLayers, pool.numHeads, fwdK, fwdV)
    modifies pool, pool.logger, F`used, F`k, F`v
    ensures pool.Valid() && (pool.logger != null ==> pool.logger.Valid())
    ensures r.Err? <==> PrefixFails(t + 1, pool.pageSize, |F|)
    ensures r.Err? ==> r.error == PrefixError(pool.kind, pool.pageSize, |F|)
    ensures r.Ok? ==>
      var entries' := entries + [(r.value.0.id, r.value.1)];
      && Drawn(pool.free, pool.used, items', F, U, pool.pageSize, pool.numLayers, pool.numHeads)
      && Current(items', r.value.0) && Mirror(items', us') && Layout(us', items', entries', pool.pageSize)
      && Holds(items', kvs') && Filled(kvs', entries', pool.pageSize, pool.numLayers, pool.numHeads, fwdK, fwdV)
    ensures r.Ok? && pool.logger != null ==> pool.logger.Logged(WriteLog(t, (r.value.0.id, r.value.1), pool.numLayers))
  {
    var logger := pool.logger;
    ghost var e1 := if logger != null then logger.events else [];
    var c;
    c, items', us' := Claim(pool, items, current, us, entries, F, U);
    assert Holds(items, kvs);
    if c.Err? {
      return Err(c.error), items', us', kvs;
    }
    var p, slot := c.value.0, c.value.1;
    ghost var e2 := if logger != null then logger.events else [];
    kvs' := WriteClaimed(pool, p, slot, t, items, items', us', entries, kvs, F, U, fwdK, fwdV);
    if logger != null {
      ExtendsTrans(e1, e2, logger.events, logger.currentRequestId, if slot == 0 then [PageFault(p.id)] else [], KvWrites(p.id, slot, t, pool.numLayers));
    }
    r := Ok((p, slot));
  }

  /**
   * One token of the build: its token_step event (instrumented pool), then
   * the page and slot it claims, its rows written there and the events
   * that go with them.
   */
  method Token(pool: PagePool, t: nat, items: seq<Page>, current: Page?, ghost us: seq<nat>, ghost entries: seq<Entry>,
               ghost kvs: seq<Tensors>, ghost F: seq<Page>, ghost U: set<nat>, fwdK: Forward, fwdV: Forward, ghost E0: seq<Event>, ghost rid: nat, ghost rc: nat)
    returns (r: Result<(Page, nat)>, items': seq<Page>, ghost us': seq<nat>, ghost kvs': seq<Tensors>)
    requires pool.Valid() && (pool.logger != null ==> pool.logger.Valid())
    requires Drawn(pool.free, pool.used, items, F, U, pool.pageSize, pool.numLayers, pool.numHeads)
    requires Current(items, current) && Mirror(items, us) && Layout(us, items, entries, pool.pageSize)
    requires |entries| == t && Holds(items, kvs) && Filled(kvs, entries, pool.pageSize, pool.numLayers, pool.numHeads, fwdK, fwdV)
    requires pool.logger != null ==>
      && Extends(E0, pool.logger.events, rid, PrefixLog(entries, pool.numLayers))
      && pool.logger.currentRequestId == rid && pool.logger.requestCounter == rc
    modifies pool, pool.logger, F`used, F`k, F`v
    ensures pool.Valid() && (pool.logger != null ==> pool.logger.Valid())
    ensures r.Err? <==> PrefixFails(t + 1, pool.pageSize, |F|)
    ensures r.Err? ==> r.error == PrefixError(pool.kind, pool.pageSize, |F|)
    ensures r.Ok? ==>
      var entries' := entries + [(r.value.0.id, r.value.1)];
      && Drawn(pool.free, pool.used, items', F, U, pool.pageSize, pool.numLayers, pool.numHeads)
      && Current(items', r.value.0) && Mirror(items', us') && Layout(us', items', entries', pool.pageSize)
      && Holds(items', kvs') && Filled(kvs', entries', pool.pageSize, pool.numLayers, pool.numHeads, fwdK, fwdV)
      && (pool.logger != null ==>
           && Extends(E0, pool.logger.events, rid, PrefixLog(entries', pool.numLayers))
           && pool.logger.currentRequestId == rid && pool.logger.requestCounter == rc)
  {
    var logger := pool.logger;
    ghost var e1 := if logger != null then logger.events else [];
    if logger != null {
      logger.LogEvent(TokenStep(t));
    }
    ghost var e2 := if logger != null then logger.events else [];
    assert Holds(items, kvs) && Mirror(items, us);
    r, items', us', kvs' := Place(pool, t, items, current, us, entries, kvs, F, U, fwdK, fwdV);
    if r.Ok? && logger != null {
      LogStep(E0, e1, e2, logger.events, rid, entries, (r.value.0.id, r.value.1), pool.numLayers);
    }
  }

  /** A finished loop is a built prefix. */
  lemma {:induction false} Finished(items: seq<Page>, us: seq<nat>, entries: seq<Entry>, kvs: seq<Tensors>, n: nat, s: nat, layers: nat, heads: nat, fwdK: Forward, fwdV: Forward)
    requires Mirror(items, us) && Layout(us, items, entries, s) && |entries| == n
    requires DistinctIds(items) && Shaped(items, s, layers, heads)
    requires Holds(items, kvs) && Filled(kvs, entries, s, layers, heads, fwdK, fwdV)
    ensures PrefixBuilt(items, entries, n, s, fwdK, fwdV)
  {
    if n > 0 {
      var m := |us|;
      PlaceOf(n - 1, s, m - 1, us[m - 1] - 1);
      PlaceIsDivMod(n - 1, s);
      assert |items| == CeilDiv(n, s);
      EntriesBuilt(items, entries, kvs, s, layers, heads, fwdK, fwdV);
    }
  }

  lemma {:induction false} EntriesBuilt(items: seq<Page>, entries: seq<Entry>, kvs: seq<Tensors>, s: nat, layers: nat, heads: nat, fwdK: Forward, fwdV: Forward)
    requires Laid(items, entries, s) && Shaped(items, s, layers, heads)
    requires Holds(items, kvs) && Filled(kvs, entries, s, layers, heads, fwdK, fwdV)
    ensures forall u | 0 <= u < |entries| ::
      u / s < |items| && entries[u] == (items[u / s].id, u % s) && Stored(items[u / s], u % s, u, fwdK, fwdV)
  {
    forall u | 0 <= u < |entries|
      ensures u / s < |items| && entries[u] == (items[u / s].id, u % s) && Stored(items[u / s], u % s, u, fwdK, fwdV)
    {
      EntryBuilt(items, entries, kvs, s, layers, heads, fwdK, fwdV, u);
    }
  }

  /** Token u's entry and rows, read with Python's division and remainder. */
  lemma {:induction false} EntryBuilt(items: seq<Page>, entries: seq<Entry>, kvs: seq<Tensors>, s: nat, layers: nat, heads: nat, fwdK: Forward, fwdV: Forward, u: nat)
    requires Laid(items, entries, s) && Shaped(items, s, layers, heads)
    requires Holds(items, kvs) && Filled(kvs, entries, s, layers, heads, fwdK, fwdV) && u < |entries|
    ensures s > 0 && u / s < |items| && entries[u] == (items[u / s].id, u % s) && Stored(items[u / s], u % s, u, fwdK, fwdV)
  {
    LaidAt(items, entries, s, u);
    FilledAt(kvs, entries, s, layers, heads, fwdK, fwdV, u);
    PlaceIsDivMod(u, s);
  }

  /**
   * `compute_prefix(prefix_tokens, page_pool)` for a prompt the tokenizer
   * turns into n tokens: pages taken from the pool in LIFO order, the table,
   * and (instrumented pool) the log. Errors are the pool's out-of-pages error
   * and, for pages of size 0, the page-full error.
   */
  method ComputePrefix(pool: PagePool, n: nat, fwdK: Forward, fwdV: Forward) returns (r: Result<(PageList, PageTable)>)
    requires pool.Valid() && (pool.logger != null ==> pool.logger.Valid())
    modifies pool, pool.logger, pool.free`used, pool.free`k, pool.free`v
    ensures pool.Valid() && (pool.logger != null ==> pool.logger.Valid())
    ensures r.Err? <==> PrefixFails(n, pool.pageSize, |old(pool.free)|)
    ensures r.Err? ==> r.error == PrefixError(pool.kind, pool.pageSize, |old(pool.free)|)
    ensures r.Ok? ==> fresh(r.value.0) && fresh(r.value.1)
    ensures r.Ok? ==> PrefixBuilt(r.value.0.items, r.value.1.entries, n, pool.pageSize, fwdK, fwdV)
    ensures r.Ok? ==> Taken(pool.free, pool.used, r.value.0.items, old(pool.free), old(pool.used).Keys)
    ensures r.Ok? && pool.logger != null ==> pool.logger.Logged(PrefixLog(r.value.1.entries, pool.numLayers))
  {
    var b := BuildPrefix(pool, n, fwdK, fwdV);
    if b.Err? {
      return Err(b.error);
    }
    var pages := new PageList.Of(b.value.0);
    var table := new PageTable.Of(b.value.1);
    return Ok((pages, table));
  }

  /** The loop of compute_prefix: the pages and table, not yet wrapped in their objects. */
  method BuildPrefix(pool: PagePool, n: nat, fwdK: Forward, fwdV: Forward) returns (r: Result<(seq<Page>, seq<Entry>)>)
    requires pool.Valid() && (pool.logger != null ==> pool.logger.Valid())
    modifies pool, pool.logger, pool.free`used, pool.free`k, pool.free`v
    ensures pool.Valid() && (pool.logger != null ==> pool.logger.Valid())
    ensures r.Err? <==> PrefixFails(n, pool.pageSize, |old(pool.free)|)
    ensures r.Err? ==> r.error == PrefixError(pool.kind, pool.pageSize, |old(pool.free)|)
    ensures r.Ok? ==> PrefixBuilt(r.value.0, r.value.1, n, pool.pageSize, fwdK, fwdV)
    ensures r.Ok? ==> Taken(pool.free, pool.used, r.value.0, old(pool.free), old(pool.used).Keys)
    ensures r.Ok? && pool.logger != null ==> pool.logger.Logged(PrefixLog(r.value.1, pool.numLayers))
  {
    var S := pool.pageSize;
    var L := pool.numLayers;
    var logger := pool.logger;
    ghost var F := pool.free;
    ghost var U := pool.used.Keys;
    ghost var E0 := if logger != null then logger.events else [];
    ghost var rid := if logger != null then logger.currentRequestId else 0;
    ghost var rc := if logger != null then logger.requestCounter else 0;
    var items: seq<Page> := [];
    var entries: seq<Entry> := [];
    var current: Page? := null;
    ghost var us: seq<nat> := [];
    ghost var kvs: seq<Tensors> := [];
    var t := 0;
    while t < n
      invariant 0 <= t <= n
      invariant pool.Valid() && (logger != null ==> logger.Valid())
      invariant Drawn(pool.free, pool.used, items, F, U, S, L, pool.numHeads)
      invariant Current(items, current) && Mirror(items, us) && Layout(us, items, entries, S)
      invariant |entries| == t && !PrefixFails(t, S, |F|)
      invariant Holds(items, kvs) && Filled(kvs, entries, S, L, pool.numHeads, fwdK, fwdV)
      invariant logger != null ==>
        Extends(E0, logger.events, rid, PrefixLog(entries, L)) && logger.currentRequestId == rid && logger.requestCounter == rc
    {
      var c, items', us', kvs' := Token(pool, t, items, current, us, entries, kvs, F, U, fwdK, fwdV, E0, rid, rc);
      if c.Err? {
        FailsMono(t + 1, n, S, |F|);
        return Err(c.error);
      }
      var p, slot := c.value.0, c.value.1;
      items, us, kvs := items', us', kvs';
      entries := entries + [(p.id, slot)];
      current := p;
      t := t + 1;
      assert !PrefixFails(t, S, |F|);
      assert |entries| == t;
    }
    Finished(items, us, entries, kvs, n, S, L, pool.numHeads, fwdK, fwdV);
    return Ok((items, entries));
  }
}
