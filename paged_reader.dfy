/**
 * The paged gather: walk the page table in token order and read, for each
 * entry (page id, slot), the K and V rows at (layer, head, slot) of the page
 * with that id. The same loop appears in the paged reader and in the gather
 * half of both PagedAttention functions; the attention arithmetic after it is
 * floating point and is not modelled.
 */
module PagedReader {
  import opened Common
  import opened Pages
  import opened PageTables

  /** What the caller passes as `pages`: a list indexed by position, or a dictionary keyed by page id. */
  datatype PageIndex = ByPosition(list: seq<Page>) | ById(dict: map<nat, Page>)

  function PagesOf(pages: PageIndex): set<Page>
  {
    match pages
    case ByPosition(list) => set p | p in list
    case ById(dict) => dict.Values
  }

  /** `pages[page_id]`: IndexError past the end of a list, KeyError for an absent dictionary key. */
  function PageAt(pages: PageIndex, pid: nat): (r: Result<Page>)
    ensures r.Ok? ==> r.value in PagesOf(pages)
    ensures pages.ByPosition? ==> (r.Ok? <==> pid < |pages.list|) && (r.Ok? ==> r.value == pages.list[pid])
    ensures pages.ById? ==> (r.Ok? <==> pid in pages.dict) && (r.Ok? ==> r.value == pages.dict[pid])
  {
    match pages
    case ByPosition(list) => if pid < |list| then Ok(list[pid]) else Err(IndexError)
    case ById(dict) => if pid in dict then Ok(dict[pid]) else Err(KeyError(pid))
  }

  /** Whether `pages[pid]` is the page whose id is pid for every pid it answers. */
  ghost predicate IndexedById(pages: PageIndex)
  {
    match pages
    case ByPosition(list) => forall i | 0 <= i < |list| :: list[i].id == i
    case ById(dict) => forall pid | pid in dict :: dict[pid].id == pid
  }

  /** The K and V rows one table entry reads, or the indexing error it raises. */
  function ReadEntry(pages: PageIndex, e: Entry, layer: nat, head: nat): (r: Result<(Vec, Vec)>)
    reads PagesOf(pages)
  {
    match PageAt(pages, e.0)
    case Err(err) => Err(err)
    case Ok(p) =>
      if p.InBounds((layer, head, e.1)) then Ok((p.ReadK((layer, head, e.1)), p.ReadV((layer, head, e.1))))
      else Err(IndexError)
  }

  /** The gathered rows (K list, V list) of a table prefix, or the first error met. */
  function GatherRows(pages: PageIndex, entries: seq<Entry>, layer: nat, head: nat): Result<(seq<Vec>, seq<Vec>)>
    reads PagesOf(pages)
    decreases |entries|
  {
    if entries == [] then Ok(([], []))
    else
      match GatherRows(pages, entries[..|entries| - 1], layer, head)
      case Err(err) => Err(err)
      case Ok(rows) =>
        match ReadEntry(pages, entries[|entries| - 1], layer, head)
        case Err(err) => Err(err)
        case Ok(kv) => Ok((rows.0 + [kv.0], rows.1 + [kv.1]))
  }

  const EmptyStackMessage: string := "stack expects a non-empty TensorList"

  /** The gather's result: an empty table fails at the final stack; otherwise the gathered rows. */
  function GatherResult(pages: PageIndex, entries: seq<Entry>, layer: nat, head: nat): Result<(seq<Vec>, seq<Vec>)>
    reads PagesOf(pages)
  {
    if entries == [] then Err(RuntimeError(EmptyStackMessage)) else GatherRows(pages, entries, layer, head)
  }

  /**
   * A successful gather has one K row and one V row per table entry, in
   * token order, each read at (layer, head, slot) of the entry's page; it
   * succeeds exactly when every entry's read does.
   */
  lemma {:induction false} GatherRowsMeaning(pages: PageIndex, entries: seq<Entry>, layer: nat, head: nat)
    ensures var r := GatherRows(pages, entries, layer, head);
      && (r.Ok? <==> forall t | 0 <= t < |entries| :: ReadEntry(pages, entries[t], layer, head).Ok?)
      && (r.Ok? ==> |r.value.0| == |entries| && |r.value.1| == |entries|)
      && (r.Ok? ==> forall t | 0 <= t < |entries| ::
            var kv := ReadEntry(pages, entries[t], layer, head).value;
            r.value.0[t] == kv.0 && r.value.1[t] == kv.1)
    decreases |entries|
  {
    if entries != [] {
      var init := entries[..|entries| - 1];
      GatherRowsMeaning(pages, init, layer, head);
      assert forall t | 0 <= t < |init| :: entries[t] == init[t];
    }
  }

  /** When `pages` is indexed by id, row t of a successful gather is the cell of the page whose id is entry t's. */
  lemma GatherReadsOwnPages(pages: PageIndex, entries: seq<Entry>, layer: nat, head: nat)
    requires IndexedById(pages)
    requires GatherRows(pages, entries, layer, head).Ok?
    ensures forall t | 0 <= t < |entries| ::
      && PageAt(pages, entries[t].0).Ok?
      && PageAt(pages, entries[t].0).value.id == entries[t].0
      && t < |GatherRows(pages, entries, layer, head).value.0|
      && GatherRows(pages, entries, layer, head).value.0[t]
         == PageAt(pages, entries[t].0).value.ReadK((layer, head, entries[t].1))
  {
    GatherRowsMeaning(pages, entries, layer, head);
  }

  /**
   * `gather_paged_kv` (and the gather loop of PagedAttention): build the K
   * and V lists in table order, then stack them. Reads only.
   */
  method Gather(pages: PageIndex, table: PageTable, layer: nat, head: nat) returns (r: Result<(seq<Vec>, seq<Vec>)>)
    ensures r == GatherResult(pages, table.entries, layer, head)
  {
    var kList: seq<Vec> := [];
    var vList: seq<Vec> := [];
    var t := 0;
    while t < |table.entries|
      invariant 0 <= t <= |table.entries|
      invariant GatherRows(pages, table.entries[..t], layer, head) == Ok((kList, vList))
    {
      var e := table.Lookup(t);
      var entry := e.value;
      assert table.entries[..t + 1][..t] == table.entries[..t];
      var page := PageAt(pages, entry.0);
      if page.Err? {
        return ErrorAfter(pages, table.entries, t, layer, head, page.error);
      }
      var cell := (layer, head, entry.1);
      if !page.value.InBounds(cell) {
        return ErrorAfter(pages, table.entries, t, layer, head, IndexError);
      }
      kList := kList + [page.value.ReadK(cell)];
      vList := vList + [page.value.ReadV(cell)];
      t := t + 1;
    }
    assert table.entries[..t] == table.entries;
    if kList == [] {
      return Err(RuntimeError(EmptyStackMessage));
    }
    return Ok((kList, vList));
  }

  /** An error at entry t stops the whole gather with that error. */
  function ErrorAfter(pages: PageIndex, entries: seq<Entry>, t: nat, layer: nat, head: nat, err: Error): (r: Result<(seq<Vec>, seq<Vec>)>)
    requires t < |entries|
    requires GatherRows(pages, entries[..t], layer, head).Ok?
    requires ReadEntry(pages, entries[t], layer, head) == Err(err)
    reads PagesOf(pages)
    ensures r == Err(err) && r == GatherResult(pages, entries, layer, head)
  {
    ErrorPropagates(pages, entries, t + 1, layer, head, err);
    Err(err)
  }

  lemma {:induction false} ErrorPropagates(pages: PageIndex, entries: seq<Entry>, n: nat, layer: nat, head: nat, err: Error)
    requires 0 < n <= |entries|
    requires GatherRows(pages, entries[..n - 1], layer, head).Ok?
    requires ReadEntry(pages, entries[n - 1], layer, head) == Err(err)
    ensures GatherRows(pages, entries[..n], layer, head) == Err(err)
    ensures GatherRows(pages, entries, layer, head) == Err(err)
    decreases |entries| - n
  {
    assert entries[..n][..n - 1] == entries[..n - 1];
    if n < |entries| {
      ErrorExtends(pages, entries, n, layer, head, err);
    } else {
      assert entries[..n] == entries;
    }
  }

  lemma {:induction false} ErrorExtends(pages: PageIndex, entries: seq<Entry>, n: nat, layer: nat, head: nat, err: Error)
    requires 0 < n <= |entries|
    requires GatherRows(pages, entries[..n], layer, head) == Err(err)
    ensures GatherRows(pages, entries, layer, head) == Err(err)
    decreases |entries| - n
  {
    if n == |entries| {
      assert entries[..n] == entries;
    } else {
      assert entries[..n + 1][..n] == entries[..n];
      ErrorExtends(pages, entries, n + 1, layer, head, err);
    }
  }
}
