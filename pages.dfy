/**
 * A KV page: a fixed-capacity block of slots with a `used` counter, a
 * reference count, and key/value storage addressed by (layer, head, slot).
 * The page class here combines the fields the repository's files use on a
 * page: id, size and counter from the page file, and the ref count and K/V
 * tensors from the pool and the drivers.
 */
module Pages {
  import opened Common

  /** One head_dim-wide row of a K or V tensor; `ZeroRow` is what a fresh zero tensor holds. */
  datatype Vec = ZeroRow | Row(values: seq<real>)

  /** A tensor cell index: (layer, head, slot). */
  type Cell = (nat, nat, nat)

  const PageFullMessage: string := "The Page is Full"

  /** The cells a token's write touches: every layer and head at one slot. */
  function SlotCells(layers: nat, heads: nat, slot: nat): (cs: set<Cell>)
    ensures forall c: Cell :: c in cs <==> c.0 < layers && c.1 < heads && c.2 == slot
  {
    set l: nat, h: nat | l < layers && h < heads :: (l, h, slot)
  }

  /** The row a tensor holds at a cell; a cell never written reads as the zero row. */
  function Read(m: map<Cell, Vec>, c: Cell): Vec
  {
    if c in m then m[c] else ZeroRow
  }

  class Page {
    const id: nat
    const size: nat
    const numLayers: nat
    const numHeads: nat
    var used: nat
    var refCount: int
    var k: map<Cell, Vec>
    var v: map<Cell, Vec>

    /** `KVPage(page_id, page_size, ...)`: an empty page with zeroed tensors. */
    constructor(id: nat, size: nat, numLayers: nat, numHeads: nat)
      ensures this.id == id && this.size == size
      ensures this.numLayers == numLayers && this.numHeads == numHeads
      ensures used == 0 && refCount == 0 && k == map[] && v == map[]
    {
      this.id := id;
      this.size := size;
      this.numLayers := numLayers;
      this.numHeads := numHeads;
      used := 0;
      refCount := 0;
      k := map[];
      v := map[];
    }

    /** `has_space`. */
    predicate HasSpace()
      reads this
    {
      used < size
    }

    /** `allocate_slot`: the next free slot, or "The Page is Full" with nothing changed. */
    method AllocateSlot() returns (r: Result<nat>)
      modifies this`used
      ensures old(used) < size ==> r == Ok(old(used)) && used == old(used) + 1
      ensures old(used) >= size ==> r == Err(RuntimeError(PageFullMessage)) && used == old(used)
      ensures old(used) <= size ==> used <= size
      ensures r.Ok? ==> r.value < size
    {
      if !HasSpace() {
        return Err(RuntimeError(PageFullMessage));
      }
      var slot := used;
      used := used + 1;
      return Ok(slot);
    }

    /** The allocate_slot of the self-contained comparison driver: no fullness check. */
    method AllocateSlotUnchecked() returns (slot: nat)
      modifies this`used
      ensures slot == old(used) && used == old(used) + 1
    {
      slot := used;
      used := used + 1;
    }

    /** The K row at a cell; a cell never written reads as the zero row. */
    function ReadK(c: Cell): Vec
      reads this`k
    {
      Read(k, c)
    }

    function ReadV(c: Cell): Vec
      reads this`v
    {
      Read(v, c)
    }

    /** Whether a cell index lies inside the page's tensor shape. */
    predicate InBounds(c: Cell)
    {
      c.0 < numLayers && c.1 < numHeads && c.2 < size
    }

    /** `K[layer, :, slot, :] = ...` for every layer (and V likewise): one token's rows at one slot. */
    method WriteSlot(slot: nat, rowK: (nat, nat) -> Vec, rowV: (nat, nat) -> Vec)
      modifies this`k, this`v
      ensures forall c: Cell :: ReadK(c) == if c in SlotCells(numLayers, numHeads, slot) then rowK(c.0, c.1) else old(ReadK(c))
      ensures forall c: Cell :: ReadV(c) == if c in SlotCells(numLayers, numHeads, slot) then rowV(c.0, c.1) else old(ReadV(c))
    {
      var cells := SlotCells(numLayers, numHeads, slot);
      k := k + map c | c in cells :: rowK(c.0, c.1);
      v := v + map c | c in cells :: rowV(c.0, c.1);
    }

    /**
     * The copy-on-write statements on a fresh page: `K[:] = src.K[:]` and
     * `V[:] = src.V[:]` (both tensors, not the slot counter), then the shared
     * source loses a reference and this page has one.
     */
    method TakeOver(src: Page)
      requires src != this
      modifies this`k, this`v, this`refCount, src`refCount
      ensures k == old(src.k) && v == old(src.v)
      ensures src.refCount == old(src.refCount) - 1 && refCount == 1
    {
      k := src.k;
      v := src.v;
      src.refCount := src.refCount - 1;
      refCount := 1;
    }

    /** `K[layer, head, slot] = row` (and V likewise): one cell of each tensor. */
    method WriteCell(c: Cell, rowK: Vec, rowV: Vec)
      modifies this`k, this`v
      ensures k == old(k)[c := rowK] && v == old(v)[c := rowV]
      ensures ReadK(c) == rowK && ReadV(c) == rowV
    {
      k := k[c := rowK];
      v := v[c := rowV];
    }
  }

  /**
   * Successive slot requests on a fresh page of any size: slots 0, 1, ...,
   * size - 1 in order, then the page-full error.
   */
  method SlotsOfFreshPage(size: nat) returns (slots: seq<Result<nat>>)
    ensures |slots| == size + 1
    ensures forall i | 0 <= i < size :: slots[i] == Ok(i)
    ensures slots[size] == Err(RuntimeError(PageFullMessage))
  {
    var p := new Page(0, size, 1, 1);
    slots := [];
    while |slots| < size + 1
      invariant |slots| <= size + 1
      invariant p.used == if |slots| <= size then |slots| else size
      invariant forall i | 0 <= i < |slots| && i < size :: slots[i] == Ok(i)
      invariant |slots| == size + 1 ==> slots[size] == Err(RuntimeError(PageFullMessage))
    {
      var r := p.AllocateSlot();
      slots := slots + [r];
    }
  }

  /** A Python list of pages, shared by reference (a request's page list). */
  class PageList {
    var items: seq<Page>

    constructor()
      ensures items == []
    {
      items := [];
    }

    /** A list holding the given pages, in order. */
    constructor Of(items: seq<Page>)
      ensures this.items == items
    {
      this.items := items;
    }

    /** `pages.append(page)`. */
    method Append(p: Page)
      modifies this
      ensures items == old(items) + [p]
    {
      items := items + [p];
    }

    /** `pages[-1] = page`: IndexError on an empty list. */
    method SetLast(p: Page) returns (r: Result<()>)
      modifies this
      ensures old(items) == [] ==> r == Err(IndexError) && items == old(items)
      ensures old(items) != [] ==> r == Ok(()) && items == old(items)[..|old(items)| - 1] + [p]
    {
      if items == [] {
        return Err(IndexError);
      }
      items := items[..|items| - 1] + [p];
      return Ok(());
    }

    /** `pages[-1]`: IndexError on an empty list. */
    function Last(): (r: Result<Page>)
      reads this
      ensures items == [] <==> r == Err(IndexError)
      ensures r.Ok? ==> r.value == items[|items| - 1]
    {
      if items == [] then Err(IndexError) else Ok(items[|items| - 1])
    }
  }
}
