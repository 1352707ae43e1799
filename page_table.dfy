/**
 * The page table: the list of (page id, slot) pairs that maps a token's
 * logical position to its physical place in the paged cache.
 */
module PageTables {
  import opened Common

  /** A table entry: (page id, slot). */
  type Entry = (nat, nat)

  /** `table[i]` with Python's list indexing: negative indices count from the end. */
  function LookupIn(entries: seq<Entry>, i: int): (r: Result<Entry>)
    ensures 0 <= i < |entries| ==> r == Ok(entries[i])
    ensures -|entries| <= i < 0 ==> r == Ok(entries[|entries| + i])
    ensures r == Err(IndexError) <==> i >= |entries| || i < -|entries|
  {
    if 0 <= i < |entries| then Ok(entries[i])
    else if -|entries| <= i < 0 then Ok(entries[|entries| + i])
    else Err(IndexError)
  }

  /** Appending an entry keeps every earlier position's lookup and answers the new position with the new entry. */
  lemma LookupAfterAppend(entries: seq<Entry>, e: Entry, i: int)
    requires 0 <= i <= |entries|
    ensures LookupIn(entries + [e], i) == if i < |entries| then LookupIn(entries, i) else Ok(e)
  {
  }

  /** After adding pairs one by one to an empty table, position i answers the pair of the (i+1)-th add. */
  lemma {:induction false} LookupAfterAdds(adds: seq<Entry>, i: nat)
    requires i < |adds|
    ensures LookupIn(AddAll([], adds), i) == Ok(adds[i])
    decreases |adds|
  {
    AddAllAppends([], adds);
  }

  /** The entries after a run of adds. */
  function AddAll(entries: seq<Entry>, adds: seq<Entry>): seq<Entry>
    decreases |adds|
  {
    if adds == [] then entries else AddAll(entries + [adds[0]], adds[1..])
  }

  lemma {:induction false} AddAllAppends(entries: seq<Entry>, adds: seq<Entry>)
    ensures AddAll(entries, adds) == entries + adds
    decreases |adds|
  {
    if adds != [] {
      AddAllAppends(entries + [adds[0]], adds[1..]);
      assert entries + [adds[0]] + adds[1..] == entries + adds;
    }
  }

  /** `PageTable` of pages/page_table.py (and its copy in the comparison driver). */
  class PageTable {
    var entries: seq<Entry>

    constructor()
      ensures entries == []
    {
      entries := [];
    }

    /** A table holding the given entries, in order (what a run of adds on a new table leaves). */
    constructor Of(entries: seq<Entry>)
      ensures this.entries == entries
    {
      this.entries := entries;
    }

    /** `add`: one entry at the end, earlier entries untouched. */
    method Add(pageId: nat, slot: nat)
      modifies this
      ensures entries == old(entries) + [(pageId, slot)]
      ensures forall i | 0 <= i < |old(entries)| :: Lookup(i) == old(Lookup(i))
      ensures Lookup(|old(entries)|) == Ok((pageId, slot))
    {
      entries := entries + [(pageId, slot)];
    }

    /** `lookup`: reads the table, changes nothing. */
    function Lookup(i: int): Result<Entry>
      reads this
    {
      LookupIn(entries, i)
    }
  }
}
