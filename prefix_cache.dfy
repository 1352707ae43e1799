/**
 * The prefix cache: a dictionary from a prefix key (Python's hash of the
 * token tuple) to the request's page list and page table. It stores the
 * objects themselves, so later in-place changes show through it.
 */
module PrefixCaches {
  import opened Common
  import opened Pages
  import opened PageTables

  /** What the cache holds per key: the very list and table objects of the request that built it. */
  datatype CacheEntry = CacheEntry(pages: PageList, table: PageTable)

  /** `dict.get`: None for a key never put. */
  function GetIn(m: map<int, CacheEntry>, key: int): (r: Option<CacheEntry>)
    ensures r.Some? <==> key in m
    ensures r.Some? ==> r.value == m[key]
  {
    if key in m then Some(m[key]) else None
  }

  /** A put answers its own key with the stored entry and leaves every other key's answer alone. */
  lemma GetAfterPut(m: map<int, CacheEntry>, key: int, e: CacheEntry, other: int)
    ensures GetIn(m[key := e], key) == Some(e)
    ensures other != key ==> GetIn(m[key := e], other) == GetIn(m, other)
  {
  }

  /** A second put for the same key replaces the first. */
  lemma PutOverwrites(m: map<int, CacheEntry>, key: int, e1: CacheEntry, e2: CacheEntry)
    ensures GetIn(m[key := e1][key := e2], key) == Some(e2)
  {
  }

  lemma EmptyGetsNone(key: int)
    ensures GetIn(map[], key) == None
  {
  }

  class PrefixCache {
    var cache: map<int, CacheEntry>

    constructor()
      ensures cache == map[]
    {
      cache := map[];
    }

    /** `get`: a pure lookup. */
    function Get(key: int): Option<CacheEntry>
      reads this
    {
      GetIn(cache, key)
    }

    /** `put`: store the entry (not a copy) under key; nothing else changes, no ref count is touched. */
    method Put(key: int, e: CacheEntry)
      modifies this
      ensures cache == old(cache)[key := e]
      ensures Get(key) == Some(e)
      ensures forall k | k != key :: Get(k) == old(Get(k))
    {
      cache := cache[key := e];
    }
  }
}
