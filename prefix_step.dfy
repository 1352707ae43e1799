/**
 * The prefix step of a request in the day-5 driver and the simulator: reuse
 * the cached list and table for the prompt's key, or build them and cache
 * them.
 */
module PrefixSteps {
  import opened Common
  import opened Pages
  import opened Pool
  import opened PrefixCaches
  import opened EventLog
  import opened Prefix
  import opened Requests

  /**
   * Request 1's prefix step: a cached key is reused (see Reuse); otherwise the
   * prefix is built, each of its pages is held once, and the list and table
   * objects are put in the cache under the key.
   */
  method Acquire(pool: PagePool, cache: PrefixCache, key: int, n: nat, fwdK: Forward, fwdV: Forward) returns (r: Result<CacheEntry>)
    requires pool.Valid() && (pool.logger != null ==> pool.logger.Valid())
    requires key in cache.cache ==> DistinctIds(cache.cache[key].pages.items)
    modifies pool, pool.logger, pool.free`used, pool.free`k, pool.free`v, pool.free`refCount, cache
    modifies (if key in cache.cache then cache.cache[key].pages.items else [])`refCount
    ensures pool.Valid() && (pool.logger != null ==> pool.logger.Valid())
    ensures key in old(cache.cache) ==>
      && r == Ok(old(cache.cache[key]))
      && cache.cache == old(cache.cache)
      && pool.free == old(pool.free) && pool.used == old(pool.used) && pool.usedOrder == old(pool.usedOrder)
      && (forall i | 0 <= i < |r.value.pages.items| :: r.value.pages.items[i].refCount == old(r.value.pages.items[i].refCount) + 1)
      && (pool.logger != null ==> pool.logger.Logged([PrefixReuse(DecimalString(key), |r.value.pages.items|)]))
    ensures key !in old(cache.cache) ==>
      && (r.Err? <==> PrefixFails(n, pool.pageSize, |old(pool.free)|))
      && (r.Err? ==> r.error == PrefixError(pool.kind, pool.pageSize, |old(pool.free)|) && cache.cache == old(cache.cache))
    ensures key !in old(cache.cache) && r.Ok? ==>
      && fresh(r.value.pages) && fresh(r.value.table)
      && cache.cache == old(cache.cache)[key := r.value]
      && PrefixBuilt(r.value.pages.items, r.value.table.entries, n, pool.pageSize, fwdK, fwdV)
      && Taken(pool.free, pool.used, r.value.pages.items, old(pool.free), old(pool.used).Keys)
      && (forall i | 0 <= i < |r.value.pages.items| :: r.value.pages.items[i].refCount == 1)
      && (pool.logger != null ==> pool.logger.Logged(PrefixLog(r.value.table.entries, pool.numLayers)))
  {
    if key in cache.cache {
      r := Reuse(pool, cache, key);
    } else {
      r := Build(pool, cache, key, n, fwdK, fwdV);
    }
  }

  /** The miss path of Acquire: build the prefix, hold each page once, cache the list and table. */
  method Build(pool: PagePool, cache: PrefixCache, key: int, n: nat, fwdK: Forward, fwdV: Forward) returns (r: Result<CacheEntry>)
    requires pool.Valid() && (pool.logger != null ==> pool.logger.Valid())
    modifies pool, pool.logger, pool.free`used, pool.free`k, pool.free`v, pool.free`refCount, cache
    ensures pool.Valid() && (pool.logger != null ==> pool.logger.Valid())
    ensures r.Err? <==> PrefixFails(n, pool.pageSize, |old(pool.free)|)
    ensures r.Err? ==> r.error == PrefixError(pool.kind, pool.pageSize, |old(pool.free)|) && cache.cache == old(cache.cache)
    ensures r.Ok? ==>
      && fresh(r.value.pages) && fresh(r.value.table)
      && cache.cache == old(cache.cache)[key := r.value]
      && PrefixBuilt(r.value.pages.items, r.value.table.entries, n, pool.pageSize, fwdK, fwdV)
      && Taken(pool.free, pool.used, r.value.pages.items, old(pool.free), old(pool.used).Keys)
      && (forall i | 0 <= i < |r.value.pages.items| :: r.value.pages.items[i].refCount == 1)
      && (pool.logger != null ==> pool.logger.Logged(PrefixLog(r.value.table.entries, pool.numLayers)))
  {
    var b := ComputePrefix(pool, n, fwdK, fwdV);
    if b.Err? {
      return Err(b.error);
    }
    r := Ok(CacheEntry(b.value.0, b.value.1));
    Register(pool, cache, key, r.value, n, old(pool.free), old(pool.used).Keys, fwdK, fwdV);
  }

  /** The end of the miss path: every page of the new list held once, then the entry cached. */
  method Register(ghost pool: PagePool, cache: PrefixCache, key: int, e: CacheEntry, ghost n: nat,
                  ghost F: seq<Page>, ghost U: set<nat>, ghost fwdK: Forward, ghost fwdV: Forward)
    requires pool.Valid()
    requires PrefixBuilt(e.pages.items, e.table.entries, n, pool.pageSize, fwdK, fwdV)
    requires Taken(pool.free, pool.used, e.pages.items, F, U)
    modifies e.pages.items`refCount, cache
    ensures pool.Valid()
    ensures PrefixBuilt(e.pages.items, e.table.entries, n, pool.pageSize, fwdK, fwdV)
    ensures Taken(pool.free, pool.used, e.pages.items, F, U)
    ensures forall i | 0 <= i < |e.pages.items| :: e.pages.items[i].refCount == 1
    ensures cache.cache == old(cache.cache)[key := e]
  {
    HoldOnce(e.pages.items);
    cache.Put(key, e);
  }
}
