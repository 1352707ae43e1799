# KV-Paged-Attention in Dafny

This project models the bookkeeping core of KV-Paged-Attention, a small
simulator of a paged key/value cache for transformer inference, and proves
properties of that model. The core works like virtual memory for attention
state:

- fixed-size **pages** hand out slots;
- a **page pool** keeps a LIFO free list and an insertion-ordered map of
  pages in use;
- a **page table** maps token positions to (page id, slot);
- a **prefix cache** maps a prompt hash to the page list and table built for it;
- the **drivers** build a prefix page by page and share it with a second
  request by reference counting. They copy the shared last page on write
  and release the pages afterwards;
- an **event logger** records every step;
- the **narration** and the browser **visualizer** replay the log into page
  and token state.

Pages, page lists, page tables, the prefix cache, the pool, the logger, the
narration engine, the visualizer and the app state are Dafny classes. The
drivers depend on aliasing: the cache stores the very list and table objects
request 1 built, so request 2 shares them. Pure queries are functions, and
the loops of the source are methods with loop invariants.

Conventions:

- **Tensors.** K and V are maps from (layer, head, slot) cells to an opaque
  vector type. A cell never written reads as the zero row.
- **Forward passes.** The model's forward pass is a `Forward` parameter.
- **Hashes.** Python's `hash` of the token tuple is an integer parameter.
- **Exceptions.** Python exceptions are `Err` values of a `Result` that
  carry the exception class and, where the source builds one, its message.

Modules, one per file:

| module | models |
|---|---|
| `Common` | results, errors, Python/JS slicing, decimal and radix strings |
| `Pages` | `KVPage` and the page list |
| `Pool` | the four page pools (pages/, kv-cache/, the instrumented pool of the simulator, the day-4 pool) |
| `PageTables` | `PageTable` |
| `PrefixCaches` | `PrefixCache` |
| `PagedReader` | `gather_paged_kv` and the gather loop of `PagedAttention` |
| `EventLog` | `EventLogger` |
| `Prefix` | `compute_prefix` of both drivers |
| `PrefixSteps` | the hit/miss prefix acquisition |
| `Requests` | reuse, copy-on-write decode and cleanup |
| `Simulator` | the two requests of `simulate` |
| `Simulate` | the whole `simulate` run and its report |
| `DriverDay4` | the self-contained day-4 comparison driver |
| `DriverDay5` | the day-5 driver's `main` |
| `Narration` | `NarrationEngine` |
| `Visualizer` | the replay logic of `KVVisualizer` |
| `MainUi` | the history, selection and playback logic of the page |

## Model

| member | source | states |
|---|---|---|
| Common.SliceEnd | frontend/visualizer.js:132 | The end index of `slice(0, e)` is clamped into 0..len, and a negative end counts from the end. |
| Common.RadixRoundTrip | frontend/visualizer.js:34 | Parsing the base-b digits of a natural number gives the number back. |
| Common.RadixDigits | frontend/visualizer.js:34 | `toString(b)` produces at least one digit, and every digit is a lower-case hex digit. |
| Common.RadixLength | frontend/visualizer.js:34 | A number below b^k has at most k digits in base b, for k >= 1. |
| Common.LeadingZeros | frontend/visualizer.js:34 | Parsing ignores the zeros `padStart` adds in front. |
| Common.DecimalRoundTrip | backend/simulator.py:131 | `str` of an integer prefix key parses back to the same integer, negative keys included. |
| Pages.Page.constructor | pages/page.py:3-6 | A new page has the given id and size, used = 0, ref count 0 and empty K/V. |
| Pages.Page.AllocateSlot | pages/page.py:13-18 | With space, it returns the old `used` and increments it by one. On a full page it returns "The Page is Full" and `used` is unchanged. 0 <= used <= size is preserved. |
| Pages.SlotsOfFreshPage | pages/page.py:16-18 | Allocating on a fresh page of size s yields slots 0..s-1 in order, then the full error. |
| Pages.Page.AllocateSlotUnchecked | comparison/driver_day4.py:30-33 | The day-4 page returns the old `used` and increments it, with no fullness check. |
| Pages.Page.WriteSlot | pages/driver_day5.py:72-75 | One token's K/V rows are written at one slot for every layer and head, and only those cells change. |
| Pages.Page.WriteCell | pages/driver_day5.py:134-135 | The decode row is written at cell (0, 0, slot) and nothing else changes. |
| Pages.Page.TakeOver | pages/driver_day5.py:122-126 | The copy-on-write target takes the shared page's K and V and gets ref count 1. The shared page loses one reference. |
| Pages.PageList.constructor | pages/driver_day5.py:46 | A new page list is empty. |
| Pages.PageList.Append | pages/driver_day5.py:67 | Appends exactly one page at the end. |
| Pages.PageList.SetLast | pages/driver_day5.py:128 | `pages[-1] = new_page` replaces only the last element, and an empty list gives IndexError with nothing changed. |
| Pages.PageList.Last | pages/driver_day5.py:117 | `pages[-1]` is the last element, and IndexError exactly when the list is empty. |
| Pool.PagePool.constructor | pages/page_pool.py:6-12 | Pages 0..n-1 are fresh and free in id order, nothing is in use, and the pool invariant holds. |
| Pool.PagePool.SizesAddUp | pages/page_pool.py:8-12 | Free pages plus pages in use always number exactly num_pages. |
| Pool.PagePool.AllocateBase | pages/page_pool.py:14-20 | An empty free list gives the out-of-pages error and nothing changes. Otherwise the last free page is popped, put in use at the end of the insertion order, and returned. |
| Pool.PagePool.AllocatePage | backend/simulator.py:23-26 | As AllocateBase, and the instrumented pool logs one page fault for the page, only on success. |
| Pool.PagePool.FreePagePlain | pages/page_pool.py:22-27 | Always fails with UnboundLocalError for `page`, and nothing changes. |
| Pool.PagePool.FreePageKvCache | kv-cache/page_pool.py:21-25 | An id not in use gives KeyError with nothing changed. Otherwise the page leaves the in-use map with used reset to 0 and no other field of it changed, the call fails with AttributeError, and the page is then neither free nor in use. |
| Pool.PagePool.FreePageInstrumented | backend/simulator.py:28-36 | An id not in use changes nothing and logs nothing. Otherwise the page moves from in use to the end of the free list with used 0 and ref count 0, and one page-freed event is logged. |
| Pool.PagePool.PageStates | backend/simulator.py:206-216 | Lists free pages first in free-list order, then pages in use in insertion order, each with its id, used, size, ref count and freed flag. |
| Pool.PagePool.PageStatesCover | backend/simulator.py:207-216 | The reported states cover every page of the pool exactly once. |
| Pool.PopKeepsShape | pages/page_pool.py:17-18 | Popping the last free page into the in-use map keeps the free/in-use partition. |
| Pool.PushKeepsShape | backend/simulator.py:31-36 | Moving a page in use back to the free list keeps the partition. |
| Pool.RemoveKeepsShape | kv-cache/page_pool.py:22 | Removing a page from the in-use map without freeing it leaves a partition of the rest. |
| PageTables.LookupIn | pages/page_table.py:7-8 | `table[i]` returns the entry at i, wraps a negative i like Python, and gives IndexError outside the range. |
| PageTables.LookupAfterAppend | pages/page_table.py:5-8 | After add, the last position holds the new entry and every earlier position is unchanged. |
| PageTables.LookupAfterAdds | pages/page_table.py:5-8 | After a series of adds, position i holds the i-th entry added. |
| PageTables.AddAllAppends | pages/page_table.py:5-6 | A series of adds appends the entries in order. |
| PageTables.PageTable.constructor | pages/page_table.py:3-4 | A new table is empty. |
| PageTables.PageTable.Add | pages/page_table.py:5-6 | Appends exactly one (page id, slot) pair and leaves earlier entries unchanged. |
| PrefixCaches.GetIn | pages/prefix_cache.py:6-7 | `get` gives the stored value for a present key and None otherwise. |
| PrefixCaches.GetAfterPut | pages/prefix_cache.py:6-9 | A get after a put of the same key returns the value put. |
| PrefixCaches.PutOverwrites | pages/prefix_cache.py:8-9 | A put overwrites any earlier value for that key. |
| PrefixCaches.EmptyGetsNone | pages/prefix_cache.py:4-7 | A new cache answers None for every key. |
| PrefixCaches.PrefixCache.constructor | pages/prefix_cache.py:4-5 | A new cache is empty. |
| PrefixCaches.PrefixCache.Put | pages/prefix_cache.py:8-9 | Stores the objects themselves under the key, and every other key is unchanged. |
| PagedReader.PageAt | pages/paged_kv_reader.py:14 | `pages[pid]` is the pid-th page of a list, or the page under key pid of a dict. It fails exactly when pid is out of range or absent. |
| PagedReader.GatherRowsMeaning | pages/paged_kv_reader.py:12-17 | On success, row t of the gathered K and V is the cell (layer, head, slot) of page pid, where (pid, slot) is table entry t. Both have the table's length. |
| PagedReader.GatherReadsOwnPages | pages/paged_kv_reader.py:14 | When the list is indexed by page id, each row is read from the page that owns the table entry. |
| PagedReader.Gather | pages/paged_kv_reader.py:3-21 | The loop visits table positions in order, returns exactly the gather result and changes nothing. An empty table fails as `torch.stack` of nothing does. The same loop is at comparison/paged_attention.py:4-16. |
| PagedReader.ErrorAfter | pages/paged_kv_reader.py:12-17 | When the entries before t read fine and entry t fails, the whole gather fails with entry t's error. |
| PagedReader.ErrorPropagates | pages/paged_kv_reader.py:12-17 | The same, by induction over the entries after t. |
| PagedReader.ErrorExtends | pages/paged_kv_reader.py:12-17 | When a prefix of the table already fails, the whole table fails with the same error. |
| EventLog.CountsAddUp | backend/event_logger.py:161-170 | The per-type counts of a log add up to its length. |
| EventLog.Stamped | backend/event_logger.py:138-150 | Logging stamps each event with the next event id and the current request id. |
| EventLog.EventLogger.constructor | backend/event_logger.py:49-54 | A new logger has no events, and its event counter, request counter and current request id are all 0. |
| EventLog.EventLogger.LogEvent | backend/event_logger.py:138-150 | Appends exactly one event with the next id and the current request, and increments the counter. |
| EventLog.EventLogger.StartRequest | backend/event_logger.py:56-68 | Increments the request counter, makes it current and logs the request start. |
| EventLog.EventLogger.EndRequest | backend/event_logger.py:70-75 | Logs one request-end event carrying the current request id. The request counter and the current request id are unchanged. |
| EventLog.EventLogger.Clear | backend/event_logger.py:156-159 | Empties the log and resets the event counter. The request counter and the current request id are kept. |
| EventLog.EventLogger.GetEvents | backend/event_logger.py:152-154 | Returns every event's dictionary, in log order. |
| EventLog.EventLogger.GetSummary | backend/event_logger.py:161-172 | The total equals the number of events, the request count is the counter, and each type's count is the number of events of that type. |
| EventLog.CountStep | backend/event_logger.py:164-166 | Appending one event increments only its own type's count. |
| EventLog.SummaryAddsUp | backend/event_logger.py:161-172 | The summary's counts add up to its total. |
| Prefix.PageOf | pages/driver_day5.py:64-77 | The page index q of token t on pages of size s is the one with q * s <= t < (q + 1) * s. |
| Prefix.SlotOf | pages/driver_day5.py:64-77 | The slot r of token t is below s, and t = q * s + r for its page index q. |
| Prefix.PlaceIsDivMod | pages/driver_day5.py:64-77 | The page and slot of token t are the quotient and remainder of t by s. |
| Prefix.CeilDiv | pages/driver_day5.py:64-67 | The number of pages n tokens take on pages of size s. It is 0 when n = 0 or s = 0, and otherwise the m >= 1 with (m - 1) * s < n <= m * s. |
| Prefix.PageCountExamples | pages/test.py:2-8 | The page counts of the repository's test scripts: 10 tokens on pages of 4 take 3 pages, 10 on pages of 5 take 2, and 5 on pages of 2 take 3. |
| Prefix.KvWrites | backend/simulator.py:93-97 | One KV-write event per layer, for the token's page and slot. |
| Prefix.PrefixLogCounts | backend/simulator.py:84-99 | The log of a prefix of n tokens on L layers holds n token-processed events and n * L KV writes. |
| Prefix.TokenLogCounts | backend/simulator.py:85-97 | One token's log holds one token-processed event and L KV writes. |
| Prefix.NewPage | pages/driver_day5.py:65-67 | Allocates a page and appends it to the list, or fails with the out-of-pages error and nothing changes. |
| Prefix.TakeSlot | pages/driver_day5.py:69 | Takes the next slot of the current page, which then holds one more token. A full page gives the page-full error and stays unchanged. |
| Prefix.Claim | pages/driver_day5.py:65-69 | Uses the current page while it has space, and otherwise a new page. It fails exactly when the page size is 0 or one more token needs more pages than were free. |
| Prefix.Store | pages/driver_day5.py:72-75 | Writes the token's rows for every layer and head at its slot. |
| Prefix.LogKvWrites | backend/simulator.py:93-97 | Logs exactly the KV-write events of one token. |
| Prefix.Place | pages/driver_day5.py:64-77 | One token is placed at page t / s and slot t % s, its rows are stored, and one table entry is appended. |
| Prefix.Token | backend/simulator.py:84-99 | As Place, and the token's events are logged in order. |
| Prefix.EntriesBuilt | pages/driver_day5.py:64-77 | After n tokens the table holds entry (id of page t / s, t % s) at each position t. |
| Prefix.ComputePrefix | backend/simulator.py:65-101 | Fails exactly when n > 0 and either the page size is 0 or more than the free pages are needed, with the out-of-pages or page-full error. On success it returns a fresh list and table with ceil(n / s) pages taken from the free list's end. Each token is stored at its slot and the log is the prefix log. |
| Prefix.BuildPrefix | pages/driver_day5.py:45-79 | The token loop of `compute_prefix`, with the same outcome as ComputePrefix. |
| PrefixSteps.Acquire | pages/driver_day5.py:103-114 | On a hit, the cached entry is returned and each of its pages gains one reference. On a miss, the prefix is built, each page gets ref count 1 and the entry is cached. |
| PrefixSteps.Build | pages/driver_day5.py:110-114 | A miss builds the prefix and registers it. It fails exactly when ComputePrefix does. |
| PrefixSteps.Register | pages/driver_day5.py:112-114 | Sets each new page's ref count to 1 and caches the list and table under the key. |
| Requests.HoldOnce | pages/driver_day5.py:112-113 | Every page of the list gets ref count 1. |
| Requests.HoldAgain | pages/driver_day5.py:146-147 | Every page of the list gains exactly one reference. |
| Requests.Reuse | backend/simulator.py:167-171 | A hit returns the cached objects, adds one reference to each page and logs a prefix reuse. A miss fails with TypeError and logs nothing. |
| Requests.Unshare | pages/driver_day5.py:121-126 | Either fails with the out-of-pages error and nothing changes, or allocates a fresh page. The fresh page holds the shared page's K and V with used 0 and ref 1, and the shared page loses one reference. |
| Requests.DecodeInto | pages/driver_day5.py:131-136 | On a page with space, the decode row goes to cell (0, 0, old used), used grows by one and the entry is appended. On a full page it fails and nothing changes. |
| Requests.CopyLast | backend/simulator.py:145-152 | Copy-on-write of the last page, logging a page fault and the copy-on-write event on success. |
| Requests.DecodeReplacing | pages/driver_day5.py:128-136 | Replaces the list's last page by the copy, then decodes into the copy. |
| Requests.DecodeShared | pages/driver_day5.py:119-136 | A shared last page is copied to the last free page and the decode row is written to slot 0 of the copy. The list ends with the copy and the original loses one reference. |
| Requests.Decode | pages/driver_day5.py:117-136 | Decodes into the last page when it is held at most once, and copies it first otherwise. An empty list gives IndexError. Each outcome's whole new state is stated. |
| Requests.DroppedAll | backend/simulator.py:196-199 | When every page is held once and in use, cleanup frees all of them. |
| Requests.DroppedNone | backend/simulator.py:196-199 | When no page is held once, cleanup frees none. |
| Requests.DroppedOnlyLast | backend/simulator.py:196-199 | When only the last page is held once, only it is freed. |
| Requests.DroppedAllButLast | backend/simulator.py:196-199 | When all but the last page are held once, those are freed in order. |
| Requests.ReleaseOne | backend/simulator.py:196-199 | Decrements one page's ref count. At zero, a page in use goes back to the free list and one page-freed event is logged. |
| Requests.Release | backend/simulator.py:196-199 | A cleanup loop decrements every ref count. It frees exactly the pages held once and in use, in list order, and logs one event for each. |
| Requests.ReleaseLoop | backend/simulator.py:196-199 | The loop itself, with the per-page invariant. |
| Requests.FirstHeldOnce | pages/driver_day5.py:174-177 | The index of the first page held exactly once, or the length when there is none. |
| Requests.ReleasePlain | pages/driver_day5.py:174-177 | The day-5 cleanup fails with UnboundLocalError exactly when some page is held once. The pages up to and including the first such page lose one reference. |
| Simulator.LastSlot | backend/simulator.py:142-157 | The last prefix token sits in slot (n - 1) % s, so the last page is full exactly when s divides n. |
| Simulator.DecodeFirst | backend/simulator.py:141-162 | Request 1's decode writes into its own last page, or fails on a full page or an empty list. Decode start and end are logged. |
| Simulator.StartFirst | backend/simulator.py:124-138 | Request 1 starts, misses the cache and builds and registers the prefix. It fails exactly when the prefix build fails. |
| Simulator.FinishFirst | backend/simulator.py:140-163 | Request 1's decode and end, with the pool unchanged and every page held once. |
| Simulator.ServeFirst | backend/simulator.py:140-163 | Request 1's decode fails exactly when n = 0 (IndexError) or s divides n (page full). |
| Simulator.ServeLast | backend/simulator.py:140-163 | The same outcome, stated from the laid-out prefix. |
| Simulator.FirstRequest | backend/simulator.py:123-163 | Request 1 fails exactly when the prefix cannot be built or its last page is full or missing. On success the pages, table, cache and log are stated. |
| Simulator.ServeStarted | backend/simulator.py:140-163 | Serving a built prefix fails exactly as ServeFirst does. |
| Simulator.StartSecond | backend/simulator.py:166-171 | Request 2 starts and reuses the cached entry, adding one reference to each of its pages. |
| Simulator.DecodeSecond | backend/simulator.py:173-191 | Request 2's decode copies the shared last page on write, or fails when no page is free. |
| Simulator.ServeSecond | backend/simulator.py:173-193 | Request 2's decode and end. |
| Simulator.SecondShared | backend/simulator.py:165-193 | Request 2 as written. The copy replaces the last page inside the cached list itself. |
| Simulator.ServeCached | backend/simulator.py:173-193 | Request 2 served on the cached objects. |
| Simulator.CopyEntry | backend/simulator.py:167 | A fresh list and table with the cached contents. |
| Simulator.SecondCopied | backend/simulator.py:165-193 | Request 2 as intended. It works on copies, and the cached list keeps request 1's pages. |
| Simulate.PageIds | backend/simulator.py:226 | The ids of a page list, in order. |
| Simulate.RequestOne | backend/simulator.py:123-163 | Request 1 on a fresh simulator pool: it takes the top m pages in LIFO order. |
| Simulate.RequestTwoShared | backend/simulator.py:165-193 | Request 2 as written, on the state request 1 leaves. |
| Simulate.RequestTwoCopied | backend/simulator.py:165-193 | Request 2 on copies of the cached objects. |
| Simulate.FirstPassShared | backend/simulator.py:196-199 | Request 1's cleanup walks the aliased list, whose last element is now request 2's copy. It frees only that copy (page 7 - m); the shared pages stay held once and in use. |
| Simulate.SecondPassShared | backend/simulator.py:201-204 | Request 2's cleanup walks the same list again. The copy's count drops to -1 and request 1's last page is never freed. |
| Simulate.FirstPassCopied | backend/simulator.py:196-199 | The intended cleanup of request 1's own list. |
| Simulate.SecondPassCopied | backend/simulator.py:201-204 | The intended cleanup of request 2's list. |
| Simulate.ServeShared | backend/simulator.py:123-193 | Both requests as written. |
| Simulate.CleanShared | backend/simulator.py:195-204 | Both cleanups as written. |
| Simulate.ServeCopied | backend/simulator.py:123-193 | Both requests as intended. |
| Simulate.CleanCopied | backend/simulator.py:195-204 | Both cleanups as intended. |
| Simulate.LeakedPageStates | backend/simulator.py:206-216 | The page states the run as written reports. |
| Simulate.CleanPageStates | backend/simulator.py:206-216 | The page states of the corrected run. |
| Simulate.LeakedRunLeaks | backend/simulator.py:195-216 | After the run as written, some page is still in use and some ref count is negative. |
| Simulate.CleanRunFreesAll | backend/simulator.py:195-216 | After the corrected run, every page is free and empty, and every page taken is unreferenced. |
| Simulate.NewSimPool | backend/simulator.py:107-116 | A fresh instrumented pool of 8 pages of 16 slots, sharing the simulator's logger. |
| Simulate.Report | backend/simulator.py:206-230 | The result carries the events, the summary, the page states and the final page ids. |
| Simulate.KvCacheSimulator.constructor | backend/simulator.py:45-47 | A new simulator has a fresh, valid logger. |
| Simulate.KvCacheSimulator.Simulate | backend/simulator.py:103-230 | `simulate` as written. It fails exactly when a request fails (n = 0, 16 divides n, or more than 7 pages are needed), with that error. On success the log is the run log, the final pages are the shared list twice, and the page states are the leaked ones. |
| Simulate.KvCacheSimulator.SimulateCopied | backend/simulator.py:103-230 | The corrected run has the same failures. Its final pages are request 1's list and then request 2's, and the page states are the clean ones. |
| DriverDay4.IndexedSnoc | comparison/driver_day4.py:122 | Adding a page to the id-keyed `pages` dict keeps it indexed by id. |
| DriverDay4.TakeSlotUnchecked | comparison/driver_day4.py:124 | The unchecked slot is the current page's old used. |
| DriverDay4.ClaimCurrentDay4 | comparison/driver_day4.py:120-124 | The current page is used while it has space. |
| DriverDay4.ClaimFreshDay4 | comparison/driver_day4.py:120-124 | Otherwise a page is allocated, or the out-of-pages error is returned. |
| DriverDay4.ClaimDay4 | comparison/driver_day4.py:120-124 | The claim fails exactly when more pages are needed than are free. |
| DriverDay4.PlaceDay4 | comparison/driver_day4.py:119-131 | Token t is placed at page t / s and slot t % s, and its rows are stored. |
| DriverDay4.AddEntry | comparison/driver_day4.py:133 | Appends exactly one entry to the table. |
| DriverDay4.TokenDay4 | comparison/driver_day4.py:119-133 | One iteration of the fill loop. |
| DriverDay4.FillDay4 | comparison/driver_day4.py:111-135 | The fill loop fails exactly when the pages run out. Otherwise every token's rows are stored at its entry. |
| DriverDay4.NaiveColumn | comparison/driver_day4.py:141-149 | The contiguous cache's column for one layer and head. |
| DriverDay4.GatherIsNaive | comparison/driver_day4.py:141-149 | Gathering through the page table gives the same rows as the contiguous cache. |
| DriverDay4.MultiHeadGather | comparison/driver_day4.py:98-105 | One gather per head, each equal to that head's gather result. |
| DriverDay4.Day4Layout | comparison/driver_day4.py:119-149 | With 4 pages of 4 slots, token t sits at page 3 - t / 4, slot t % 4. |
| DriverDay4.Day4Fill | comparison/driver_day4.py:111-135 | The concrete fill of the driver succeeds. |
| DriverDay4.Day4Main | comparison/driver_day4.py:111-170 | For every head, the paged gather equals the naive gather, which is the token rows in order. |
| DriverDay5.PrefixDay5 | pages/driver_day5.py:101-114 | Request 1's prefix fails exactly when ComputePrefix does. Otherwise every page is held once and the entry is cached. |
| DriverDay5.DecodeDay5 | pages/driver_day5.py:116-136 | Request 1's decode into its own last page. |
| DriverDay5.FirstOutcome | pages/driver_day5.py:116-136 | Request 1 succeeds exactly when the prefix is non-empty and its last page has space. |
| DriverDay5.FirstDay5 | pages/driver_day5.py:98-136 | Request 1 fails exactly when it cannot be served, with the stated error. Otherwise a fresh list and table are cached. |
| DriverDay5.DecodeAfterPrefix | pages/driver_day5.py:116-136 | The decode following a built prefix. |
| DriverDay5.DecodeOnShared | pages/driver_day5.py:149-166 | Request 2's copy-on-write decode fails exactly when no page is free. |
| DriverDay5.HoldShared | pages/driver_day5.py:144-147 | A cache hit holds every page twice. |
| DriverDay5.SecondDay5 | pages/driver_day5.py:141-166 | Request 2 fails exactly when no page is free. Otherwise the cached list ends with the copy. |
| DriverDay5.AfterFirst | pages/driver_day5.py:141-182 | After request 1, the run always ends in an error: out of pages, or UnboundLocalError in cleanup. |
| DriverDay5.Day5Main | pages/driver_day5.py:85-182 | The driver's `main` ends with the error Day5Error(n) for every prompt length. |
| DriverDay5.CleanupFailsFor | pages/driver_day5.py:174-182 | The cleanup's UnboundLocalError occurs exactly when 0 < n < 28 and 4 does not divide n. |
| Narration.GetEventsAreDicts | backend/event_logger.py:152-154 | The narration reads exactly the dictionaries of the logged events. |
| Narration.DictsOf | backend/event_logger.py:152-154 | One dictionary per event, in order. |
| Narration.LatestWriteWins | backend/narration.py:94-111 | A token's mapping is the location of its latest KV write. Unwritten tokens are absent. |
| Narration.MapAllAppend | backend/narration.py:97-109 | Replaying a concatenated log is replaying the second part on the first part's result. |
| Narration.ReplayRecoversTable | backend/narration.py:87-111 | Replaying a built prefix's log maps each token to exactly its page-table entry. |
| Narration.SummaryShape | backend/narration.py:113-161 | A page is in the summary only if a page fault or a copy-on-write created it. Every faulted page is in it, and no entry's ref count exceeds 1. |
| Narration.UsedSlotsGrow | backend/narration.py:136-142 | Between two creations of a page, its used slots never decrease and it stays in the summary. |
| Narration.WriteFillsSlot | backend/narration.py:136-142 | After a KV write on a known page, its used slots are at least slot + 1 and never fewer than before. |
| Narration.AllotmentsInOrder | backend/narration.py:45-48 | Explaining events in order from a fresh engine lists, under each page, exactly the tokens written to it, in write order. |
| Narration.NarrationEngine.constructor | backend/narration.py:12-15 | A new engine has no token texts and no page allocations. |
| Narration.NarrationEngine.SetTokens | backend/narration.py:17-19 | Afterwards, index i names the i-th token and no other index is named. |
| Narration.NarrationEngine.ExplainEvent | backend/narration.py:45-48 | A KV write appends its token index under its page, creating the page's list if needed. Any other event leaves the allocations unchanged. |
| Narration.NarrationEngine.GetTokenMapping | backend/narration.py:87-111 | The loop over the first step + 1 events returns the replayed mapping. |
| Narration.NarrationEngine.GetPageSummary | backend/narration.py:113-161 | The loop over the first step + 1 events returns the replayed page summary. |
| Visualizer.Coalesce | frontend/visualizer.js:80 | `a ?? b` is b exactly when a is null or undefined. |
| Visualizer.CodeUnits | frontend/visualizer.js:29-30 | A code point takes one UTF-16 unit below 0x10000 and two above. |
| Visualizer.Utf16 | frontend/visualizer.js:29-30 | A string has at least as many UTF-16 units as code points. |
| Visualizer.Fnv1a | frontend/visualizer.js:26-32 | The FNV-1a hash (offset basis 0x811c9dc5, prime 0x01000193, `Math.imul` and `>>> 0`) always fits in 32 bits. |
| Visualizer.PadStart | frontend/visualizer.js:34 | Pads on the left to the target length, and keeps longer strings. |
| Visualizer.HexOfHash | frontend/visualizer.js:34 | Any 32-bit hash prints as exactly 8 lower-case hex digits that parse back to it. |
| Visualizer.HexInjective | frontend/visualizer.js:34 | Distinct hashes print differently. |
| Visualizer.EmptyTextHash | frontend/visualizer.js:26-34 | The empty text hashes to "811c9dc5". |
| Visualizer.HashToken | frontend/visualizer.js:26-35 | The loop computes FNV-1a over the text's code units and returns its 8-digit hex form. |
| Visualizer.SafeText | frontend/visualizer.js:38 | A missing text becomes the empty string. |
| Visualizer.MakeTokenKey | frontend/visualizer.js:37-40 | The key is the text's 8-digit hash, a colon and the position, so its ninth character is the colon. |
| Visualizer.TokenKeyInjective | frontend/visualizer.js:37-40 | Two keys are equal exactly when their positions and their text hashes are equal. |
| Visualizer.EventsUpTo | frontend/visualizer.js:130-133 | The first step + 1 events, clamped like `slice`. |
| Visualizer.LastWhere | frontend/visualizer.js:66-71 | The index of the last element with the property, or none. |
| Visualizer.FindLast | frontend/visualizer.js:136-141 | The backward loop finds that index. |
| Visualizer.CurrentTokenIdx | frontend/visualizer.js:135-143 | The token index of the latest token step up to the current step, or none. |
| Visualizer.GetCurrentTokenIdx | frontend/visualizer.js:135-143 | The loop returns it. |
| Visualizer.CurrentRequestId | frontend/visualizer.js:145-153 | The request id of the latest request marker, or 0 when there is none. |
| Visualizer.GetCurrentRequestId | frontend/visualizer.js:145-153 | The loop returns it. |
| Visualizer.IsLayer0Cases | frontend/visualizer.js:155-159 | A present `layer` decides, then a present `layer_idx`. With neither, the event counts as layer 0. |
| Visualizer.ReadsLoggedEvent | backend/event_logger.py:33-40 | The visualizer reads exactly the fields the logger wrote. |
| Visualizer.RequestStartIndex | frontend/visualizer.js:64-71 | The index of the current request's start event. |
| Visualizer.PriorCacheMeaning | frontend/visualizer.js:73-83 | A key is in the prior cache exactly when some scanned event writes it, and then it maps to the location of the last such write. |
| Visualizer.BuildPriorCache | frontend/visualizer.js:73-83 | The loop builds that map. |
| Visualizer.CurrentWritesMeaning | frontend/visualizer.js:85-95 | A key is in the current writes exactly when some scanned event writes it. |
| Visualizer.BuildCurrentWrites | frontend/visualizer.js:85-95 | The loop builds that set. |
| Visualizer.SplitMeaning | frontend/visualizer.js:73-95 | A key is in the prior cache exactly when it was written before the request start, and in the current writes exactly when it was written after it. |
| Visualizer.CacheHitMeaning | frontend/visualizer.js:99-113 | The current step is a hit exactly when it is a token step whose key was written before the current request started and not since. |
| Visualizer.CheckHit | frontend/visualizer.js:99-113 | Computes that hit flag and location. |
| Visualizer.CacheHitHasPriorWrite | frontend/visualizer.js:105-112 | A hit points to a real earlier write of the same key. |
| Visualizer.BuildContext | frontend/visualizer.js:42-127 | The whole cache context equals its specification. |
| Visualizer.KvVisualizer.constructor | frontend/visualizer.js:6-14 | A new visualizer has no data, step 0 and an empty memo. |
| Visualizer.KvVisualizer.SetData | frontend/visualizer.js:16-24 | Sets the data and prefix indices, rewinds to step 0 and clears the memo. |
| Visualizer.KvVisualizer.ComputeCacheContext | frontend/visualizer.js:42-128 | Returns the context for the current step, from the memo when the step is unchanged. |
| MainUi.TruncatePrompt | frontend/main.js:8-10 | Short texts are kept. Longer ones keep their first maxLen units and gain "...". |
| MainUi.CommonPrefixLength | frontend/main.js:63-70 | The longest common prefix of two token lists under `===`. |
| MainUi.CommonPrefixUnique | frontend/main.js:63-70 | Any length with the prefix properties is that length. |
| MainUi.PrefixTokens | frontend/main.js:59-71 | The loop collects exactly 0..k-1, where k is that length. |
| MainUi.PrefixIndicesMeaning | frontend/main.js:58-71 | For idx > 0, the indices are exactly 0..k-1 for the longest common prefix with the previous entry. For idx = 0 they are empty. |
| MainUi.Without | frontend/main.js:30 | `splice(idx, 1)` removes exactly entry idx. |
| MainUi.DeleteKeepsSelection | frontend/main.js:30-35 | A valid selection stays valid after a delete, and keeps its simulation when that was not the one deleted. |
| MainUi.App.constructor | frontend/main.js:5-6 | The history is empty and nothing is selected. |
| MainUi.App.LoadSimulation | frontend/main.js:51-73 | Out of range, nothing changes. Otherwise the entry is selected and shown with its shared-prefix indices from step 0. |
| MainUi.App.DeleteAt | frontend/main.js:28-38 | Removes the entry and moves the selection as stated. A remaining selection is shown from step 0, with its prefix indices recomputed against its new predecessor. |
| MainUi.App.AddSimulation | frontend/main.js:135-158 | An empty prompt or a failed request changes nothing. Otherwise the simulation is appended, selected and shown from step 0, with its prefix indices against the previous entry. |
| MainUi.App.ClearHistory | frontend/main.js:173-181 | Confirmed, the history is emptied and nothing is selected. Otherwise nothing changes. |
| MainUi.PlaybackReachesEnd | frontend/main.js:202-213 | Playback advances one step per tick, never passes the last step, and stops exactly on reaching it. |
| MainUi.TickAtEnd | frontend/main.js:203-213 | At the last step, a tick stays there and stops. |

## Left out

- pages/page_pool.py:12 calls `KVPage` with six arguments, while pages/page.py:3-6 accepts two, so that constructor call raises TypeError as written. The model uses one page with id, size, layer and head counts, K/V, used and a ref count, combining the fields the drivers use.
- Pool.PagePool.constructor: models the combined page above, not the TypeError of pages/page_pool.py:12.
- Wall-clock timestamps of events and all `print` output are not modelled.
- EventLog.EventLogger.GetSummary: `event_counts` is a map keyed by event type, so the insertion order of the Python dictionary is not kept.
- The tokenizer and the transformer are left out. The token count n, the prompt hash and the forward pass are parameters, and so are the random decode rows.
- Attention scoring (softmax, matrix products, square roots) is floating point and is left out. That covers pages/attention.py, comparison/naive_attention.py, comparison/paged_attention.py:18-23 and the scoring in comparison/driver_day4.py.
- Python's salted `hash` of the token tuple is an integer parameter.
- The prose strings of `explain_event` are not modelled. Only its page-allocation side effect is.
- DOM rendering, timers, `confirm()` and the HTTP API (backend/main.py, backend/api_models.py, frontend/api.js) are not part of this model. The result of a simulation request is a parameter of MainUi.App.AddSimulation.
- MainUi.App.AddSimulation: receives the prompt already trimmed; `trim()` is not modelled.
- JavaScript numbers are modelled as unbounded integers, which is exact for the step counts and indices used.
- MainUi.App.LoadSimulation: models `data.tokens || []` (frontend/main.js:61-62) as the token list when `tokens` is an array and `[]` otherwise. A truthy non-array `tokens`, such as a string, differs: JavaScript compares its characters, the model uses `[]`. The visualizer's own `Array.isArray(...) ? ... : []` (frontend/visualizer.js:62) is modelled exactly by `TokenList`.
- reuseable/driver_day5.py is a fragment that cannot run and duplicates pages/driver_day5.py:103-114, so it is not part of this model. Nor are Benchmarks/naive-kv-cache.py and kv_tensor_visualization.py, which are numeric scripts.
- The test scripts hold no logic of their own. Their page counts are Prefix.PageCountExamples.
- Simulate.Report: the model dimensions and token texts of the result are not modelled. Only the events, summary, page states and final page ids are.

## Findings

| source | as written | input that shows it | evidently intended | confidence | as-written member | corrected member |
|---|---|---|---|---|---|---|
| backend/simulator.py:167-204 | Request 2 takes the cached list and table objects themselves, and copy-on-write replaces the last page inside that shared list. Both cleanup loops then walk the same list. | Any prompt of n tokens with 0 < ceil(n / 16) < 8 and 16 not dividing n, e.g. n = 5 | Request 2 works on its own copy of the list and table, so each request's pages are released exactly once and every page ends free | not executed | Simulate.KvCacheSimulator.Simulate, Simulate.LeakedRunLeaks | Simulate.KvCacheSimulator.SimulateCopied, Simulate.CleanRunFreesAll |
| kv-cache/page_pool.py:24 | `free_page` calls `append` on `self.free_page`, which is the method itself rather than the free list, so it raises AttributeError after the page has left the in-use map | Free any page in use | The page goes back to the free list | not executed | Pool.PagePool.FreePageKvCache | Pool.PagePool.FreePageInstrumented |
| pages/page_pool.py:23 | `free_page` reads `page` before assigning it, so it always raises UnboundLocalError | Free any page id | The page is moved from in use back to the free list | not executed | Pool.PagePool.FreePagePlain | Pool.PagePool.FreePageInstrumented |
