# The memcached storage engine, in Dafny

A model of the cache engine of memcached 1.4.25 as this repository ships it, with the repository's own additions: the
removal of slab pages (`memcached-1.4.25-rd/slabs1.c`) and the linear program that sizes caches from miss-ratio curves
(`lp-solve/LP.cc`). Where the two memcached trees differ only in tracing, `memcached-1.4.25-fp` is cited.

The model is layered.

- **What an operation does** is a function on values: `SlabSpec` (pages, freelists), `AssocSpec` (the growing hash table),
  `CacheSpec`, `LruPull` (items, queues, lazy expiry, the tail puller), `StoreCommand`, `StoreDelta` (commands), `Decimal`.
- **How it does it** is a class that updates its fields in place and is proved equal to that function:
  `SlabAllocator.SlabClasses` (freelists threaded through the chunks), `AssocTable.Assoc` (two bucket arrays and `h_next`
  words), `LruQueues.Lru` (`prev`/`next` words, crawler nodes included), `Commands`, `Reply.Conn`, `Provision.Lp`,
  `SlabSizes.SlabTable`.
- **What that achieves** is stated without naming the functions, on freelists, queues, chains and numbers, and the methods
  promise it too: `SlabAnswers` (what `slabs_alloc` and the page moves hand out), `LruTurns` (what a pull does to each item it
  comes by), `StoreRoom` (what the attempts at allocation achieve), `LazyExpiry`, `EngineRescue` (what the page mover saves),
  `EngineJourneys` (an item or a page from one end of its way to the other), `AssocGrowth`.
- **What threads do to each other** is a state machine whose steps are the sections the locks protect: `Engine` (workers and
  the page mover), `AssocProofs` (clients, the maintenance thread, stripe locks), `Store` (commands, LRU maintenance, the
  crawler, rescues, `flush_all`), `LruCrawl` (a crawl among other threads), `Barrier` (the pause of all
  threads), `AssocRequest` (how a bigger hash table is asked for).
  Theorems about runs are inductions over steps, and `StoreSteps` shows that the commands are made of such steps.

The hash function is an arbitrary function everywhere but in `Jenkins`, where it is the subject.

## What the code does that its comments or documents do not say

- The HOT queue's limit is computed and then overwritten by WARM's, since the case falls through
  (memcached-1.4.25-fp/items.c:814-817). The model does the same.
- An immediate `flush_all` takes no item lock, and writes `oldest_live` and `oldest_cas` apart, with `get_cas_id` in between.
  A rescue by the page mover, an `incr` or `decr`, an `append` or a `prepend` that has called `item_is_flushed` before the
  last of these writes, and takes the id of its result after the flush took its own, passes the old value on.
  `StoreFlushTheorems.FlushSplitsHistory` says exactly when this matters: history is split if and only if at the last write
  no such operation is in flight on an older value and none has passed one on since the flush took its id; and clients never
  get an older value, or one built from it, if and only if none of these is reviving or revived, which can be read off the
  expiry and access times of their items. `StoreFlushing.QuietFlushMissesNothing` is a condition over the interval.
  `StoreFlushTheorems.FlushCanBeOvertaken` gives a run into a failing case for each kind of operation, and
  `StoreFlushTheorems.GapCanBeOvertaken` one in which nothing is in flight at any of the flush's three accesses.
- `build_udp_headers` is run again while the first message of a reply is the current one. That writes the same headers
  again unless a datagram was taken in part, when its header replaces what comes next (`Reply.HeaderAgainIff`).
- `flush_all` with a time at or before the start of the server flushes nothing and takes back an earlier flush, since
  `oldest_live` becomes 0 (`StoreFlushTheorems.FlushBeforeStart`).
- `do_add_delta` keeps a reference on an item of two bytes or fewer (memcached-1.4.25-fp/memcached.c:3263-3265);
  `StoreDelta.AddDeltaRefines` says so.
- `safe_strtoull` looks for a minus sign up to the next NUL byte, which lies behind the item: a number of 2^63 or more can
  be refused for what another item holds (`Decimal.ReadsBack`, and the exact condition in `Decimal.CountsFold`).
- An item stored in the very second a delayed flush falls due is not visible at once; `StoredAs`, used by
  `StoreRefines.StoreItemRefines`, has that case.
- A pause that takes the hang lock before some worker has left the round before waits for ever; without such a worker
  nothing can keep it from completing (`BarrierProgress.PauseCompletesIffNobodyIsBehind`). In either case the barrier lets no
  worker through (`Barrier.PausedMeansQuiet`).
- The hash table can stop growing for good. `assoc_start_expand` signals without `maintenance_lock`, so a signal that comes
  between `started_expanding = false` and `pthread_cond_wait` is lost while the flag stays up, and no later insert signals
  again. The table can grow again, if the wait does not end by itself, if and only if no request has been lost
  (`AssocRequest.GrowsIffHeard`), and it can happen to a table of any size (`AssocRequest.RequestCanBeLost`).
- The rows of the linear program are the lines through neighbouring points, so they admit every configuration within the
  bound exactly for convex curves (`ProvisionTheorems.NothingLostIffConvex`). They are sound for all curves.

## Model

| member | source | states |
|---|---|---|
| EngineTheorems.StolenPageIsClear | memcached-1.4.25-fp/slabs.c:743-803 | in every interleaving of alloc, fill, link, unlink, get, release, free and mover steps: once `done` is set, every chunk of the stolen page is SLABBED\|FETCHED with no reference, on no freelist, in no queue and no hash chain, and the page is still `slab_list[index]`, with index 0 for a move |
| EngineTheorems.WipedIsStable | memcached-1.4.25-fp/slabs.c:601-759 | a cleared chunk stays cleared under every step of every thread until the page is taken away |
| EngineTheorems.StepKeepsInv | memcached-1.4.25-fp/slabs.c:601-803 | every step of a worker or of the mover keeps the invariant over flags, freelists, page lists, refcounts, queues, table and cursor; in particular a chunk behind the cursor is cleared or counted as busy |
| EngineTheorems.StepIsSafe | memcached-1.4.25-rd/slabs1.c:951-1027 | whatever step the locks allow, all pointers it follows lie in pages in use, also after pages have been given back with `free` |
| EngineTheorems.LinkedExactlyOnce | memcached-1.4.25-fp/items.c:266-359 | in every state of every run ITEM_LINKED holds exactly of the table's entries and exactly of the queued items; no item has two keys, and each is once in one queue, the one its `slabs_clsid` names. That a key is linked only while the table does not have it is up to the caller, and `StoreSteps.StoreItemIsSteps` shows it of the commands |
| EngineTheorems.ReferencesExact | memcached-1.4.25-fp/thread.c:83-112 | a refcount is the link plus the holders plus the mover's own; a chunk on a freelist is linked nowhere and held by nobody |
| EngineCounts.ChunksConserved | memcached-1.4.25-fp/slabs.c:189-310 | for each class slabs * perslab is `sl_curr` plus chunks handed out plus chunks cleared, three disjoint sets, in the middle of a move too |
| EngineCounts.MemoryBound | memcached-1.4.25-fp/slabs.c:209-238 | over all runs `mem_malloced` counts exactly the pages in use and exceeds `mem_limit` by at most one page per class that owns a page |
| EngineBytes.RequestedExact | memcached-1.4.25-fp/slabs.c:241-310 | over all runs `requested` of each class is the sum of ITEM_ntotal over its chunks that are handed out, with rescues and removals |
| EngineTotals.StatisticsExact | memcached-1.4.25-fp/items.c:325-359 | counted link by link, `curr_items` and `curr_bytes` are the number and the total size of what is stored, in every state of every run |
| EngineContents.StoredExactly | memcached-1.4.25-fp/slabs.c:687-725 | the key, data, flags, expiry and size of what is stored change only by link, unlink and write, and by a mover that has no rescue chunk (`EngineRescue.DecideSaves` says when); a rescue changes nothing |
| EngineRescue.DecideSaves | memcached-1.4.25-fp/slabs.c:687-715 | the mover's decision: there is a rescue chunk exactly when the item is not dead, the page is not to be removed, and some free chunk of the class lies outside the page; it is the first such chunk, and the tries always suffice |
| EngineRescue.RescueKeepsWhatIsStored | memcached-1.4.25-fp/slabs.c:687-731 | over all runs, whatever workers do between the mover's decision and the moment it leaves the item: what is stored stays as it is if the item could be saved, and loses its key if not |
| EngineRescue.PassEmptiesThePage | memcached-1.4.25-fp/slabs.c:600-759 | from wherever the mover stands in a page in which nobody holds on to a chunk, and whatever it has counted as busy before: left alone with the item locks free it empties the page, in this pass or the next, and every chunk of it is cleared |
| EngineRescue.PageArrives | memcached-1.4.25-fp/slabs.c:761-832 | the page that was emptied leaves the list of its class, the order of the others kept, and arrives split into the freelist of the destination, whole in the pool, or at the system |
| EngineJourneys.InHandKept | memcached-1.4.25-fp/slabs.c:601-803 | while a worker holds an item that it has filled in and not yet linked, no step of another thread or of the page mover writes to it |
| EngineJourneys.FilledIsStored | memcached-1.4.25-fp/items.c:154-359 | over all runs: what an item was filled with is what is stored under its key once it is linked, whatever other threads and the mover do while its owner prepares it |
| EngineJourneys.RequestIsMet | memcached-1.4.25-fp/slabs.c:498-548 | over all runs: the page taken when a move ends is the one chosen when it started, and it goes where the request said |
| SlabProofs.CarveOk | memcached-1.4.25-fp/slabs.c:189-238 | a page that enters a class keeps pages disjoint and freelists without duplicates, each chunk on the list of its own class |
| SlabProofs.FreeChunkOk | memcached-1.4.25-fp/slabs.c:288-310 | freeing a chunk that is on no freelist keeps the allocator's invariant |
| SlabProofs.PopOk | memcached-1.4.25-fp/slabs.c:241-286 | taking the head of a freelist keeps the allocator's invariant |
| SlabAllocator.SlabClasses.DoSlabsAlloc | memcached-1.4.25-fp/slabs.c:241-286 | on the freelist words in place: for a class that exists, NULL exactly when the freelist is empty and either no page may be taken or the limit stops it; otherwise the old head, or the last chunk of the page just split, unslabbed with refcount 1, off the freelist, and `requested` grows by its size |
| SlabAnswers.AllocHands | memcached-1.4.25-fp/slabs.c:241-286 | the same of `Alloc`, and what stays: all other freelists, page lists and items |
| SlabAllocator.SlabClasses.DoSlabsFree | memcached-1.4.25-fp/slabs.c:288-310 | the chunk becomes the new head of a well-formed doubly linked freelist, slabbed and without a class, and `requested` drops by its size; nothing happens for an invalid class |
| SlabAllocator.SlabClasses.DoSlabsNewslab | memcached-1.4.25-fp/slabs.c:209-238 | refuses exactly when the limit is reached and the class has a page and the pool none; otherwise the last page of the pool, or one from malloc, joins the class's list and its blank chunks the freelist |
| SlabAllocator.SlabClasses.TakeOffFreelist | memcached-1.4.25-fp/slabs.c:624-632 | the mover takes a free chunk out of its doubly linked freelist, at the head or in the middle, and the others keep their order |
| SlabAllocator.SlabClasses.SlabRebalanceAlloc | memcached-1.4.25-fp/slabs.c:551-578 | the rescue chunk is the first free one outside the page; free chunks of the page met on the way are wiped |
| SlabAllocator.SlabClasses.SlabRebalanceFinish | memcached-1.4.25-fp/slabs.c:761-832 | the first page leaves the source list; the destination class gets it zeroed and split into its freelist, the pool as it is |
| SlabAllocator.SlabClasses.SlabRemoveFinish | memcached-1.4.25-rd/slabs1.c:951-1027 | page number `slab_index` leaves the list, order kept, and `mem_malloced` drops by a page |
| SlabAllocator.SlabClasses.ShiftPages | memcached-1.4.25-rd/slabs1.c:980-996 | the shuffling loop removes exactly the one page and keeps the order of the others |
| SlabSizes.SlabTable.SlabsInit | memcached-1.4.25-fp/slabs.c:98-135 | sizes are aligned, never shrink and end with a whole page; `perslab` is at least 1 and what is left of a page is less than a chunk |
| SlabSizes.SlabTable.SlabsClsid | memcached-1.4.25-fp/slabs.c:83-93 | the smallest class that fits, and 0 exactly for size 0 and for sizes over `item_size_max` |
| SlabSizes.ChunksFit | memcached-1.4.25-fp/slabs.c:189-197 | the chunks of a page do not overlap and end inside the page |
| EngineLayout.ChunksNeverOverlap | memcached-1.4.25-fp/slabs.c:189-238 | in every state of every run, wherever malloc has put the pages: each chunk lies inside its page, two chunks share no byte, and addresses are equal only for the same chunk |
| Geometry.RangeTestIsPageTest | memcached-1.4.25-fp/slabs.c:551-578 | an address lies in [slab_start, slab_end) exactly when its chunk belongs to the page being moved |
| Geometry.EndTestIsLastChunk | memcached-1.4.25-fp/slabs.c:735-743 | `slab_pos >= slab_end` after the step exactly behind the last chunk |
| AssocProofs.MaskMask | memcached-1.4.25-fp/thread.c:752-757 | masking by a smaller power commutes with masking by a larger one, for all hash values |
| AssocProofs.OneStripePerBucket | memcached-1.4.25-fp/assoc.c:222-226 | with lock power below `hashpower`, keys that share an old bucket or a new one share their stripe |
| AssocProofs.HalvesShareStripe | memcached-1.4.25-fp/assoc.c:222-231 | a key of old bucket b goes to b or to b + hashsize(hashpower - 1), and the numbers of all three buckets name its stripe: the lock `item_trylock(expand_bucket)` covers an old bucket and both its halves |
| AssocProofs.MaskIsRemainder | memcached-1.4.25-fp/assoc.c:38-39 | `hv & hashmask(n)`, as the lowest n bits, is the remainder by hashsize(n) |
| AssocRuns.StepKeeps | memcached-1.4.25-fp/assoc.c:217-256 | every step of clients, migration and expansion keeps table, locks and abstract map in agreement |
| AssocRuns.TableIsOneMap | memcached-1.4.25-fp/assoc.c:78-256 | under every interleaving of find, insert, delete, single-item migration steps and expansion: each find answers what the operations so far say, `hash_items` is the number of keys, `hash_bytes` counts exactly the live tables |
| AssocRuns.BucketsAreNotShared | memcached-1.4.25-fp/thread.c:114-139 | two threads inside the table, or one and the maintenance thread, are never in the same bucket, old or new |
| AssocTable.Assoc.AssocFind | memcached-1.4.25-fp/assoc.c:78-103 | walking the chain of the chosen bucket finds the item of that key, or NULL |
| AssocTable.Assoc.HashitemBefore | memcached-1.4.25-fp/assoc.c:107-123 | the slot returned is the one that points to the item, in the head array or in a predecessor |
| AssocTable.Assoc.AssocInsert | memcached-1.4.25-fp/assoc.c:156-180 | the item becomes head of its bucket, old or new, no other bucket changes, `hash_items` grows by one, and a bigger table is asked for exactly when the load exceeds 3/2 and none is being filled |
| AssocTable.Assoc.AssocDelete | memcached-1.4.25-fp/assoc.c:182-202 | the item leaves its chain, the order of the others stays, no other bucket changes, and `hash_items` drops by one |
| AssocTable.Assoc.AssocExpand | memcached-1.4.25-fp/assoc.c:126-145 | the old table becomes the prior one, an empty table of twice the size the primary one |
| AssocTable.Assoc.MigrateBucket | memcached-1.4.25-fp/assoc.c:220-250 | one old bucket is moved item by item to its two new buckets and the cursor advances; the last one ends the expansion |
| AssocGrowth.ExpansionEnds | memcached-1.4.25-fp/assoc.c:217-256 | in every run an expansion doubles the table and lasts exactly as many turns of the maintenance thread as there were buckets, whatever clients do meanwhile; then the old table is gone |
| AssocRequest.GrowsIffHeard | memcached-1.4.25-fp/assoc.c:147-176 | in every run of inserts, deletes and the maintenance thread: what its threads do on their own can still make the table grow if and only if no request has been lost |
| AssocRequest.LostAt | memcached-1.4.25-fp/assoc.c:258-261 | a request is lost exactly by a signal between the clearing of `started_expanding` and the wait, when the flag was set there too |
| AssocRequest.RequestCanBeLost | memcached-1.4.25-fp/assoc.c:258-261 | for every size of the table a run that gets there, with the table overfull and the thread waiting |
| Barrier.PausedMeansQuiet | memcached-1.4.25-fp/thread.c:141-200 | when `pause_threads` has returned no worker is in an operation, all background locks are the pauser's, and the only next step is the resume |
| Barrier.OvertakenNeverWakes | memcached-1.4.25-fp/thread.c:147-200 | a worker still leaving the last round keeps the next pause waiting for ever, in every run |
| BarrierProgress.PauseCompletesIffNobodyIsBehind | memcached-1.4.25-fp/thread.c:141-200 | in every run, when the pauser takes the hang lock: whatever threads do then, the pause can still be completed, if and only if no worker is between its registration and that lock; otherwise no continuation completes it |
| Barrier.OvertakingHappens | memcached-1.4.25-fp/thread.c:147-200 | a run that gets there |
| LruQueues.Lru.DoItemLinkQ | memcached-1.4.25-fp/items.c:274-295 | the item becomes the head of the queue of its class and segment, and `sizes` counts it |
| LruQueues.Lru.DoItemUnlinkQ | memcached-1.4.25-fp/items.c:297-323 | exactly that item leaves its doubly linked queue, wherever it is, with crawler nodes about |
| LruQueues.Lru.DoItemLink | memcached-1.4.25-fp/items.c:325-344 | flags, time, table, cas id, queue and reference after linking |
| LruQueues.Lru.DoItemUnlink | memcached-1.4.25-fp/items.c:346-373 | an item that is not linked is left alone; a linked one leaves table and queue, and is freed with its last reference |
| LruQueues.Lru.DoItemUpdateNolock | memcached-1.4.25-fp/items.c:387-399 | an item used more than a minute ago goes to the head with the new time, others stay |
| LruQueues.Lru.LruPullTail | memcached-1.4.25-fp/items.c:742-883 | the loop terminates although nodes are relinked under it and tries are refunded on crawlers, has given back every item lock it got, and has done to each item it came by what `LruTurns.PullDoes` says |
| LruTurns.PullDoes | memcached-1.4.25-fp/items.c:759-876 | item by item from the tail, at most five: passed over for its hash or lock; unlinked when expired or flushed; in HOT and WARM moved to COLD when the queue is over its limit, otherwise kept, and when active bumped with the bit cleared; in COLD unlinked by an evicting call with `evict_to_free`, moved to WARM when active under the maintainer, otherwise kept; and where the walk stops |
| LruTurns.EvictsFirst | memcached-1.4.25-fp/items.c:837-864 | with `evict_to_free` an evicting call on COLD takes exactly the first item from the tail that is neither passed over nor dead, if it comes that far: unlinked, its key gone, counted, free without other holders |
| LruTurns.NothingEvicted | memcached-1.4.25-fp/items.c:837-843 | without `evict_to_free`, or by a call that is not to evict, or from HOT or WARM, no pull has a victim, and clients see no difference |
| LruTurns.TailMovesDown | memcached-1.4.25-fp/items.c:818-824 | the live tail of a HOT or WARM queue over its limit goes to the head of COLD |
| LruPull.VisitOk | memcached-1.4.25-fp/items.c:759-876 | each of the ways to leave an item (skipped, reclaimed, moved, bumped, evicted) balances its references and leaves it in its target queue or unlinked |
| LruPullProofs.PullTailOk | memcached-1.4.25-fp/items.c:742-883 | the value returned is the drop of `sizes[id]` and at most 5; items with the caller's hash or a busy lock are untouched; at most one victim |
| LruPullProofs.PullVisible | memcached-1.4.25-fp/items.c:837-864 | a pull changes what clients see by its victim's key and nothing else, and only an evicting pull has a victim |
| LruRecency.VictimIsFirst | memcached-1.4.25-fp/items.c:759-773 | in a COLD queue each item between the victim and the tail was looked at in its turn and was skipped, for its lock or its hash, or was reclaimed |
| StoreRecency.EvictsAlmostOldest | memcached-1.4.25-fp/items.c:401-414 | without the maintainer, over all runs: a victim's last use is at most 60 seconds later than that of any item of its queue that is left, but for those the walk came by before the victim and skipped, at that very try, for their lock or their hash |
| LruQueues.Lru.CrawlerLinkQ | memcached-1.4.25-fp/items.c:1095-1114 | the crawler becomes the tail |
| LruQueues.Lru.CrawlerUnlinkQ | memcached-1.4.25-fp/items.c:1116-1134 | the crawler leaves its queue, also after it has been popped off the head |
| LruQueues.Lru.CrawlerCrawlQ | memcached-1.4.25-fp/items.c:1139-1191 | the crawler swaps with its predecessor, which is returned, or is popped off at the head; `sizes` and the item sequence stay |
| LruCrawl.CrawlerPermutesOnlyItself | memcached-1.4.25-fp/items.c:1139-1191 | without the crawler the queue is the same sequence before and after its step |
| LruCrawl.VisitedOnce | memcached-1.4.25-fp/items.c:1252-1298 | among other threads' links, unlinks and requeues: an item there at the start and not moved is visited at most once, and exactly once by a crawl that reaches the head, which ends with a well-formed queue |
| StoreProofs.EachStepOk | memcached-1.4.25-fp/items.c:325-427 | no step gives a linked item other data or flags without a cas id larger than all before |
| StoreTheorems.CasMeansUnchanged | memcached-1.4.25-fp/memcached.c:2319-2349 | over whole runs: if a key has the cas id it had at an earlier moment, its data and flags have not changed in between |
| StoreSteps.CasStoresOverWhatWasRead | memcached-1.4.25-fp/memcached.c:2319-2349 | a cas answered STORED, at any point of any run, finds the key with the data and flags it had when the client read that id, and it had no others in between |
| StoreSteps.StoreItemIsSteps | memcached-1.4.25-fp/memcached.c:2304-2419 | every storage command, for every outcome of its allocation, is a sequence of steps of `Store` (each allowed where it is taken), so what is proved of all runs holds through commands; append and prepend hand on the origin of the old value, the others give a new one |
| StoreSteps.AddDeltaIsSteps | memcached-1.4.25-fp/memcached.c:3248-3342 | the same for incr and decr, which hand on the origin of the number they have counted |
| StoreFlush.AfterKept | memcached-1.4.25-fp/items.c:101-112 | every step that does not write the settings of a flush keeps what is known of each item and each operation in flight after one: its id, time, origin and expiry against the flush's |
| StoreFlushTheorems.FlushSplitsHistory | memcached-1.4.25-fp/memcached.c:3523-3541 | for an immediate flush at any point of any run, with whatever other threads do between its write of `oldest_live`, its `get_cas_id` and its write of `oldest_cas`, until the settings are written again: items count as flushed exactly when their value is older than its id, or built from an older one, in all continuations, iff at the last write no rescue, count, append or prepend that has called `item_is_flushed` on an older value is in flight and none has passed one on since the id was taken; no client ever gets such a value, in all continuations, iff none in flight is reviving and none passed on is revived (item not expired, and for a count in place or a value passed on its time past the flush or movable there before expiry); what is stored after the id was taken never counts as flushed, whatever is in flight |
| StoreFlushing.QuietFlushMissesNothing | memcached-1.4.25-fp/memcached.c:3535-3538 | the condition over the interval: when nothing is in flight as the flush takes its id, and no operation begun before it writes `oldest_cas` looks at an older value, none is in flight on one at the end and none has been passed on |
| StoreFlushTheorems.FlushCanBeOvertaken | memcached-1.4.25-fp/memcached.c:3523-3541 | for each kind of operation a run from the start into a flush with one in flight that is reviving |
| StoreFlushTheorems.GapCanBeOvertaken | memcached-1.4.25-fp/memcached.c:3535-3538 | a run in which nothing is in flight at the write of `oldest_live`, at `get_cas_id` or at the write of `oldest_cas`, and an item of the same second, rescued in between, brings its old value back |
| StoreFlushTheorems.FlushBeforeStart | memcached-1.4.25-fp/memcached.c:154-172 | after a flush dated at or before the start of the server no item counts as flushed, whatever is done, until another flush writes `oldest_live` |
| StoreFlushTheorems.RescueOvertakesFlush | memcached-1.4.25-fp/slabs.c:689-715 | whenever a rescue that has passed `item_is_flushed` is in flight as the flush writes `oldest_cas`, the old value is visible after its next step |
| StoreFlushTheorems.BuildOvertakesFlush | memcached-1.4.25-fp/memcached.c:2346-2391 | the same for append, prepend and a count in a new item: the key shows what was built from the old value |
| StoreFlushTheorems.CountOvertakesFlush | memcached-1.4.25-fp/memcached.c:3304-3311 | for an in-place count in flight then: its next step leaves the item flushed if and only if its time is neither moved to now nor past the flush already |
| StoreBackground.BackgroundIsInvisible | memcached-1.4.25-fp/items.c:702-721 | lazy expiry, crawler reclaim, pulls without a victim and rescues leave every client's answer alone; an evicting pull drops its victim's key only |
| StoreRefines.StoreItemRefines | memcached-1.4.25-fp/memcached.c:2304-2419 | set, add, replace, append, prepend and cas answer and store what a map with versions says, for every outcome of the inner allocation; other keys change by eviction only, the key itself is never evicted, all references balance |
| StoreRefines.JoinedEndsOnce | memcached-1.4.25-fp/memcached.c:2370-2391 | append and prepend give the exact concatenation with one line end, under the old flags and expiry |
| StoreRefines.AddTouches | memcached-1.4.25-fp/memcached.c:2312-2314 | an `add` that is refused counts as a use of the item that is there, which goes to the head of its queue unless it was used within the minute |
| Commands.DoItemGet | memcached-1.4.25-fp/items.c:662-727 | in place: NULL and no change for a missing key; an expired or flushed item is unlinked; any other gets a reference and is marked FETCHED and ACTIVE, and nothing else changes |
| LazyExpiry.GetDoes | memcached-1.4.25-fp/items.c:662-727 | the same of `Get` |
| LazyExpiry.CrawlDoes | memcached-1.4.25-fp/items.c:1196-1222 | the crawler unlinks an item exactly when it has expired or was flushed, and touches nothing else |
| Commands.DoItemReplace | memcached-1.4.25-fp/items.c:416-427 | the new item takes the place of the linked one, which loses the link's reference |
| Commands.DoItemAlloc | memcached-1.4.25-fp/items.c:154-241 | in place, whatever the slab allocator answers: NULL only for an item too large for every class or after five refusals; otherwise an unlinked item with one reference, its class, key, content and segment |
| StoreRoom.AllocTakesFirst | memcached-1.4.25-fp/items.c:154-241 | the chunk taken is the first that `slabs_alloc` hands out in at most five attempts |
| StoreRoom.AllocMakesRoom | memcached-1.4.25-fp/items.c:182-193 | memory full, the live tail of COLD free to be taken: after one refusal it has been evicted, with and without the maintainer, and the new item gets its chunk |
| StoreRoom.AllocReclaimsFirst | memcached-1.4.25-fp/items.c:178-182 | without the maintainer a dead tail of COLD is freed before the first attempt, which gets its chunk |
| StoreRoom.RefusalDrains | memcached-1.4.25-fp/items.c:185-189 | with the maintainer a refusal takes the tails of overfull HOT and WARM queues out of them |
| Commands.DoStoreItem | memcached-1.4.25-fp/memcached.c:2304-2419 | in place: state, answer and item of `StoreItem` |
| StoreDelta.AddDeltaRefines | memcached-1.4.25-fp/memcached.c:3248-3342 | every outcome of incr and decr: the answer is value + delta up to a multiple of 2^64, or what delta leaves of value; the bytes stored in place or in a new item, a fresh cas id, what a refusal leaves, and the one reference that is kept |
| Commands.DoAddDelta | memcached-1.4.25-fp/memcached.c:3248-3342 | in place: state, answer and cas id of `AddDelta`, with the same outcomes |
| Decimal.ReadsBack | memcached-1.4.25-fp/util.c:14-37 | a printed number followed by padding and line end is read back, except exactly when it is at least 2^63 and a minus sign lies behind the item |
| Decimal.CountsFold | memcached-1.4.25-fp/memcached.c:3274-3320 | any sequence of incr and decr, in place or not, leaves bytes that read as the fold (sum mod 2^64, difference floored at 0) with the line end last, if and only if every number on the way is readable |
| Decimal.IncrsStoreTheSum | memcached-1.4.25-fp/memcached.c:3279-3281 | any sequence of incr leaves bytes that read as the first number plus the sum of the amounts, mod 2^64, under the same condition |
| Decimal.DecrsStoreWhatIsLeft | memcached-1.4.25-fp/memcached.c:3282-3287 | any sequence of decr leaves bytes that read as what the sum of the amounts leaves, or 0 |
| Decimal.DigitsAreTaken | memcached-1.4.25-fp/util.c:14-37 | a run of digits is read as the number it writes |
| Decimal.NoDigitsNoNumber | memcached-1.4.25-fp/util.c:14-37 | without digits nothing is read |
| Decimal.RecountInPlace | memcached-1.4.25-fp/memcached.c:3304-3311 | the digits and padding written over the old bytes leave length and line end alone |
| Jenkins.HashWords | memcached-1.4.25-fp/jenkins_hash.c:137-204 | the word path with its masked tail computes `Hash`, whatever lies behind the key in its last word |
| Jenkins.HashHalves | memcached-1.4.25-fp/jenkins_hash.c:205-251 | the 16-bit path computes the same `Hash` |
| Jenkins.HashBytes | memcached-1.4.25-fp/jenkins_hash.c:252-297 | the byte path computes the same `Hash` |
| Jenkins.UnmixMix | memcached-1.4.25-fp/jenkins_hash.c:79-87 | `mix` has an explicit inverse |
| Jenkins.MixInjective | memcached-1.4.25-fp/jenkins_hash.c:79-87 | `mix` loses nothing |
| Jenkins.RotTurns | memcached-1.4.25-fp/jenkins_hash.c:33 | `rot` turns: the k high bits become the low ones and the others move up |
| Jenkins.UnfinalFinal | memcached-1.4.25-fp/jenkins_hash.c:114-123 | `final` has an explicit inverse: state is lost only when one of its words is taken |
| Jenkins.OneBlockIsNeverLost | memcached-1.4.25-fp/jenkins_hash.c:125-297 | two keys of one length that differ in exactly one block, not the last, reach `final` in different states and leave it so |
| Reply.Conn.StartReply | memcached-1.4.25-fp/memcached.c:3447-3453 | whatever the last reply has left behind, the next one begins with one empty message |
| Reply.Conn.EnsureIovSpace | memcached-1.4.25-fp/memcached.c:699-723 | after the iovec array has moved and grown every message's window is again its prefix-sum slice |
| Reply.Conn.AddMsghdr | memcached-1.4.25-fp/memcached.c:258-298 | a new empty message, in UDP with room for its header; nothing queued is lost |
| Reply.Conn.AddPart | memcached-1.4.25-fp/memcached.c:738-777 | one turn of the loop: what is queued plus what is left is what was to be added, progress is made, and what is left was left because the message is full |
| Reply.Conn.AddIov | memcached-1.4.25-fp/memcached.c:733-780 | what is queued grows by exactly the buffer, each limited message stays within 1400 bytes and IOV_MAX entries, and no message is begun before the one before it is full |
| Reply.Conn.BuildUdpHeaders | memcached-1.4.25-fp/memcached.c:786-826 | wherever the windows have got to: each that is not empty gets the header with its number and their count as its first part, and no other part is touched, although the window of a message that was sent may start in the next one |
| Reply.HeaderAgainIff | memcached-1.4.25-fp/memcached.c:4322-4327 | running it again leaves a message alone if and only if none or all of its bytes have been taken |
| Reply.HeaderReads | memcached-1.4.25-fp/memcached.c:810-822 | request id, number and count can be read off a header |
| Reply.Conn.StartSending | memcached-1.4.25-fp/memcached.c:3044-3054 | what a finished reply puts on the wire: in TCP exactly what was queued; in UDP messages of at most 1400 bytes, each the header with its number and their count followed by its payload, and the payloads make up what was queued |
| Reply.Conn.Transmit | memcached-1.4.25-fp/memcached.c:3991-4047 | for every answer of sendmsg sent + remaining is all that goes on the wire; TRANSMIT_COMPLETE means all of it was sent, TRANSMIT_INCOMPLETE is the answer exactly when sendmsg took something, TRANSMIT_SOFT_ERROR exactly when it would block, and TRANSMIT_HARD_ERROR otherwise |
| Reply.Conn.SendReply | memcached-1.4.25-fp/memcached.c:4322-4361 | for any sequence of answers of sendmsg, with the headers written again before each look at the first message: what was sent is a prefix of the wire, and all of it when the loop ends with TRANSMIT_COMPLETE; and the wire is what it was to be if in UDP the first message is taken whole or not at all |
| Reply.Conn.Advance | memcached-1.4.25-fp/memcached.c:4004-4023 | whole entries are dropped and one cut, so that exactly `res` bytes move from remaining to sent |
| Provision.GenModel | lp-solve/LP.cc:66-251 | the loops fill the solver with exactly the rows of `Model` and the objective with the cost columns |
| Provision.ModelMeans | lp-solve/LP.cc:66-201 | a point satisfies all rows if and only if each tenant's sizes are ordered and in range, its miss ratios above every line, and latency and cost what they should be |
| ProvisionCurve.AboveIsAbove | lp-solve/LP.cc:67-97 | a row for two points holds exactly on and above the line through them |
| ProvisionTheorems.FeasibleMeets | lp-solve/LP.cc:66-201 | for every feasible point the interpolated miss ratios give a true latency within the bound, for any measured curve |
| ProvisionTheorems.RoundingKeepsBound | lp-solve/LP.cc:281-286 | sizes rounded up stay in range and ordered, still meet the bound, and cost less than 10/1024 more |
| ProvisionTheorems.Answer | lp-solve/LP.cc:281-286 | the two sizes reported for tenant 0 have these properties |
| ProvisionTheorems.NothingLostIffConvex | lp-solve/LP.cc:66-201 | every size pair within the bound extends to a feasible point, for all bounds, if and only if the curve is convex |
| ProvisionTheorems.BentCurveRefused | lp-solve/LP.cc:66-201 | a curve of three points and a pair of sizes that meets the bound and is refused |
| ProvisionTheorems.OptimalIsCheapest | lp-solve/LP.cc:230-264 | on convex curves an optimal point is a cheapest plan among all plans that meet the bound |

## Left out

- Sockets, libevent, the protocol parsers, SASL, stats output, option parsing, `cache.c`, the connection queue, `dyn-server`
  and `mutilate`.
- `malloc` failing: `memory_allocate` counts bytes even then, and `add_iov` ignores what `add_msghdr` returns.
- Tail repair (`tail_repair_time` is 0), wrap-around of 16-bit refcounts and of cas ids.
- The choice of a victim page, the HyperLogLog estimates and the control loop of `slabs_deallocate`: any page index within
  range may be taken, and the loop's termination is not considered.
- The slab mover's control flow (`slab_rebalance_move`) is a state machine of its lock-protected sections, not a method; the
  allocator functions it calls are methods.
- An item's change of queue under its item lock is one step of `Engine`, and one call of `lru_pull_tail` one step of
  `Store`, although it holds each item's lock for that item's turn only and the LRU lock only up to the last one.
- `touch` is one step of `Store`, its look at the item included: were a flush to come in between, it would write the expiry
  time of an item that its id keeps flushed.
- The steps of `Engine` start from `slabs_init` without preallocation; a page list grows as needed, so `grow_slab_list` and
  the destination list being full at the end of a move are not modelled.
- `AssocRuns` takes `assoc_expand` as one step with no operation in flight; `Barrier` is why.
- What the slab allocator, the locks and the clock answer to the item layer are parameters (`Supply`, `Oracle`, `Env`), for
  all values; ITEM_ntotal is a parameter of an item.
- `build_udp_headers` failing to allocate, and its write behind the list of `iov` when the only message of a reply has been
  sent and fills that list.
- The big-endian `jenkins_hash` and the variant for memory checkers.
- lp_solve itself is an oracle for a feasible or optimal point; its floats are reals.
- BarrierProgress.PauseCompletesIffNobodyIsBehind: that a pause can be completed from wherever the threads have got to means
  that it is, if each worker goes on being scheduled; fair scheduling itself is not modelled.
- EngineCounts.MemoryBound: holds for a fixed limit other than 0, and counts pages, not other memory.
- StoreTheorems.CasMeansUnchanged: needs `use_cas`, and is about data and flags, since `touch` changes the expiry time under
  the same id.
- StoreFlushTheorems.FlushSplitsHistory: needs `use_cas`, and is about a flush without a delay, or dated no later than now
  and after the first second of the server, that no other flush command overlaps with; while a delayed flush falls due,
  items of that very second count as flushed. `item_is_flushed` is one look at both settings.
- EngineTheorems.LinkedExactlyOnce: a key that the table has is not linked once more, which is the guard of the step.
- StoreBackground.BackgroundIsInvisible: needs `use_cas`, and for a rescue that the item is not flushed when it is rescued.
- StoreRecency.EvictsAlmostOldest: is about COLD queues without the maintainer, which is where all items are then.
- ProvisionTheorems.OptimalIsCheapest: needs convex curves, without which the optimum is one among fewer plans.
- SlabSizes.SlabTable.SlabsInit: needs a factor above 1 and a page size that is a multiple of 8, without which `perslab`
  could be 0, and does not model overflow of the 32-bit size.
