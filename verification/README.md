# A verified model of the user-level SSD cache

The repository caches 32 KB blocks of files on an NVMe device. One array of entries in shared memory
is threaded at the same time by three intrusive lists (free, clean, dirty) and by the chains of a hash
table. Any number of user threads look up, insert, mark dirty and remove; one migration worker takes
works from a small queue and promotes, demotes or writes back a block in two critical sections, with
the copy between them outside any lock. This project models that code and proves what it keeps.

The files, from the bottom up:

- `Sequences.dfy`: duplicate-free sequences.
- `WorkQueue.dfy`: the ring buffer of works, as a class, and the FIFO it refines.
- `Hash.dfy`, `HashTable.dfy`: the 32-bit bucket hash and the chained table with move-to-front.
- `IntrusiveList.dfy`: the doubly linked lists through the entry array.
- `CacheMachine.dfy`: the mapping as a state machine with one transition for each critical section
  and each phase of the worker. `CacheInvariant.dfy`: its invariant and its preservation.
- `CacheRuns.dfy`, `Reclaim.dfy`, `Lru.dfy`, `ListOrder.dfy`: properties of whole runs.
  `Sections.dfy`: lookups, which use the queue's own lock in between, as single transitions.
- `Rounds.dfy`: the worker's round as a schedule of its steps and of users' calls.
- `Mapping.dfy`: the mapping in memory, as a class. Every critical section is a method; what it does to
  the array, the lists, the table and the queue is shown to be the machine's transition. The round of
  the worker is a method too, with users' critical sections between all its steps.
- `Geometry.dfy`: shifts, LBAs and file offsets, with 32-bit wrap-around written out.
- `FlatStorage.dfy`, `Coherence.dfy`: requests and copies acting on device and file contents, and the
  theorem that the cache is flat storage. `Limits.dfy`, `Discards.dfy`: the exact conditions under which
  the code falls short of it. `Scripts.dfy`, `Witnesses.dfy`: runs in which it does.
- `Sgl.dfy`, `Pio.dfy`: the scatter-gather cursor, the request lists, and how their bytes travel.
- `Device.dfy`: the SSD as LBA-addressed blocks, and how they show the pages that are moved.
- `Target.dfy`: requests and the worker over the mapping and the two devices, as a class that runs any
  schedule of them.

Characters are signed bytes. A spinlock is taken as the assumption that critical sections are atomic.
The number of blocks `n` is a parameter below the null index (the flat-storage theorem takes it up to
the repository's 2^15), the number of hash buckets is any power of two up to 2^32, and the state starts
from zero-filled memory, as `init_mapping` does, which initialises neither the queue nor the entries.

Where the code and its documentation disagree, the model follows the code. The queue holds 15 works
(`inc/work_queue.h` says half the number of cache blocks, and `is_full` compares with 16, so it never
holds). `contains_work` accepts every queued name that is a prefix of the one asked for. A demotion
trims cache block 0 whatever block it frees, because it is called with cache page index 0.

The flat-storage theorem takes each user request as atomic and interleaves it with the worker's peek,
reserve, load, store, trim, complete and remove, and with the moments at which a submitted trim acts:
`trim_spdk` only submits, so a trim may act, wholly or in part, long after its demotion has completed.
User I/O succeeds; the worker's transfers may fail on either side, and a failed store leaves anything.
The theorem needs that no two blocks in use of one file have numbers that agree modulo 2^17 (those of pages below
2^20 never do), no write that the worker would lose, no discard of a block with something to write back, no
completion of a failed writeback whose block nobody marked, and no acting trim that changes contents of
block 0 somebody will read. `Limits.dfy` and `Discards.dfy` say exactly what happens otherwise, in terms
of what reads return, and `Witnesses.dfy` gives a run from an empty cache for each case, for caches of
every size.

## Model

| member | source | states |
|---|---|---|
| Coherence.CacheIsFlatStorage | lib/ssd_cache_target.c:141-159 | Over every run of allowed events from a fresh cache with any SSD and file contents, the outputs of all reads are those of flat storage, requests being atomic. Allowed: requests for file blocks in use, of which no two of one file agree modulo 2^17; no write to a block in demotion or to a key whose promotion has read the file; no discard of a block in flight or with something to save; no completion of a failed writeback of an unmarked block; no trim that acts on contents somebody will read and changes them |
| Coherence.EventRefinesFlat | lib/ssd_cache_target.c:141-159 | From every state in agreement with flat storage, each allowed event shows what flat storage shows and keeps the agreement |
| Coherence.WriteKept | lib/ssd_cache_target.c:17-34 | A write that is no hazard, hit, inserting or missing, keeps cached blocks true, files true where nothing is owed, and the worker's data true |
| Coherence.WorkKept | lib/ssd_cache_mapping.c:472-555 | Every phase of the worker keeps the agreement, including failed promotions and failed writebacks of blocks marked meanwhile |
| Coherence.TrimKept | lib/spdk.c:183-197 | A submitted trim keeps the agreement whenever it acts, if by then nobody will read block 0 or its contents are left alone |
| Coherence.DiscardKept | lib/ssd_cache_target.c:133-139 | A discard of a key whose block owes nothing to its file keeps the agreement |
| Coherence.ReadsTruth | lib/ssd_cache_target.c:36-52 | In agreement, a read returns the last written pages, from SSD or file |
| Coherence.InsertWithoutFetch | lib/ssd_cache_mapping.c:618-631 | A block hashed by a write without being fetched was inserted by an overwrite of exactly its 8 pages and holds all of them when the request ends |
| Coherence.CodeAddressesSane | lib/ssd_cache_mapping.c:483-490 | The LBA and offset arithmetic of requests and of the worker name the same places, distinct for distinct pages of blocks in use |
| Limits.WriteSurvivesExactly | lib/ssd_cache_mapping.c:413-429 | A written page reads back after the worker has landed if and only if the write hit no block in demotion and no promotion that had already read the file, or wrote what was there |
| Limits.TrimHarmlessExactly | lib/spdk.c:183-197 | When a submitted trim acts, at whatever time, every read is right, at once and after the worker has landed, if and only if the device leaves the contents of cache block 0 alone or block 0 is neither hashed nor about to be |
| Limits.TrimmedPage | lib/ssd_cache_mapping.c:495-499 | A page of the key in block 0 reads what the trim left there, from the trim on |
| Limits.TrimAimsAtUsedBlock | lib/ssd_cache_mapping.c:397-411 | In every run without discards block 0 is hashed whenever a trim is submitted, so at that moment only a device that leaves its contents alone does no harm |
| Limits.TrimsBalance | lib/spdk.c:183-197 | Over every run, trims submitted are those pending and those finished |
| Limits.RunActions | lib/ssd_cache_target.c:141-159 | The cache of any run of requests, discards, worker's steps and trims goes through a run of the machine |
| Limits.FailedWritebackExactly | lib/ssd_cache_mapping.c:454-468 | After a failed writeback every read is still right; once its block is no longer cached and nobody has written to it since, a page of it reads right if and only if the block was marked during the writeback or the file held the page anyway |
| Limits.PagesCollideExactly | lib/ssd_cache_target.c:69-72 | Of two uncached pages of a file, a write to one is read through the other if and only if their numbers agree modulo 2^20 |
| Discards.DiscardForgetsExactly | lib/ssd_cache_mapping.c:637-649 | Over every allowed run, a discard takes each page of its block back to what was last saved to the file, and the page reads right if and only if that is what flat storage has |
| Discards.FileIsSaved | lib/ssd_cache_mapping.c:488-518 | Over every allowed run a page in the file is flat storage's from when its block last owed nothing, or from when the last stored writeback was loaded, or what a failed store left since |
| Discards.UnsavedIsForgotten | lib/ssd_cache_mapping.c:637-649 | While nothing of a block is saved, a discard takes it back to the start of the run, so its pages read right if and only if they have not changed since |
| Discards.WriteForgottenExactly | lib/ssd_cache_mapping.c:637-649 | A write to a block with nothing else to save is forgotten by the discard, page by page, unless it wrote what was there |
| Witnesses.HazardHappens | lib/ssd_cache_mapping.c:380-395 | In a cache of any size, an allowed run from empty reaches a state in which any write to a block is lost to its promotion |
| Witnesses.DemotionHazardHappens | lib/ssd_cache_mapping.c:413-429 | In a cache of any size, an allowed run reaches a state in which any write to a block is lost to its demotion |
| Witnesses.TrimHappens | lib/ssd_cache_mapping.c:495-499 | In a cache of any size, an allowed run reaches a trim that a read of the block being demoted sees |
| Witnesses.LateTrimHappens | lib/spdk.c:183-197 | In a cache of any size, an allowed run reaches a trim that, acting after the demotion and a new insertion, destroys a write, though block 0 was not in use in between |
| Witnesses.FailedWritebackHappens | lib/ssd_cache_mapping.c:454-468 | In a cache of any size, writes, a writeback that fails to load, its completion and a demotion, all possible and otherwise allowed, end with a write lost |
| Witnesses.CollisionHappens | lib/ssd_cache_target.c:69-72 | A write to page 0 is read through page 2^20, which flat storage leaves blank |
| Witnesses.WastedWorkHappens | lib/ssd_cache_mapping.c:637-649 | In a cache of any size, a reachable state in which a discard makes the worker drop its work |
| Witnesses.InFlightDiscardHappens | lib/ssd_cache_mapping.c:637-649 | In a cache of any size, a reachable state in which a discard hits the block being written back |
| Witnesses.DiscardForgetsHappens | lib/ssd_cache_mapping.c:637-649 | In a cache of any size, a block is written whole and discarded, and the write is forgotten |
| CacheInvariant.StepKeeps | lib/ssd_cache_mapping.c:362-468 | Every critical section of every thread keeps places, flag bits, unique keys and queued keys in order |
| CacheRuns.Exec | lib/ssd_cache_mapping.c:528-668 | The invariant holds after every interleaving |
| CacheRuns.Conservation | lib/ssd_cache_mapping.c:185-202 | Free, clean and dirty lengths and the block in flight add up to the number of blocks |
| CacheRuns.ExactlyOnePlace | lib/ssd_cache_mapping.c:362-468 | In every reachable state a block is in exactly one of free, clean, dirty and in flight, and hashed unless free or being promoted |
| CacheRuns.NoKeyTwice | lib/ssd_cache_mapping.c:597-635 | In every reachable state no key is hashed twice |
| CacheRuns.HashedOnlyWhenAbsent | lib/ssd_cache_mapping.c:380-395 | Any step that hashes a block hashes a key that was not in the table |
| CacheRuns.WritebackRemembersMark | lib/ssd_cache_mapping.c:651-668 | In every interleaving, a block written back ends dirty exactly if some thread marked it between reserve and completion, success or failure |
| CacheRuns.WritebackStartsClean | lib/ssd_cache_mapping.c:445-447 | A writeback that succeeds in reserving starts with the dirty bit cleared, so that a mark seen later is a later write |
| CacheRuns.OneMigrationPerWork | lib/ssd_cache_mapping.c:528-555 | Without discards, over every run, each removed work has had exactly one migration completed |
| CacheRuns.OneOutcomePerWork | lib/ssd_cache_mapping.c:528-555 | Over every run, with discards, migrations completed and works given up add up to works removed, but for the one about to be removed |
| CacheRuns.HungryAlways | lib/ssd_cache_mapping.c:528-555 | Without discards nothing is free from a failed promotion until a demotion completes, something is dirty after the second failure, and no work is given up |
| CacheRuns.TrimHitsUsedBlock | lib/ssd_cache_mapping.c:397-411 | Without discards block 0 is hashed whenever a demotion submits its trim |
| CacheRuns.GivenUpExactly | lib/ssd_cache_mapping.c:431-437 | The worker drops a work unserved exactly when at the third attempt nothing is dirty |
| CacheRuns.DiscardWastesWork | lib/ssd_cache_mapping.c:637-649 | Discarding the only dirty block before the third attempt makes the worker drop its work |
| CacheRuns.InFlightDiscardDamages | lib/ssd_cache_mapping.c:637-649 | A discard of a block in flight frees it under the worker; once the worker completes, the block is free and listed at once, or free twice |
| Sections.InsertIsAtomic | lib/ssd_cache_mapping.c:597-635 | With the worker peeking and removing between contains_work and insert_work, a lookup with insert is still one transition, taken before those steps if the key was queued and after them if not |
| Sections.MissIsAtomic | lib/ssd_cache_mapping.c:575-595 | The same for a lookup that misses and then queues |
| CacheRuns.DemotionKeepsHalf | lib/ssd_cache_mapping.c:397-411 | Demotion reserves exactly when more than half is clean, and never leaves less than half |
| Reclaim.ReclaimBound | lib/ssd_cache_mapping.c:397-468 | From an empty free list, exactly max(0, n/2+1-c) writebacks and one demotion give a free block, with any lookups in between |
| Lru.CleanIsLru | lib/ssd_cache_mapping.c:583-586 | Over every run with successful writebacks the clean list is ordered by latest touch, read off the history |
| Lru.DemotesLeastRecentlyTouched | lib/ssd_cache_mapping.c:404-407 | A demotion reserves a clean block that no other clean block was touched before |
| ListOrder.ListsAreQueues | lib/ssd_cache_mapping.c:651-668 | Over every run with successful writebacks the dirty list is ordered by latest mark, insertion or landing while marked, and over every run the free list by release, both read off the history |
| ListOrder.WritesBackOldestMark | lib/ssd_cache_mapping.c:431-452 | A writeback reserves the dirty block whose latest mark is oldest |
| ListOrder.PromotesLongestFree | lib/ssd_cache_mapping.c:362-378 | A promotion reserves the block that was released first |
| ListOrder.FailedGoesFirst | lib/ssd_cache_mapping.c:454-468 | A failed writeback puts its block in front of the dirty list if it was marked meanwhile, else of the clean one |
| ListOrder.FailedDemotionGoesLast | lib/ssd_cache_mapping.c:413-429 | A demotion completed as failed puts its block last on the list its dirty bit chooses |
| ListOrder.StaleMarkIgnored | lib/ssd_cache_mapping.c:654-659 | Marking a block that has been given back changes nothing |
| Mappings.Mapping.InitMapping | lib/ssd_cache_mapping.c:319-343 | Rejects zero sizes; otherwise the memory shows the initial state |
| Mappings.Mapping.PromotionFreeToClean | lib/ssd_cache_mapping.c:362-378 | Refines the promotion attempt, succeeds exactly if something is free |
| Mappings.Mapping.PromotionComplete | lib/ssd_cache_mapping.c:380-395 | Refines completion: hashed and listed, or freed |
| Mappings.Mapping.DemotionCleanToFree | lib/ssd_cache_mapping.c:397-411 | Refines the demotion attempt |
| Mappings.Mapping.DemotionComplete | lib/ssd_cache_mapping.c:413-429 | Refines completion: unhashes exactly the reserved block and frees it |
| Mappings.Mapping.WritebackDirtyToClean | lib/ssd_cache_mapping.c:431-452 | Refines the writeback attempt; the head of the dirty list is never pending |
| Mappings.Mapping.WritebackComplete | lib/ssd_cache_mapping.c:454-468 | Refines completion: tail on success, head on failure, list by dirty bit |
| Mappings.Mapping.DoMigrationWork | lib/ssd_cache_mapping.c:528-555 | One round follows the schedule Rounds.Round: users' calls in their places (a discard of the block in flight is not run), the transfers with the outcomes given, one migration completed or the work given up, and the work removed. Without users it chooses promotion, demotion or writeback as something is free, much is clean or something is dirty, and leaves exactly Rounds.RoundEnd; without discards the work is served |
| Mappings.Mapping.RunUser | lib/ssd_cache_mapping.c:575-668 | A user's call does to the state what its own arguments say |
| Rounds.QuietRound | lib/ssd_cache_mapping.c:528-555 | A round without users leaves the peeked key hashed in the first free block, last on the clean list, or that block last on the free list if a transfer failed; or the first clean block freed; or the first dirty block last on the clean list, first if a transfer failed |
| Rounds.AlwaysChosen | lib/ssd_cache_mapping.c:528-555 | Between rounds something is free, or more than half is clean, or something is dirty |
| Rounds.RunOfIsRun | lib/ssd_cache_mapping.c:528-555 | Every schedule is a run of the machine |
| Mappings.Mapping.LookupMapping | lib/ssd_cache_mapping.c:575-595 | Hits exactly if the key is hashed, refines the lookup with its touch or its queued work |
| Mappings.Mapping.LookupMappingWithInsert | lib/ssd_cache_mapping.c:597-635 | Hits or inserts if and only if the key is hashed, or something is free and no queued work has its page and a name that its name begins with; refines the transition, which Sections.InsertIsAtomic shows to stand for its two sections of the queue's lock |
| Mappings.Mapping.RemoveMapping | lib/ssd_cache_mapping.c:637-649 | Refines the removal when the hit block is not in flight; otherwise the block in flight is marked unallocated and the memory shows no state with the invariant |
| Mappings.Mapping.SetDirtyAfterWrite | lib/ssd_cache_mapping.c:651-668 | Refines marking, for any block number, also a stale one |
| IntrusiveLists.IList.AddHead | lib/ssd_cache_mapping.c:57-68 | Prepends; every entry off the list and every field but the links stays |
| IntrusiveLists.IList.AddTail | lib/ssd_cache_mapping.c:70-82 | Appends, with the same frame |
| IntrusiveLists.IList.Del | lib/ssd_cache_mapping.c:84-100 | Deletes anywhere in the list, leaving the entry's own links stale |
| IntrusiveLists.IList.PopHead | lib/ssd_cache_mapping.c:102-109 | Takes the head, or nothing from an empty list |
| IntrusiveLists.PushThreads | lib/ssd_cache_mapping.c:57-68 | Rewriting the links of the new head and the old one threads the longer sequence, both ways |
| IntrusiveLists.CutThreads | lib/ssd_cache_mapping.c:84-100 | Bridging the two neighbours threads the sequence without that element |
| IntrusiveLists.WalkForward | lib/ssd_cache_mapping.c:47-49 | Following next from the head visits exactly the list |
| IntrusiveLists.WalkBackward | lib/ssd_cache_mapping.c:51-53 | Following prev from the tail visits its mirror image |
| IntrusiveLists.NilIsLargest | lib/ssd_cache_mapping.c:10-10 | The null index is the largest of 28 bits |
| HashTables.HashTable.Lookup | lib/ssd_cache_mapping.c:285-301 | Finds a hashed entry if and only if there is one with the key, and moves it to the front of its bucket, leaving the order of the others and every other bucket |
| HashTables.HashTable.Scan | lib/ssd_cache_mapping.c:261-275 | Finds the entry, its position and predecessor in the bucket, or shows that none has the key |
| HashTables.HashTable.Insert | lib/ssd_cache_mapping.c:256-259 | Puts the entry in front of the bucket of its hash |
| HashTables.HashTable.Remove | lib/ssd_cache_mapping.c:303-315 | Removes the first entry of the bucket with the key of the entry passed, which is that entry if no other has its key |
| Mappings.Mapping.UnhashEntry | lib/ssd_cache_mapping.c:303-315 | With unique keys, the entry passed is the one removed, and the memory shows the state without it |
| HashTables.PushBucket | lib/ssd_cache_mapping.c:250-254 | Chains stay acyclic, disjoint and in the right buckets when an entry is pushed |
| HashTables.CutBucket | lib/ssd_cache_mapping.c:277-283 | The same when an entry anywhere in a chain is unlinked |
| Hash.Hash32 | lib/ssd_cache_mapping.c:217-232 | The wrapped loop and shift pair give 5381, the page number and the characters, each times its power of 33, modulo 2^bits |
| Hash.PolyIs | lib/ssd_cache_mapping.c:217-229 | The unwrapped hash in closed form |
| Hash.ShiftPair | lib/ssd_cache_mapping.c:230-230 | Shifting a word up and down keeps its low bits |
| Works.WorkQueue.InsertWork | lib/work_queue.c:38-60 | Appends if and only if the work is not queued and fewer than 15 are |
| Works.WorkQueue.ContainsWork | lib/work_queue.c:24-36 | True if and only if a queued work has the page and a name whose characters are the first ones of the name asked for |
| Works.WorkQueue.RemoveWork | lib/work_queue.c:62-73 | Drops the oldest work, if any |
| Works.WorkQueue.PeakWork | lib/work_queue.c:75-87 | Returns the oldest work, if any |
| Works.WorkQueue.IsFull | lib/work_queue.c:10-15 | Is never true |
| Works.WorkQueue.IsEmpty | lib/work_queue.c:17-22 | True exactly when nothing is queued |
| Works.WorkQueue.EndsMeetWhenEmpty | lib/work_queue.c:24-36 | The two ends of the ring meet exactly when it is empty |
| Works.FifoHistory | lib/work_queue.c:38-73 | Over every history the accepted works are those removed followed by those queued, without duplicates, at most 15 |
| Works.FifteenFit | lib/work_queue.c:38-60 | Any 15 distinct works inserted into an empty queue are all queued, in order |
| Works.SixteenthRefused | lib/work_queue.c:38-60 | A 16th is refused, until a work is removed |
| Works.PeekedStays | lib/work_queue.c:75-87 | Inserting never changes what the worker peeked |
| Geometry.ShiftsDifferBy3 | lib/ssd_cache_mapping.c:317-328 | The two shifts differ by 3 if and only if the block size is at most a page |
| Geometry.PageFillsBlocks | lib/ssd_cache_api.c:115-118 | Shifted blocks hold exactly a page if and only if the block size is a power of two |
| Geometry.RequestStaysInBlock | lib/ssd_cache_target.c:124-124 | A request is accepted if and only if all its LBAs are in its cache block's range, and the bytes of that range are on any device whose size in bytes init_ssd_cache accepts |
| Geometry.AcceptedExactly | lib/ssd_cache_target.c:124-124 | A request is accepted if and only if it has no page or its first and last page are in one block of 8 |
| FlatStorage.AcceptedPages | lib/ssd_cache_target.c:124-124 | A request is accepted if and only if all its pages have one key |
| FlatStorage.OverwritableExactly | lib/ssd_cache_target.c:126-129 | A request may insert its block unfetched if and only if its pages are all the pages of one key |
| FlatStorage.FlatReadsBack | lib/ssd_cache_target.c:141-159 | Flat storage gives back the page last written, and keeps every other |
| Geometry.LbaDisjoint | lib/ssd_cache_target.c:18-20 | Ranges of distinct page slots are disjoint |
| Geometry.LbaAgree | lib/ssd_cache_target.c:37-39 | Requests and worker compute the same LBA for a page |
| Geometry.OffsetAgree | lib/ssd_cache_target.c:94-97 | Requests and worker compute the same file offset for every 32-bit page number and beyond |
| Geometry.OffsetsCollide | lib/ssd_cache_target.c:69-72 | Two pages share an offset if and only if they agree modulo 2^20 |
| ScatterGather.IoReq.ResetSgl | lib/spdk.c:221-232 | What remains is the byte stream from the offset on |
| ScatterGather.IoReq.NextSge | lib/spdk.c:233-254 | The segment handed out and what remains are what remained before |
| ScatterGather.IoReq.Walk | lib/spdk.c:221-254 | Reset and repeated next give the byte stream from the offset, each byte once and in order |
| Pios.AppendPio | lib/pio.c:19-26 | Links a node for the next page behind the last one |
| Pios.BuildRequest | fio/ssd-cache-tester/ssd-cache-tester.c:48-53 | Creation and k appends give k+1 nodes on consecutive pages |
| Pios.PioToIovec | lib/ssd_cache_target.c:8-15 | Vector i is a whole page at the buffer of node i |
| Pios.PagePlacement | lib/ssd_cache_target.c:17-34 | With the vectors that PioToIovec makes, byte j of buffer i is byte i*4096+j of the transfer, which falls at byte j of the slot of page page_index + i |
| Pios.TransferRequest | lib/ssd_cache_target.c:17-34 | From the request list through vectors and the driver's walk: the segments carry byte j of buffer i to the place of byte j in the slot of page page_index + i, and nothing else |
| Pios.CarriedPages | lib/spdk.c:221-254 | The pages collected over the walked segments, or over the vectors, are the contents of the buffers |
| Pios.DeliverPages | lib/spdk.c:221-254 | Pages delivered over the walked segments, or over the vectors, fill the disjoint buffers and leave other memory |
| Devices.WriteShows | lib/ssd_cache_target.c:17-34 | On a device of LBA-addressed blocks, a request's transfer of cnt << block_per_page_shift blocks from its first LBA changes the pages of its own slots to those written, and no other slot |
| Devices.ReadShows | lib/ssd_cache_target.c:36-52 | A request's read of cnt << block_per_page_shift blocks gives the pages of its slots, in order |
| Devices.WriteOnDevice | lib/ssd_cache_target.c:17-34 | The block device goes along with the disk model through a write of a cached block |
| Devices.StoreOnDevice | lib/ssd_cache_mapping.c:488-493 | The block device goes along with the disk model through the worker's store of 1 << block_per_cblock_shift blocks |
| Devices.WriteRequest | lib/ssd_cache_target.c:17-34 | From the request list through vectors, the driver's walk and the blocks: the device ends up showing the buffers' pages in the request's slots |
| Targets.Target.Read | lib/ssd_cache_target.c:36-52 | A read does what the disk model's read does, and returns flat storage's pages in agreement |
| Targets.Target.Write | lib/ssd_cache_target.c:141-159 | A write does what the disk model's write does; one that leaves its block is rejected without effect |
| Targets.Target.SubmitWrite | lib/ssd_cache_target.c:141-159 | A write request given as a list of nodes over memory does the disk model's write of the contents of its buffers, or is rejected without effect |
| Targets.Target.SubmitRead | lib/ssd_cache_target.c:36-52 | A read request given as a list of nodes over memory puts page i into buffer i, with disjoint buffers, and changes no other memory; in agreement the pages are flat storage's |
| Targets.Target.Discard | lib/ssd_cache_target.c:133-139 | A discard that passes the check does the machine's removal, or, if its block is in flight, leaves no state with the invariant; one that leaves its block is rejected without effect |
| Targets.Target.LoadBlock | lib/ssd_cache_mapping.c:476-487 | The first transfer of a migration does what the disk model's load does, success or failure |
| Targets.Target.StoreBlock | lib/ssd_cache_mapping.c:488-518 | The second transfer does what the disk model's store does, with whatever a failed one leaves |
| Targets.Target.SubmitTrim | lib/ssd_cache_mapping.c:495-499 | The transfer of a demotion makes one more trim pending, as in the disk model |
| Targets.Target.WorkerStep | lib/ssd_cache_mapping.c:528-555 | Any enabled phase of the worker does to memory and devices what the disk model's step does |
| Targets.Target.WorkerTurn | lib/ssd_cache_mapping.c:528-555 | The phase that the worker's program counter chooses is enabled, and does to memory and devices what the disk model's step does |
| Targets.OnlyTurns | lib/ssd_cache_mapping.c:528-555 | A phase is enabled if and only if the program counter chooses it, for one outcome of a transfer or the other |
| Targets.Target.RunSchedule | lib/ssd_cache_target.c:141-159 | Any schedule of requests, discards, worker's phases and acting trims takes memory and devices through the disk model's run; if its events are allowed and the start agrees, the outputs are flat storage's and agreement holds at the end |

## Left out

- SPDK and NVMe probing, queue pairs, DMA allocation and completion polling: foreign calls. The devices are maps from addresses to pages with a success or failure result; the disk model moves a page as a whole, and `Devices` shows that blocks of a power-of-two size do the same; other block sizes do not fill a page (`Geometry.PageFillsBlocks`).
- Shared memory, threads, cancellation, sleeping and the link and exit counts: system calls.
- The spinlocks: assumed to make critical sections atomic.
- Coherence.CacheIsFlatStorage: takes lookup, transfer and marking of one request as one event, because between them the code lets the block change hands; the structural results take every critical section separately, with stale block numbers in `set_dirty_after_write`.
- Mappings.Mapping.DoMigrationWork: users' discards of the block in flight are not run, because no state with the invariant would be left to go on from; and the transfers are flags there, the data being moved in `Targets.Target`.
- Failing user I/O, short transfers at the end of a file, descriptors as against paths: user transfers are whole pages that succeed, and a descriptor names the same file as the path.
- DISCARD of a block with something to write back, in the flat-storage theorem: it drops the block with its dirty pages by design, and `Discards.DiscardForgetsExactly` says what reads return then.
- A discard of a block in flight, in runs: `Mappings.Mapping.RemoveMapping` shows that it breaks the invariant, so runs do not go on from there.
- Return codes of requests other than the rejection of one that leaves its block.
- Name buffers: names are sequences without a bound, so the 31 characters that fit the worker's buffer are a condition on callers that the model does not need.
- Counters of hits, misses and migrations, printing, `free_pio`, fio engines and examples: no hard property.
- Works.WorkQueue.IsFull: states the code's behaviour, not the fullness its name promises, because the comparison is with a size the queue never reaches.
