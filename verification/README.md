# Verified models of the UMI kernel libraries

UMI is a RISC-V kernel. Its libraries contain several self-contained algorithms that are hard to get
right. This project models them in Dafny 4.11 and proves what they promise.

| part | files | main results |
|---|---|---|
| work-stealing run queue | `WorkQueue`, `WorkQueueSafety`, `WorkQueueRuns` | tasks are conserved in every interleaving; exactly which pushes lose tasks |
| asynchronous mutex and reader-writer lock | `AsyncMutex`, `AsyncRwLock` | the state word counts its holders in every run with cancellations; exclusion; no newcomer overtakes a starved waiter |
| copy-on-write physical memory | `PhysTree`, `PhysViews`, `PhysSteps`, `PhysMerge`, `PhysClone`, `PhysForks`, `PhysQuiet`, `PhysMemory`, `PhysRuns`, `PhysPrograms` | lazy hand-over of frames is invisible; snapshots never change; exactly when collapsing a parent is safe |
| Sv39 page tables | `PageEntry`, `PageTable` | table walks are separate; allocation changes no translation; a mapping changes one page only |
| frame arena | `Arena`, `ArenaSafety`, `ArenaCycle` | pages are partitioned in every interleaving of a lock-free splitting list |
| FAT32 | `FatEntry`, `FatTable`, `FatRuns`, `LongName`, `ShortName` | files stay disjoint and the free count right over every run; batched walks refine simple ones; names round-trip; short names never collide and are found in time |
| address space | `RangeMap`, `Aslr`, `AddressSpace` | range maps stay sorted; the random placement is exact; which pages unmap and reprotect touch, wrapped ranges included |
| pipe and cache | `Pipe`, `PipeStream`, `Lru` | three buffers are one byte stream; a linked list and an index are one recency sequence |

`Common`, `Sums` and `Arithmetic` hold shared definitions and facts about sums and division.

Code that runs concurrently (queue, locks, arena, pipe) is modelled as a state machine in which every
atomic operation is one step and the steps of any number of threads interleave freely. Objects that
are updated in place are classes, with fields that the methods assign, ghost fields or functions
for their abstract value, and loops where the source has loops. The rest is functions and lemmas.

Where the source deviates from what it sets out to do, the model follows the source. For each such
case a lemma or a method gives an input that shows the deviation, and another member says exactly
when it does not occur:

- A contended push whose claimed half ring crosses the end of the 32-bit counter loses it
  (input `WorkQueueRuns.WrapLosesTask`; exactly when, `WorkQueueRuns.LossesAreWraps`).
- When 2^32 tasks go through a run queue between a thief's look and its compare-exchange, it can claim
  tasks that are not there (input `WorkQueueRuns.WordComesRound`; exactly when,
  `WorkQueueSafety.OverclaimExact`).
- Collapsing a sole parent drops the end of the parent's own window, and the offset into a file
  (inputs `PhysMerge.MergeCanExpose` and, reached by the operations, `PhysPrograms.ExposeByMerge`;
  exactly when, `PhysMerge.MergeOkIsGapFree` and `PhysMerge.MergeExposes`).
- A physical address from 2^56 on does not survive in a page-table entry
  (input `PageTable.HighPage`; exactly when, `PageTable.MappedTranslates`).
- A request for so many pages that the address range wraps is granted by the arena, and moves its top
  back onto granted pages (input `ArenaSafety.FreshCanWrap`; exactly when, `ArenaSafety.FreshExact`).
- When the 5-bit tag of the free list comes round, a pop can succeed with the contents of a node that
  has changed, and puts a live page on the list (input `ArenaCycle.TagCycleBreaks`; exactly when,
  `ArenaSafety.StaleExact`).
- Freeing upsets the free count if the chain ends in a free cluster, enters a reserved cluster, or
  leaves the table after at least one allocable cluster (inputs `FatTable.FreeSpoils`; exactly when,
  `FatTable.FreeWalkCount`).
- Extending a free cluster that is not in the run it is extended by upsets the count (input
  `FatTable.ExtendFree`; exactly when, `FatTable.AllocatedCount`), and so does truncating a free
  cluster (input `FatTable.TruncateFree`; exactly when, `FatTable.FileSystem.TruncateClusterChain`).
  Truncation frees nothing (`FatTable.TruncateLeaks`).
- A long name that ends in 0 or 0xFFFF loses those units (input `LongName.NameCut`; exactly when,
  `LongName.NameReturns`).
- The search for a short name never ends if all digits are taken with all 65536 checksums
  (input `ShortName.SearchForever`; exactly when, `ShortName.CheckForExistence`).
- Unmapping and reprotecting a range that lies strictly inside one entry also hits the rest of that
  entry behind the range, and a range whose end wraps below its start hits pages outside it (input
  `AddressSpace.MiddlePage`; exactly when, `AddressSpace.TornIff`).
- Mapping no pages anywhere panics or leaves an empty entry, unless there is no room at all (input
  `AddressSpace.NoPages`; exactly when, `AddressSpace.Virt.MapAnywhere`). Mapping 2^52 pages or more
  at an address maps the count without its upper bits (input `AddressSpace.HugeCount`; exactly when,
  `AddressSpace.Virt.MapAt`).

## Model

| member | source | states |
|---|---|---|
| `WorkQueueRuns.TasksConserved` | mizu/lib/art/src/queue.rs:82-289 | in every interleaving of owners and thieves each copy of each pushed task is in exactly one place (queue window, a worker's hands, injector, popped, lost), and no slot with an unread task is overwritten |
| `WorkQueueRuns.AssertionsHold` | mizu/lib/art/src/queue.rs:115-284 | the wrapped counters stay ordered within one ring and none of the five assertions has failed in any run; a claim that is too large can only come up after 2^32 claims since the thief's load |
| `WorkQueueRuns.LossesAreWraps` | mizu/lib/art/src/queue.rs:108-139 | the number of lost tasks is half a ring for each contended push whose claim crosses 2^32, so none is lost if and only if there is no such push |
| `WorkQueueRuns.WrapLosesTask` | mizu/lib/art/src/queue.rs:131 | a single worker with a ring of two reaches such a loss |
| `WorkQueueSafety.SlotIsRemainder` | mizu/lib/art/src/queue.rs:102 | the slot of a position is its remainder by the capacity |
| `WorkQueueSafety.StepKeepsInv` | mizu/lib/art/src/queue.rs:195-289 | every load, compare-and-swap, slot copy and release of push, pop and steal keeps ownership of slots, the knowledge of every worker and the places of all tasks |
| `WorkQueueSafety.StealCopies` | mizu/lib/art/src/queue.rs:262-289 | a thief copies exactly the claimed tasks into free slots of its own queue |
| `WorkQueueSafety.OverclaimExact` | mizu/lib/art/src/queue.rs:252-262 | a claim of a thief that succeeds keeps the invariant if and only if it is for at most half a ring and for tasks that are there |
| `WorkQueueSafety.OverclaimNeedsCycle` | mizu/lib/art/src/queue.rs:227-262 | if it is not, at least 2^32 tasks were claimed since the thief loaded the head |
| `WorkQueueRuns.WordComesRound` | mizu/lib/art/src/queue.rs:227-262 | two workers with rings of two reach such a claim |
| `AsyncMutex.WordCounts` | mizu/lib/ksync/src/mutex.rs:334-460 | in every run with dropped futures the word is 1 if held plus 2 per starved waiter, and two clients never hold the lock together |
| `AsyncMutex.NewcomersYield` | mizu/lib/ksync/src/mutex.rs:57-62 | a client that is not starved acquires if and only if nobody holds the lock and nobody is starved |
| `AsyncMutex.StarvedTakes` | mizu/lib/ksync/src/mutex.rs:385-453 | when a starved waiter takes the lock, both directions |
| `AsyncMutex.NothingLeaks` | mizu/lib/ksync/src/mutex.rs:316-327 | once all clients are gone the word is 0 again |
| `AsyncRwLock.WordCounts` | mizu/lib/ksync/src/rw_lock.rs:131-954 | in every run the word is the writer bit plus twice the readers and never overflows |
| `AsyncRwLock.WriterExcludesAll` | mizu/lib/ksync/src/rw_lock.rs:298-315 | a granted write guard excludes every reader, upgradable reader and other writer |
| `AsyncRwLock.OneExclusive` | mizu/lib/ksync/src/rw_lock.rs:214-242 | at most one upgradable reader, pending writer or writer exists |
| `AsyncRwLock.ReadersOnlyFall` | mizu/lib/ksync/src/rw_lock.rs:131-157 | while the writer bit stays set no step adds a reader |
| `AsyncRwLock.PendingGranted` | mizu/lib/ksync/src/rw_lock.rs:551-612 | a pending writer is granted the lock if and only if the last reader has left |
| `AsyncRwLock.NothingLeaks` | mizu/lib/ksync/src/rw_lock.rs:857-954 | once all clients are gone both words are 0 again |
| `PhysSteps.FillKeeps` | mizu/lib/kmem/src/phys.rs:594-615 | storing the page a node sees anyway keeps the invariant and every handle's view |
| `PhysSteps.CowCopyKeeps` | mizu/lib/kmem/src/phys.rs:238-246 | copying a shared frame for one side and leaving it to the other keeps the invariant and every view |
| `PhysSteps.HandOverKeeps` | mizu/lib/kmem/src/phys.rs:248-254 | handing a unique frame to the asking side is not noticed by any handle |
| `PhysSteps.RaiseKeeps` | mizu/lib/kmem/src/phys.rs:232-237 | using a frame in place for a longer write changes no view |
| `PhysMerge.MergeKeeps` | mizu/lib/kmem/src/phys.rs:464-524 | collapsing a sole parent within its window keeps the invariant and every view, for every tree |
| `PhysMerge.MergeOkIsGapFree` | mizu/lib/kmem/src/phys.rs:503-514 | the window condition holds if and only if no page falls into a gap that the merge opens |
| `PhysMerge.MergeExposes` | mizu/lib/kmem/src/phys.rs:488-514 | what the child sees before and after any merge, page by page |
| `PhysMerge.MergeCanExpose` | mizu/lib/kmem/src/phys.rs:503-514 | a tree in which a merge turns a zero page into ones |
| `PhysClone.CloneKeeps` | mizu/lib/kmem/src/phys.rs:405-450 | a clone shows the window of the handle's pages, zero outside, and no other view changes |
| `PhysClone.RemoveKeeps` | mizu/lib/kmem/src/phys.rs:307-315 | removing a node that nothing hangs off leaves every other view alone |
| `PhysClone.SetPageKeeps` | mizu/lib/kmem/src/phys.rs:1013-1016 | a write to a frame is seen exactly by the lookups that end at its slot |
| `PhysForks.WriteIsolated` | mizu/lib/kmem/src/phys.rs:526-617 | a write through a copy-on-write handle is seen by no other handle, and no write is seen across a copy-on-write branch |
| `PhysForks.MergeForks` | mizu/lib/kmem/src/phys.rs:464-524 | merging undoes no fork |
| `PhysForks.CloneForks` | mizu/lib/kmem/src/phys.rs:405-450 | a clone is forked from its origin if either copies on write, and from all its origin was forked from |
| `PhysQuiet.SetPageWrote` | mizu/lib/kmem/src/phys.rs:996-1021 | setting the page of a writable slot changes exactly that page of the handle and nothing across forks |
| `PhysMemory.Memory.Branch` | mizu/lib/kmem/src/phys.rs:224-257 | a branch answers a request so that, once its child has stored what it is given, no view has changed; the frame holds the requested page |
| `PhysMemory.Memory.Leaf` | mizu/lib/kmem/src/phys.rs:259-283 | a leaf returns its own frame, with the length raised, and no view changes |
| `PhysMemory.Memory.FrameGet` | mizu/lib/kmem/src/phys.rs:285-304 | the frame shows the page of the handle that asked, and a frame to be written belongs to the asking side |
| `PhysMemory.Memory.TakeFrames` | mizu/lib/kmem/src/phys.rs:488-502 | the loop computes the child's frames and those of the parent in its window, shifted |
| `PhysMemory.Memory.MergeParent` | mizu/lib/kmem/src/phys.rs:482-514 | one merge: which tree comes of it, and that no view changes if it keeps within its window |
| `PhysMemory.Memory.MergeSoleParent` | mizu/lib/kmem/src/phys.rs:464-524 | merges exactly as long as the source does; this changes no view if all merges kept within their windows, which they do when windows are whole |
| `PhysMemory.Memory.ReadBackend` | mizu/lib/kmem/src/phys.rs:575-593 | short reads add up to the zero-extended page of the file and its length |
| `PhysMemory.Memory.CommitImpl` | mizu/lib/kmem/src/phys.rs:526-617 | the recursive commit changes no view, yields the page the handle sees, and a frame to be written in a slot the handle may write to |
| `PhysMemory.Memory.Fetch` | mizu/lib/kmem/src/phys.rs:545-615 | the same for a page that the node does not have |
| `PhysMemory.Memory.Commit` | mizu/lib/kmem/src/phys.rs:619-637 | the frame holds what the handle sees afterwards, in every case, and what it saw before as long as merges keep within their windows; no view changes then |
| `PhysMemory.Memory.WritePage` | mizu/lib/kmem/src/phys.rs:917-920 | one page of the handle gets the data, in every case; as long as merges keep within their windows, no other page changes and nothing changes across forks |
| `PhysMemory.Memory.WriteAt` | mizu/lib/kmem/src/phys.rs:902-947 | exactly the bytes of the given range change, over any number of pages |
| `PhysMemory.OffsetsCover` | mizu/lib/kmem/src/phys.rs:954-969 | first and last page and the offsets in them describe the range |
| `PhysMemory.Memory.Clone` | mizu/lib/kmem/src/phys.rs:405-450 | which tree comes of it; the clone's pages, its forks, and that nothing else changes |
| `PhysMemory.Memory.Drop` | mizu/lib/kmem/src/phys.rs:810-826 | the handle and the parents only it used go; no other view changes |
| `PhysMemory.Memory.New` | mizu/lib/kmem/src/phys.rs:368-403 | a new object is zero or shows its file |
| `PhysRuns.SnapshotKept` | mizu/lib/kmem/src/phys.rs:224-305 | over every run of reads, writes, clones and drops in which merges keep within their windows (as `PhysPrograms.Perform` makes them), a handle that is forked from a family of handles sees the same pages as long as writes go through the family, its clones, or copy-on-write handles |
| `PhysRuns.CloneIsSnapshot` | mizu/lib/kmem/src/phys.rs:405-450 | in such runs, a copy-on-write clone shows for ever what its origin showed when it was cloned |
| `PhysPrograms.Perform` | mizu/lib/kmem/src/phys.rs:368-947 | any sequence of operations on a new store goes through states that are a run as above, with the bytes written and files shown: whenever clones are whole, and otherwise as long as merges keep within their windows |
| `PhysPrograms.Step` | mizu/lib/kmem/src/phys.rs:368-947 | the same for one operation |
| `PhysPrograms.ExposeByMerge` | mizu/lib/kmem/src/phys.rs:503-514 | creating, cloning one page, cloning, and dropping twice reaches a tree in which looking for page 1 turns zeros into the file |
| `PhysPrograms.OnlyCloneReached` | mizu/lib/kmem/src/phys.rs:405-450 | the tree that these operations reach |
| `PhysPrograms.OnlyCloneMerged` | mizu/lib/kmem/src/phys.rs:464-524 | and the tree that its merges leave |
| `PageEntry.NewThenGet` | mizu/lib/paging/src/entry.rs:156-169 | an entry gives back its address and attributes |
| `PageEntry.GetThenNew` | mizu/lib/paging/src/entry.rs:156-169 | and address and attributes give back the entry, up to reserved bits |
| `PageEntry.AddrKept` | mizu/lib/paging/src/level.rs:47-49 | an aligned address survives if and only if it is below 2^56 |
| `PageEntry.IndicesArePage` | mizu/lib/paging/src/level.rs:51-69 | two addresses are on one page if and only if their three indices agree |
| `PageTable.LinkKeeps` | mizu/lib/paging/src/entry.rs:222-227 | linking a fresh zeroed table changes no translation |
| `PageTable.StoreKeeps` | mizu/lib/paging/src/entry.rs:467 | storing a leaf entry changes the translation of that page only |
| `PageTable.WalkInjective` | mizu/lib/paging/src/entry.rs:330-342 | addresses that reach one table agree in the indices above it |
| `PageTable.PageTables.La2pte` | mizu/lib/paging/src/entry.rs:330-342 | the walk finds the leaf table and index, or none |
| `PageTable.PageTables.TableOrCreate` | mizu/lib/paging/src/entry.rs:209-228 | follows, creates or refuses; when it refuses, nothing changes |
| `PageTable.PageTables.La2pteAlloc` | mizu/lib/paging/src/entry.rs:344-361 | no translation changes, whether it succeeds, is blocked or runs out of frames midway; when it is blocked |
| `PageTable.PageTables.Translate` | mizu/lib/paging/src/entry.rs:375-393 | the answer is determined by the leaf entry of the address |
| `PageTable.PageTables.MapPages` | mizu/lib/paging/src/entry.rs:432-473 | success maps all pages, which were unmapped; when a leaf entry exists already, the pages before it are mapped; nothing else changes, and how many tables are allocated at most |
| `PageTable.MappedTranslates` | mizu/lib/paging/src/entry.rs:375-393 | a mapped page is looked up as its physical page, exactly if that is a 56-bit address |
| `PageTable.HighPage` | mizu/lib/paging/src/entry.rs:375-393 | mapping a page at 2^56 and looking it up yields page 0 |
| `Arena.ComposeThenDecompose` | mizu/lib/kmem/src/frame.rs:20-32 | the parts of the head word come back |
| `Arena.SameWordMeans` | mizu/lib/kmem/src/frame.rs:20-32 | head words are equal if and only if address and tag are |
| `ArenaSafety.PagesPartitioned` | mizu/lib/kmem/src/frame.rs:76-156 | in every interleaving without a stale pop or a wrapping request, each page below the top is in exactly one free run, live run or thread's hands |
| `ArenaSafety.LiveDisjoint` | mizu/lib/kmem/src/frame.rs:138-156 | every live allocation is inside the arena, and no two overlap |
| `ArenaSafety.CountAtRest` | mizu/lib/kmem/src/frame.rs:144-160 | at rest the used count is the number of live pages |
| `ArenaSafety.StepKeepsInv` | mizu/lib/kmem/src/frame.rs:92-136 | every step of allocation, splitting and deallocation keeps list, ownership and counts, whatever users write to their pages |
| `ArenaSafety.FreshExact` | mizu/lib/kmem/src/frame.rs:79-84 | the range check admits every request that fits, and one that it admits fits if and only if it does not wrap |
| `ArenaSafety.FreshCanWrap` | mizu/lib/kmem/src/frame.rs:79-84 | a request for all pages but one is granted and moves the top back by one page |
| `ArenaSafety.StaleExact` | mizu/lib/kmem/src/frame.rs:92-118 | a pop that succeeds keeps list, ownership and counts if and only if the node is as it was read |
| `ArenaSafety.StaleNeedsCycle` | mizu/lib/kmem/src/frame.rs:20-32 | if it is not, the head word has changed at least 32 times |
| `ArenaCycle.TagCycleBreaks` | mizu/lib/kmem/src/frame.rs:92-136 | two threads and two pages reach such a pop from the start: it makes a live page the head of the list |
| `ArenaCycle.Pop` | mizu/lib/kmem/src/frame.rs:92-151 | what a whole allocation from the list comes to, when nobody interferes |
| `ArenaCycle.Grow` | mizu/lib/kmem/src/frame.rs:76-90 | the same for a fresh page |
| `ArenaCycle.Push` | mizu/lib/kmem/src/frame.rs:122-160 | and for a deallocation |
| `FatEntry.StoreThenLoad` | mizu/lib/afat32/src/table.rs:26-80 | an entry reads back as itself if and only if it is storable, and the upper four bits are kept |
| `FatEntry.ChainDistinct` | mizu/lib/afat32/src/table.rs:370-380 | a chain visits no cluster twice |
| `FatEntry.ChainsDisjoint` | mizu/lib/afat32/src/table.rs:370-380 | chains with different ends share no cluster |
| `FatTable.Fat.Set` | mizu/lib/afat32/src/table.rs:235-249 | one entry changes, or the cluster is out of range |
| `FatTable.Fat.FindInBatch` | mizu/lib/afat32/src/table.rs:277-293 | the first free cluster of a batch and how many free ones follow it there, or none is free |
| `FatTable.Fat.FindFree` | mizu/lib/afat32/src/table.rs:251-299 | finds the run `SearchIn` of the table, bounds and batch, or there is none |
| `FatTable.SearchMeans` | mizu/lib/afat32/src/table.rs:275-297 | that run starts at the first free cluster and is within one batch; there is none if and only if no cluster is free |
| `FatTable.SearchIs` | mizu/lib/afat32/src/table.rs:275-297 | it goes on to the first cluster that is not free, or to the end of the batch |
| `FatTable.Fat.LinkRun` | mizu/lib/afat32/src/table.rs:326-334 | the run is linked and ended and no other entry changes |
| `FatTable.Fat.Allocate` | mizu/lib/afat32/src/table.rs:307-336 | links the run `Pick` of the table, hint and number after `prev`; fails if there is none or `prev` is out of range, and then changes nothing |
| `FatTable.PickMeans` | mizu/lib/afat32/src/table.rs:307-336 | the run is free and not longer than asked for; there is none if and only if no cluster from the hint on is free |
| `FatTable.AllocateExtends` | mizu/lib/afat32/src/table.rs:326-334 | the chain that ended in `prev` goes on with the run |
| `FatTable.AllocateKeepsOthers` | mizu/lib/afat32/src/table.rs:307-336 | every other chain is kept and avoids the run |
| `FatTable.AllocatedCount` | mizu/lib/afat32/src/fs.rs:114-118 | the free count falls by the length of the run, if and only if `prev` was not a free cluster outside it |
| `FatTable.Fat.FreeChain` | mizu/lib/afat32/src/table.rs:407-414 | in any table, even with cycles, the walk frees what `FreeWalk` says and stops |
| `FatTable.FreeWalkChain` | mizu/lib/afat32/src/table.rs:407-414 | a chain is freed as a whole and nothing else is |
| `FatTable.ChainEnds` | mizu/lib/afat32/src/table.rs:407-414 | for a chain, the walk ends in a free cluster if and only if its last cluster is free |
| `FatTable.FreeWalkCount` | mizu/lib/afat32/src/table.rs:407-414 | in any table: as many clusters become free as are reported, if and only if the walk stays among allocable clusters and the last was not free already; a walk that fails frees none if and only if it passed no allocable cluster |
| `FatTable.FreePastEnd` | mizu/lib/afat32/src/table.rs:407-414 | a link past the end: one cluster is freed before the error |
| `FatTable.FreeReserved` | mizu/lib/afat32/src/table.rs:407-414 | a link to a reserved cluster: two are reported, one can be allocated |
| `FatTable.FreeTwice` | mizu/lib/afat32/src/table.rs:407-414 | a free cluster is reported as freed |
| `FatTable.FreeSpoils` | mizu/lib/afat32/src/fs.rs:143-150 | freeing a free cluster, one that links a reserved cluster, or one that links past the end leaves a wrong recorded count |
| `FatTable.ExtendFree` | mizu/lib/afat32/src/fs.rs:98-120 | extending a free cluster leaves a wrong recorded count |
| `FatTable.TruncateFree` | mizu/lib/afat32/src/fs.rs:134-141 | truncating a free cluster leaves a wrong recorded count |
| `FatTable.Fat.Truncate` | mizu/lib/afat32/src/table.rs:416-422 | the entry becomes the end and nothing is freed |
| `FatTable.TruncateLeaks` | mizu/lib/afat32/src/table.rs:416-422 | the clusters behind the cut remain an allocated chain |
| `FatTable.Fat.ClusterChain` | mizu/lib/afat32/src/table.rs:370-380 | yields the chain |
| `FatTable.Fat.RangedNext` | mizu/lib/afat32/src/table.rs:345-368 | one batch yields the next clusters of the chain, and some if there are any |
| `FatTable.Fat.AllClusters` | mizu/lib/afat32/src/table.rs:382-405 | the batched walk yields the chain, and with each cluster the last of the maximal run of consecutive clusters from it |
| `FatTable.Fat.MarkRuns` | mizu/lib/afat32/src/table.rs:395-403 | one pass from the back finds the last cluster of every run |
| `FatTable.RunEnd` | mizu/lib/afat32/src/table.rs:395-403 | what the last cluster of a maximal consecutive run is |
| `FatTable.FileSystem.AllocCluster` | mizu/lib/afat32/src/fs.rs:98-120 | the recorded free count stays right if and only if `prev` is missing, reserved, not free, or in the run `Pick` that is allocated; on an error it stays right |
| `FatTable.FileSystem.FreeClusterChain` | mizu/lib/afat32/src/fs.rs:143-150 | for any table and start: on success it stays right if and only if the walk stays among allocable clusters and does not end in a free one; on an error, if and only if the walk passed no allocable cluster |
| `FatTable.FileSystem.TruncateClusterChain` | mizu/lib/afat32/src/fs.rs:134-141 | it stays right if and only if the cluster was reserved or not free |
| `FatRuns.FilesKept` | mizu/lib/afat32/src/fs.rs:98-150 | over every sequence of creating, extending, deleting and truncating files, files stay chains without common clusters and the recorded count is the number of free clusters |
| `FatRuns.Perform` | mizu/lib/afat32/src/fs.rs:98-150 | any sequence of requests to a file system goes through such operations; after each of them files are disjoint chains and the recorded count is right |
| `FatRuns.Serve` | mizu/lib/afat32/src/fs.rs:98-150 | the same for one request |
| `FatRuns.FileEnds` | mizu/lib/afat32/src/fs.rs:98-150 | extending and deleting are enabled for every file of a volume |
| `FatRuns.FilesDisjoint` | mizu/lib/afat32/src/table.rs:307-336 | no two files share a cluster |
| `LongName.ParseToBytes` | mizu/lib/afat32/src/dirent.rs:329-348 | an entry survives its 32 bytes |
| `LongName.GenerateEntries` | mizu/lib/afat32/src/dir.rs:842-893 | the entries are the parts of the padded name, last part first |
| `LongName.Builder.Process` | mizu/lib/afat32/src/dir.rs:782-814 | for any entry in any state: the buffer is never left, and holds exactly the run of matching entries at the end of the stream |
| `LongName.Builder.IntoName` | mizu/lib/afat32/src/dir.rs:754-773 | a name comes out only of a complete run, and is what its parts spell without padding |
| `LongName.Builder.ValidateChecksum` | mizu/lib/afat32/src/dir.rs:816-831 | a run with another checksum is dropped |
| `LongName.TrimEnd` | mizu/lib/afat32/src/dir.rs:765-773 | removes the padding at the end |
| `LongName.TrimmedMeans` | mizu/lib/afat32/src/dir.rs:765-773 | the trimmed name is the longest prefix that does not end in padding |
| `LongName.NameReturns` | mizu/lib/afat32/src/dir.rs:834-898 | splitting and joining gives the trimmed name, which is the name if and only if it does not end in 0 or 0xFFFF |
| `LongName.RoundTrip` | mizu/lib/afat32/src/dir.rs:734-898 | generating, writing, parsing and rebuilding a name, after any other entries, gives the trimmed name |
| `LongName.NameCut` | mizu/lib/afat32/src/dir.rs:765-773 | a name that ends in 0xFFFF comes back shorter |
| `ShortName.HexReadsBack` | mizu/lib/afat32/src/dir.rs:1096-1108 | a checksum survives its four hex digits |
| `ShortName.Generator.AddExisting` | mizu/lib/afat32/src/dir.rs:989-1037 | which digits an existing name takes |
| `ShortName.Generator.Generate` | mizu/lib/afat32/src/dir.rs:1048-1068 | the result has a digit that was not taken; it fails if and only if the digits of both forms are taken and the name does not do as it is |
| `ShortName.BuiltIsNew` | mizu/lib/afat32/src/dir.rs:1078-1094 | a name built with an untaken digit is not in the directory |
| `ShortName.FindEntry` | mizu/lib/afat32/src/dir.rs:110-137 | the scan finds the first match, refuses it if it is a file or directory against expectation, or has seen every name |
| `ShortName.MoreUsed` | mizu/lib/afat32/src/dir.rs:1070-1076 | each failed round uses up nine further entries |
| `ShortName.StuckIff` | mizu/lib/afat32/src/dir.rs:1048-1068 | after a pass, the generator fails if and only if the long form and this checksum are used up in the directory |
| `ShortName.SearchForever` | mizu/lib/afat32/src/dir.rs:139-166 | for every base name of more than eight bytes and every checksum, a directory in which the search never ends |
| `ShortName.CheckForExistence` | mizu/lib/afat32/src/dir.rs:139-166 | for any directory: the result is the first match or a name no entry has, within a ninth of the number of entries plus one rounds; it never ends if and only if there is no match and all digits are taken with every checksum |
| `RangeMap.Ranges.TryInsert` | mizu/lib/range-map/src/lib.rs:44-61 | succeeds if and only if the range is not empty, within bounds and free; the map stays sorted |
| `RangeMap.Ranges.InsertVacant` | mizu/lib/range-map/src/lib.rs:176-195 | inserts without looking at the range, if and only if the key is new |
| `RangeMap.Ranges.Intersection` | mizu/lib/range-map/src/lib.rs:301-312 | yields exactly the entries that meet the range, last first |
| `RangeMap.Ranges.Drain` | mizu/lib/range-map/src/lib.rs:344-361 | removes exactly the entries inside the range |
| `RangeMap.Ranges.TakeSplit` | mizu/lib/range-map/src/lib.rs:427-449 | takes out the entry that strictly contains the key, or there is none |
| `RangeMap.Ranges.PutSplit` | mizu/lib/range-map/src/lib.rs:385-398 | puts the given parts in its place; the map stays sorted |
| `Aslr.AslrKey.FindInGap` | mizu/lib/range-map/src/lib.rs:499-522 | counts the aligned places of a gap and takes the one the entropy names; for size 0 and a gap without aligned address the difference underflows |
| `Aslr.AslrKey.EndRound` | mizu/lib/range-map/src/lib.rs:485-497 | gives up, or retries with entropy below the count |
| `Aslr.FindGap` | mizu/lib/range-map/src/lib.rs:124-145 | one round is `Round` over the gaps, and counts all slots |
| `Aslr.RoundIs` | mizu/lib/range-map/src/lib.rs:124-145 | a round finds the slot of the entropy if there are so many, over gaps with aligned addresses or for a positive size |
| `Aslr.RoundStops` | mizu/lib/range-map/src/lib.rs:124-145 | otherwise it finds a slot before the first such gap, or underflows there |
| `Aslr.FindFree` | mizu/lib/range-map/src/lib.rs:147-174 | at most two rounds, for any size; success if and only if there is a slot; the slot is the one the entropy names |
| `Aslr.SlotIsFree` | mizu/lib/range-map/src/lib.rs:503-518 | every slot is an aligned range that no entry meets |
| `Aslr.FreeIsSlot` | mizu/lib/range-map/src/lib.rs:503-518 | every aligned free range is a slot |
| `Aslr.SlotOnce` | mizu/lib/range-map/src/lib.rs:503-518 | different entropy values give different slots |
| `Aslr.TotalIff` | mizu/lib/range-map/src/lib.rs:485-497 | there is a slot if and only if there is an aligned free range |
| `AddressSpace.Virt.MapAt` | mizu/lib/kmem/src/virt.rs:303-321 | maps exactly the range of the count modulo 2^52, if and only if it is not empty, free and within bounds; which error otherwise |
| `AddressSpace.Virt.MapAnywhere` | mizu/lib/kmem/src/virt.rs:322-335 | for a positive count, maps a free range if and only if there is one; the map stays valid without a panic if and only if the count is positive or no page is free; where an empty mapping goes, and that it panics if and only if an entry starts there |
| `AddressSpace.NoPages` | mizu/lib/kmem/src/virt.rs:322-335 | with one page mapped, mapping no pages panics or leaves an invalid map, by the entropy |
| `AddressSpace.HugeCount` | mizu/lib/kmem/src/virt.rs:308-311 | mapping 2^52 + 1 pages maps one |
| `AddressSpace.FullIff` | mizu/lib/range-map/src/lib.rs:124-145 | there is a place for no pages if and only if some page is free |
| `AddressSpace.Virt.Unmap` | mizu/lib/kmem/src/virt.rs:493-544 | for any range, wrapped or not: the hit pages are unmapped; all others keep their physical page and attributes |
| `AddressSpace.Virt.Reprotect` | mizu/lib/kmem/src/virt.rs:425-491 | for any range: the hit pages get the attributes; every page keeps its physical page |
| `AddressSpace.Virt.Recolor` | mizu/lib/kmem/src/virt.rs:436-446 | the entries inside the range, and only those, get the attributes |
| `AddressSpace.UnmapIs` | mizu/lib/kmem/src/virt.rs:502-543 | what draining and the two splits amount to, page by page |
| `AddressSpace.ReprotectIs` | mizu/lib/kmem/src/virt.rs:436-489 | what recolouring and the two splits amount to, page by page |
| `AddressSpace.TornIff` | mizu/lib/kmem/src/virt.rs:517-529 | pages outside the range are hit if and only if one entry reaches beyond both its ends, or, for a wrapped range, contains one of them |
| `AddressSpace.MiddlePage` | mizu/lib/kmem/src/virt.rs:517-529 | unmapping or reprotecting the middle page of three hits the last |
| `Pipe.Buffer.Read` | mizu/kernel/src/fs/pipe.rs:58-74 | the slices get the first unread bytes of the page, as many as there are and fit |
| `Pipe.Buffer.Write` | mizu/kernel/src/fs/pipe.rs:76-92 | the page takes the first bytes of the slices, as many as fit |
| `PipeStream.StreamKept` | mizu/kernel/src/fs/pipe.rs:95-296 | in every interleaving the bytes written are those read, then those in the reader's page, the queue and the writer's page; the queue stays within its limit |
| `PipeStream.AssertionsHold` | mizu/kernel/src/fs/pipe.rs:107-124 | pages from the queue are full and pushed pages are not empty, in every interleaving |
| `Lru.Detach` | mizu/lib/kmem/src/lru.rs:975-980 | the node leaves the list, which stays linked both ways |
| `Lru.Attach` | mizu/lib/kmem/src/lru.rs:983-990 | the node is first |
| `Lru.AttachLast` | mizu/lib/kmem/src/lru.rs:993-1000 | the node is last |
| `Lru.LruCache.constructor` | mizu/lib/kmem/src/lru.rs:186-205 | the cache is empty |
| `Lru.LruCache.CapturingPut` | mizu/lib/kmem/src/lru.rs:261-291 | the pair comes first; what goes is the old pair of the key, or the last pair of a full cache |
| `Lru.LruCache.Evict` | mizu/lib/kmem/src/lru.rs:297-324 | the last pair goes |
| `Lru.LruCache.Get` | mizu/lib/kmem/src/lru.rs:346-361 | returns the value and makes the pair the most recent |
| `Lru.LruCache.Pop` | mizu/lib/kmem/src/lru.rs:623-681 | removes the pair of the key |
| `Lru.LruCache.PopLru` | mizu/lib/kmem/src/lru.rs:703-709 | removes the last pair |
| `Lru.LruCache.Promote` | mizu/lib/kmem/src/lru.rs:733-743 | the pair becomes the first |
| `Lru.LruCache.Demote` | mizu/lib/kmem/src/lru.rs:769-779 | the pair becomes the last |
| `Lru.LruCache.Resize` | mizu/lib/kmem/src/lru.rs:858-870 | the most recent pairs that fit remain |
| `Lru.LruCache.Clear` | mizu/lib/kmem/src/lru.rs:891-893 | no pair remains |
| `Lru.PutMeans` | mizu/lib/kmem/src/lru.rs:261-324 | after a put the key has its value, every other key keeps its own except an evicted one, keys stay distinct and within the capacity |

## Left out

- Weak memory: every atomic operation is a sequentially consistent step.
- WorkQueueRuns.TasksConserved: for runs in which no thief claims more than half a ring or tasks that are not there; this is a condition on single steps, and `OverclaimExact` says that it is exact. The other theorems of `WorkQueueRuns` are about the same runs.
- ArenaSafety.PagesPartitioned: for runs in which no pop succeeds with a node that has changed since it was read, and no admitted request wraps; both are conditions on single steps, and `StaleExact` and `FreshExact` say that they are exact.
- Liveness: wake-ups of locks and pipes, and end-of-file detection of pipes.
- Allocation failure of frames in physical memory objects, and in the zeroing of clusters.
- Concurrent operations on one physical memory tree: each operation is atomic.
- The dirty and flush path, `resize`, lengths and positions of physical memory objects: what is proved is about zero-extended pages.
- PhysMemory.Memory.Commit: that no other view changes is stated while merges keep within their windows; what a merge exposes otherwise is stated by `PhysMerge.MergeExposes`.
- PhysMemory.Memory.WriteAt: the same, and the buffers of a vectored write are one sequence of bytes.
- PhysMemory.Memory.Drop: does not write dirty frames back.
- `Table::unmap`, `Table::reprotect` and `table_or_split`: their ends are rounded per level, so that the natural statement holds for special ranges only.
- PageTable.PageTables.MapPages: stops before the unmapping that follows a failed walk; addresses wrap at 2^64.
- Aslr.FindFree: sizes are multiples of the alignment, as for whole pages; sums of addresses do not overflow; what follows an underflow for size 0 is not modelled.
- Page-table effects of decommitting in unmap and reprotect, which always succeeds here; misaligned ranges, which are refused before anything happens.
- Mirrors of the FAT, device errors, and the zeroing of new clusters.
- FatTable.Fat.Allocate: clusters below the hint are not searched, because the source does not search them.
- Conversion of a name to its short form and the checksums of names: the generator starts in any state, and checksums are given; names are compared by a given table of matches.
- `FatFile` reads and writes, dates, and attributes of directory entries.
- LruCache iterators and peeking: they change nothing.
- Devices, traps, system calls, sockets, futexes, semaphores, signals, timers and file descriptor tables.
