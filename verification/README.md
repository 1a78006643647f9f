# Zend memory manager and friends: models and proofs

This project models the parts of the engine whose correctness rests on redundant state that must
agree with itself, and proves that it does.

**The memory manager** (`Zend/zend_alloc.c`) hands out small blocks (slots carved out of page
runs, kept on 30 free lists), large blocks (runs of pages of a 2 MB chunk) and huge blocks (regions
of their own, described by a list whose nodes are small blocks). A chunk keeps a word bitset, a page
map with packed entries, two counters and its links in a circular ring; the heap keeps free lists,
a cache of chunks and byte counters. The main results:

- `Valid` (module `HeapBlocks`) says what the redundant state means, and every request keeps it, in
  every run: live blocks are pairwise disjoint, lie in mapped memory and outside every chunk's
  header, each slot is live or on its bin's list exactly once, the ring is well formed, the mapped
  regions are exactly what the heap owns, both byte counters are conserved and the limit holds up to
  one chunk.
- The page search returns the leftmost of the shortest free runs that fit, working on whole words
  and with a mark that may be stale.
- The collector, which hides its counters in the page map, gives back exactly the small runs without
  a live slot, except those of bin 0 (`GcRing.RunGoneExactly`); the chunks that hold nothing else leave
  the ring, and the others keep their order (`GcRing.Gc`).
- A small or large request reaches a collection if and only if it finds no free slot, no room and no
  cached chunk, and the limit forbids to map more or the system refuses to; a huge one if and only if
  the limit forbids its region or the system refuses memory. A request is refused only after that, with
  nothing left to collect; and unless the system has refused memory, what it needs is beyond the limit.
- Nothing is lost or leaked but by requests that are refused: a small one is charged its class, a
  large one nothing, a huge one at most a list node, and then its region stays mapped, which happens
  only if the system has refused memory (`MemoryManager.Manager.Run`, which counts the refused requests
  and shows every step).
- The main chunk can be deleted by mistake. The condition is exact for freeing, collecting, allocating
  and resizing, given what memory the system refuses on the way (`HeapRequests.Alloc`,
  `HeapRealloc.LosesExactly`); only for a block of the main chunk that becomes huge there is one that is
  necessary and one that is sufficient. A run deletes the main chunk only by a request that meets that
  condition, and by none that leaves another block of the program there.
- What the program writes to a block is what it reads there, through any sequence of requests: after a
  run, a block that was neither given back nor resized has its place and size, and holds what was last
  written to it.

**The expression printer** (`Zend/zend_ast.c`) writes parentheses where two priorities ask for them.
The reader that it is proved against (`AstGrammar`) takes its levels from the grammar
(`Zend/zend_language_parser.y`) or from the table in front of the printer:

- The text reads back as the expression: by the table always, by the grammar if and only if no `<=>`
  is an operand of an operator of equality (`AstGrammar.RoundTrip`).
- No pair of parentheses is superfluous but in positions that are named: without the pair, the text
  reads back if and only if the pair is one of those (`AstParens.FewestParens`).

**Secondary models**: the arena (`Arena`), page-exact trimming of an aligned mapping (`ChunkMap`),
the order in which modules start (`ModuleSort`) and the per-thread resource table (`Tsrm`).

## Reading order

| files | content |
|---|---|
| Words, PageBitset, BestFit | words as numbers with bit operations; range operations on word arrays, in place; the page search |
| Sizes, PageInfo, ChunkPages | the bin table and size classes; packed page entries; one chunk and the ghost table of page owners |
| Addresses, Blocks, BlockSteps | addresses; which addresses are blocks; how each step changes the division into live and free |
| GcSpec, GcCount, GcSweep, GcRing | dead runs; the counting and filtering loops; the sweep of a chunk; the whole collector |
| Ring, Regions, HeapInv, HeapChunks, HeapPages | the ring; mapped regions and sums; the invariant; chunks coming and going; page runs |
| HeapBlocks, HeapSlots, HeapHuge, HeapRequests, HeapRealloc, HeapLife | large, small and huge blocks; alloc, free, size; realloc; init and shutdown |
| HeapSafety, HeapTotals, HeapExamples, Memory, MemoryManager | what a valid heap promises; heaps at which the code fails; bytes; the object with in-place requests and runs |
| AstExport, AstGrammar, AstParens | the printer; the reader and the round trip; which parentheses are needed |

## Results that correct a first reading of the code

- "All pages from `free_tail` on are free" is not kept: growth in place does not move `free_tail`.
  It keeps them free if and only if the run does not grow past the mark
  (`ChunkPages.GrowKeepsTailExactly`; the smallest chunk at which it fails is in
  `ChunkPages.GrowthBreaksTail`), and every other step keeps them free (`TakeKeepsTail`,
  `StepsKeepTail`). What is always kept is that every run *begins* below the mark
  (`HeapTotals.RunsBeginBelowTail`), and that is enough for the early exit of the search and the bound
  of the sweep.
- A slot counter has 9 bits, bin 0 has 512 slots: a full counter of bin 0 reads back as 0
  (`PageInfo.SrunFields`). A small run is gone after a collection if and only if its bin is not 0 and
  it has no live slot (`GcRing.RunGoneExactly`); `HeapExamples.BinZeroSurvives` is a run of bin 0
  that holds nothing and survives every collection.
- `zend_mm_delete_chunk` has no guard for the main chunk. Deleting it leaves a heap that satisfies
  the invariant under no ring and no cache (`HeapChunks.DeleteChunk`), and the other chunks, if any,
  closed to a ring without it (`Ring.UnlinkFirst`), so that the loops that walk the ring until they
  are back at the main chunk never end. A collection does this if and only if no block of the main
  chunk is live and no slot of bin 0 is there (`GcRing.Gc`, `GcRing.MainDeadExactly`), `efree` if and
  only if the block is the last run of the main chunk and large (`HeapRequests.Free`), an allocation
  if and only if it reaches a collection that finds nothing to keep there (`HeapRequests.Alloc`).
  `erealloc` can do it when a large block leaves the main chunk and is its last run, or a collection
  takes the other runs on the way (`HeapRealloc.Realloc`, `MayLose` and `MustLose`). Such heaps are a new heap
  (`HeapExamples.NewHeap`), one whose only block is large (`HeapExamples.OnlyLargeBlock`), and one whose
  only block fills the main chunk and is made small (`HeapExamples.FullMainChunk`). The methods return
  `ruined` for it, and the model goes no further.
- A shutdown that is not full sets `real_size` to one chunk. It is conserved, and the heap is as good
  as new, if and only if the main chunk is the only one or half the sum of the old average and the
  peak is below 1.9 (`HeapLife.Restart`, `NoneStays`); `HeapExamples.CachedChunkStays` is a heap
  where it is not.
- A huge block whose list node cannot be allocated stays mapped and is owned by nobody, and a small
  request that is aborted has already been charged: the ledgers `leaked` and `lost` account for both,
  and nothing else enters them (`HeapRequests.Alloc` by `Refused`, and `NothingLeaks` everywhere else).
  `HeapExamples.NodeNotFound` is a heap where a huge request that the limit allows leaves its region.
- `ts_free_thread` passes a null pointer to the destructor of every type that was freed before and
  has one (`Tsrm.Manager.Free`): to none if and only if no type that was freed has one
  (`Tsrm.NoneFreedWithDtor`). `Tsrm.NullReachesDtor` is the smallest such table.
- The printer, and the table in front of it, put `<=>` beside `<`, at 180; the grammar declares it
  beside `==`, at 170, where nothing associates. So `(a <=> b) == c` is printed without its
  parentheses, and the grammar cannot read it (`AstGrammar.ShipUnderEquality`); the text of an
  expression can be read if and only if it has no such place (`AstGrammar.RoundTrip`).
- The printer exports the prefix `!` at 240 while the table and the grammar list it at 220; over the
  operators modelled here this makes no difference (`AstGrammar.RoundTrip` reads back with 220).
- Parentheses that the reader does not need are printed in the middle of `?:`, around an assignment
  that comes last, around a prefix operator under another (there they keep two signs apart) or on the
  right of `**`, and, by the grammar, around a comparison under `<=>` (`AstParens.Dispensable`).

## Model

| member | source | states |
|---|---|---|
| Words.TrailingOnes | Zend/zend_alloc.c:545-581 | the number of set bits below the lowest clear bit, found by halving, is exact; a full word gives its length |
| Words.TrailingZeros | Zend/zend_bitset.h:43-78 | the number of clear bits below the lowest set bit is exact; zero gives the word length |
| PageBitset.SetRangeInPlace | Zend/zend_alloc.c:649-680 | updating whole words sets exactly the bits of the range and no other |
| PageBitset.ResetRangeInPlace | Zend/zend_alloc.c:682-713 | updating whole words clears exactly the bits of the range and no other |
| PageBitset.SetRangeUsed | Zend/zend_alloc.c:649-680 | a page is marked afterwards iff it is in the range or was marked |
| PageBitset.ResetRangeUsed | Zend/zend_alloc.c:682-713 | a page is marked afterwards iff it was marked and is not in the range |
| PageBitset.IsFreeRange | Zend/zend_alloc.c:715-749 | true iff no page of the range is marked |
| BestFit.FindPages | Zend/zend_alloc.c:1016-1077 | the leftmost among the shortest maximal free runs that fit, not-found iff there is none, and the new tail mark is again sound |
| BestFit.ScanEnds | Zend/zend_alloc.c:1044-1061 | when the scan runs out of words, the best run seen is the best of the chunk, and it ends below the mark |
| BestFit.TailIsFree | Zend/zend_alloc.c:1046-1061 | when the scan stops at a word behind the mark, all pages from the run it was in to the end of the chunk are free |
| BestFit.TailEnds | Zend/zend_alloc.c:1046-1061 | then the best run of the chunk is the best one seen or this last one, whichever is shorter |
| Sizes.SmallSizeToBit | Zend/zend_alloc.c:1305-1333 | the number of binary digits of the argument |
| Sizes.SmallSizeToBin | Zend/zend_alloc.c:1341-1367 | the least class that holds the request; above 64 bytes the waste is below a quarter of the request |
| Sizes.BinSizeFormula | Zend/zend_alloc_sizes.h:32-62 | from bin 4 on the sizes are (5 + b mod 4) times a power of two |
| Sizes.BinFits | Zend/zend_alloc_sizes.h:32-62 | the slots of every bin fit its pages, and one more would not |
| Sizes.LeastBinUnique | Zend/zend_alloc_sizes.h:32-62 | a request has one least class |
| PageInfo.SrunFields | Zend/zend_alloc.c:165-192 | bin and counter read back from a packed entry, except that a counter of 512 reads as 0 |
| PageInfo.NrunFields | Zend/zend_alloc.c:179-195 | bin and offset read back from the entry of a later page of a small run |
| ChunkPages.TakeRunOk | Zend/zend_alloc.c:1159-1166 | marking free pages as a run keeps bitset, map, counters and partition in agreement |
| ChunkPages.FreeRunOk | Zend/zend_alloc.c:1256-1265 | giving a run back keeps them in agreement |
| ChunkPages.ShrinkRunOk | Zend/zend_alloc.c:1805-1817 | cutting the tail off a large run keeps them in agreement |
| ChunkPages.GrowRunOk | Zend/zend_alloc.c:1834-1849 | growing a run into the free pages behind it keeps them in agreement although free_tail stays |
| ChunkPages.TakeKeepsTail | Zend/zend_alloc.c:1016-1166 | the search and the run it takes keep all pages behind free_tail free, if they were |
| ChunkPages.StepsKeepTail | Zend/zend_alloc.c:1159-1265 | so do a run at the mark, a run given back and a run cut short |
| ChunkPages.GrowKeepsTailExactly | Zend/zend_alloc.c:1834-1849 | growth in place keeps them free iff the run does not grow past free_tail |
| ChunkPages.GrowthBreaksTail | Zend/zend_alloc.c:1834-1849 | a well-formed chunk with one run whose growth by one page leaves a used page behind free_tail |
| ChunkPages.CarvePartition | Zend/zend_alloc.c:1397-1407 | turning a fresh run into a small run keeps the partition and gives its pages entries of the bin |
| ChunkPages.InitOk | Zend/zend_alloc.c:913-928 | a chunk whose words beyond the first bit are clear is well formed after zend_mm_chunk_init, whatever its map says |
| ChunkPages.ReusedEqualsFresh | Zend/zend_alloc.c:1081-1140 | a chunk taken from the cache has the same bitset, counters, number and header entry as a newly mapped one |
| ChunkPages.MarkIsTailMark | Zend/zend_alloc.c:1046-1061 | "every run begins below the mark" is the condition under which the search may stop there |
| ChunkPages.OnlyHeader | Zend/zend_alloc.c:1266-1268 | 511 free pages mean exactly that the chunk has no run but its header |
| Ring.LinkLastOk | Zend/zend_alloc.c:913-920 | linking in before the main chunk keeps the ring circular and doubly linked |
| Ring.UnlinkOk | Zend/zend_alloc.c:1203-1208 | unlinking a chunk other than the main one keeps the ring |
| Ring.UnlinkFirst | Zend/zend_alloc.c:1203-1208 | unlinking the main chunk closes the others to a ring of their own |
| Ring.MoveSecondOk | Zend/zend_alloc.c:1149-1158 | the move next to the main chunk keeps the ring, its members and its first chunk |
| Blocks.SlotEntry | Zend/zend_alloc.c:2184-2197 | for any slot, the entry of its page names its bin, and the offset in it leads back to the head of the run |
| Blocks.ChunkBlocksApart | Zend/zend_alloc.c:1379-1492 | any two different blocks of the chunks, live or free, of any kind and size, do not overlap |
| Blocks.InsideChunk | Zend/zend_alloc.c:957-1167 | every block of a chunk lies in it and past its header page |
| BlockSteps.AddLarge | Zend/zend_alloc.c:1159-1166 | taking pages adds one live block and loses nothing |
| BlockSteps.RemoveLarge | Zend/zend_alloc.c:1256-1265 | giving a run back removes exactly its block |
| BlockSteps.ResizeLarge | Zend/zend_alloc.c:1805-1849 | resizing a run in place changes the size of its block and nothing else |
| BlockSteps.Carve | Zend/zend_alloc.c:1397-1439 | after carving, the first slot is live, the others are free, each once, and all other blocks are as before |
| BlockSteps.PushSlot | Zend/zend_alloc.c:1473-1493 | a freed slot is on its bin's list and no longer live, all else accounted for as before |
| BlockSteps.PopSlot | Zend/zend_alloc.c:1456-1460 | the first slot of a list was not live and becomes live |
| GcSpec.DeadMeansNoneLive | Zend/zend_alloc.c:2180-2204 | a counted run is full of free slots iff it has no live slot (bins of at most 511 slots) |
| GcRing.RunGoneExactly | Zend/zend_alloc.c:2162-2275 | after a collection a small run is gone iff its bin is not 0 and it has no live slot |
| HeapExamples.BinZeroSurvives | Zend/zend_alloc.c:2162-2275 | a valid heap without any block whose run of bin 0 survives every collection |
| GcSpec.CollectBlocks | Zend/zend_alloc.c:2162-2275 | removing dead runs and their slots keeps every live block and every other slot accounted for |
| GcSpec.NoneDeadAfter | Zend/zend_alloc.c:2162-2275 | after a collection no run is dead |
| GcCount.CountBin | Zend/zend_alloc.c:2180-2204 | after the loop each entry holds the number of free slots of its run, modulo its 9 bits, and nothing else has changed |
| GcCount.FilterBin | Zend/zend_alloc.c:2209-2235 | the list without the slots of full runs, in the same order |
| GcCount.NothingToFilter | Zend/zend_alloc.c:2206-2208 | skipping the second loop when no run is full changes nothing |
| GcSweep.SweepChunk | Zend/zend_alloc.c:2239-2263 | walking by run length below free_tail frees exactly the dead runs and resets every counter |
| GcSweep.NextBoundary | Zend/zend_alloc.c:2241-2262 | stepping by a run's length never lands inside a run |
| GcRing.Gc | Zend/zend_alloc.c:2162-2275 | the main chunk is deleted iff no block in it is live and no slot of bin 0 is there; otherwise exactly the dead runs go from pages and lists, the ring is the old one, in order, without the other chunks whose runs were all dead, live blocks stay, and the result is the freed pages times the page size |
| GcRing.NothingCollected | Zend/zend_alloc.c:2238-2272 | a collection that would return 0 changes neither ring nor cache nor real_size: no chunk but the main one is ever without a run |
| GcRing.MainDeadExactly | Zend/zend_alloc.c:2238-2272 | all runs of the main chunk are dead iff no block in it is live and no slot of bin 0 is there |
| GcRing.EmptiedBySweep | Zend/zend_alloc.c:2264-2267 | a sweep leaves a chunk without runs iff all its runs were dead |
| GcRing.SecondGcFindsNothing | Zend/zend_alloc.c:2162-2275 | a second collection would return 0 |
| GcRing.SweepRing | Zend/zend_alloc.c:2238-2272 | the walk around the ring sweeps every chunk once although chunks leave the ring on the way; those of them that it empties leave it, and no other, unless all runs of the main chunk are dead: then, and only then, that is deleted |
| Regions.MapChunk | Zend/zend_alloc.c:1115-1123 | mapping a fresh region keeps the regions disjoint and exactly owned |
| Regions.ResizeRegion | Zend/zend_alloc.c:1706-1757 | truncating or extending a huge region keeps them so |
| HeapInv.LayoutDelete | Zend/zend_alloc.c:1203-1245 | each of the three fates of a deleted chunk keeps ring, cache, regions and real_size in agreement |
| HeapChunks.DeleteChunk | Zend/zend_alloc.c:1203-1245 | the counters decide whether the chunk is kept in the cache; if it is not and one is cached, the older of the two stays; the deletions at one count are numbered; the heap is tidy afterwards, with no run lost, iff the chunk is not the main one |
| HeapChunks.MainGoneBreaks | Zend/zend_alloc.c:1203-1245 | once the main chunk is first in the cache or unmapped, no ring and cache make the heap well formed |
| HeapPages.GetChunk | Zend/zend_alloc.c:1081-1142 | a cached chunk first, a fresh one within the limit, or failure with all blocks as before, with nothing left to collect and, unless the system has refused memory, nothing cached and the limit reached; there is a collection iff nothing is cached and the limit is reached or the system refuses, then the emptied chunks have left the ring, and otherwise it is as before; the collect-and-retry loop ends because the pages in use fall; the main chunk is lost iff there is a collection and nothing keeps it |
| HeapPages.AllocPages | Zend/zend_alloc.c:957-1167 | success is one new block of the pages asked for that was nowhere live, at the best place of the first chunk of the ring with room, or in a new chunk if none has room; the ring keeps its order but for the chunk that moves behind the main one; it is in the main chunk iff that has room, no run of the main chunk goes without a collection, and after one no dead run is left there; failure changes no block and means that none had room, none was cached, nothing is left to collect and, unless the system has refused memory, the limit is reached; real_size grows by at most a chunk and not past the limit; the main chunk is lost iff none has room, there is a collection and nothing keeps it |
| HeapPages.MoreRoom | Zend/zend_alloc.c:1016-1077 | a collection takes no room from the main chunk: what fitted there before still does |
| HeapBlocks.AllocLarge | Zend/zend_alloc.c:1175-1195 | the block has the least number of pages and is charged for; refused only if no chunk has room for it and none is cached, and what is left then is as GetChunk says |
| HeapBlocks.FreeLarge | Zend/zend_alloc.c:1256-1299 | exactly this block is gone and credited iff it is not the last run of the main chunk; its chunk leaves the ring iff it was the last run there |
| HeapSlots.CarveEntries | Zend/zend_alloc.c:1399-1407 | the loop writes the entries of the run and no other |
| HeapSlots.LinkSlots | Zend/zend_alloc.c:1409-1433 | the linked list is every slot but the first, in order |
| HeapSlots.AllocSmallSlow | Zend/zend_alloc.c:1379-1437 | a new slot is live, the list of the bin is the rest of its run in order, all other blocks as before; refused only if no chunk has room for the run and none is cached, and what is left then is as GetChunk says |
| HeapSlots.AllocSmall | Zend/zend_alloc.c:1445-1466 | the slot is charged for and is the front of its list if there is one; it is in the main chunk iff that front is, or the list is empty and the main chunk has room for the run; an aborted request leaves the charge and nothing else, and happens only if the list is empty, no chunk has room for a run and none is cached |
| HeapSlots.FreeSmall | Zend/zend_alloc.c:1473-1493 | the slot is credited and put at the front of its list |
| HeapHuge.Decode | Zend/zend_alloc.c:1586-1611 | alignment and the entry of its page tell what a live block is, and its size |
| HeapHuge.FindHuge | Zend/zend_alloc.c:1957-1970 | the first list entry for the pointer |
| HeapRequests.MakeRoom | Zend/zend_alloc.c:2021-2035 | collects iff the limit would be exceeded; goes on only within the limit or with overflow set; refuses only if the limit was exceeded and still would be, with nothing left to collect; the main chunk is lost iff it collects and nothing keeps that chunk |
| HeapRequests.AllocHuge | Zend/zend_alloc.c:2008-2079 | a new aligned block of whole pages with its node, and size grown by exactly both; or the program's blocks as before, at most a node charged and this region left mapped, and that only if the system has refused memory; otherwise a refusal means that the limit forbids the region although nothing is left to collect |
| HeapRequests.FreeHuge | Zend/zend_alloc.c:2087-2100 | block, node and region are gone, the region is unmapped, size falls by block and node, nothing is leaked, everything else stays |
| HeapRequests.Alloc | Zend/zend_alloc.c:1528-1578 | the program gets one new block of the size class or whole pages for its request, its other blocks are as before and size grows by exactly the block (and a node); a refused request is charged at most its class, or a node with its region; the main chunk is lost iff nothing keeps it and the request reaches a collection, which is exactly told; it is refused only after one, with nothing left to collect and, unless the system has refused memory, beyond the limit; each peak is the larger of what it was and what is in use now |
| HeapRequests.Free | Zend/zend_alloc.c:1586-1611 | exactly the block at the pointer is gone, from size too, and nothing is lost or leaked, unless it is a large one and the last run of the main chunk: then the heap is broken; a null pointer changes nothing |
| HeapRequests.Size | Zend/zend_alloc.c:1619-1646 | exactly the size that was chosen when the block was allocated or last resized |
| HeapRealloc.ResizeHuge | Zend/zend_alloc.c:1676-1765 | shrinking is always in place; in place means the rounded size with the rest as before, within the limit; otherwise nothing has changed, and it is refused only if the growth is beyond the limit with nothing left to collect; the main chunk is lost iff the growth exceeds the limit and nothing keeps that chunk |
| HeapRealloc.ResizeInChunk | Zend/zend_alloc.c:1766-1865 | in place iff the class is the same, the pages fall, or the pages behind are free; then only the size of this block has changed |
| HeapRealloc.MoveBlock | Zend/zend_alloc.c:1869-1886 | the new block holds the copied bytes, the old one is gone, no other block has changed a byte, nothing is lost or leaked, and each peak is the larger of what it was and what is in use now, as if the old block had gone first; the main chunk is lost only for a large last block of it whose new place is elsewhere, or by a collection that finds nothing there |
| HeapRealloc.MoveEmpties | Zend/zend_alloc.c:1869-1886 | with the new block made, giving back the old one empties the main chunk only if it is large, nothing else keeps that chunk, the new block is not there, and it was the last run or there is a collection; and for a request that is not huge it does if all this holds |
| HeapSafety.OnlyRun | Zend/zend_alloc.c:1256-1268 | giving back a large block empties the main chunk iff every used page there belongs to it |
| HeapSafety.OthersDead | Zend/zend_alloc.c:2238-2272 | if nothing else keeps the main chunk, all its runs but this block's are dead |
| HeapRealloc.Realloc | Zend/zend_alloc.c:1656-1886 | all paths together: size, contents, the other blocks, the byte counters and the invariant; a block inside a chunk keeps its address iff it can, a huge one that stays huge does unless it grows; the main chunk is lost only under MayLose, so never for a small block of it, nor while anything else keeps it, nor when the new block is taken from it; under MustLose it is lost, or the request denied if the block lies in it; it is refused only after a collection, with nothing left to collect and, unless the system has refused to map or to extend, beyond the limit |
| HeapRealloc.LosesExactly | Zend/zend_alloc.c:1656-1886 | MayLose and MustLose agree but for a block of the main chunk and a huge request |
| Memory.Copy | Zend/zend_alloc.c:1877 | memcpy moves the bytes and touches no byte outside its destination |
| HeapLife.Init | Zend/zend_alloc.c:2106-2154 | a valid heap without blocks, one mapped chunk, which a collection would delete; all counts, peaks, lists and the chunk are those that AsNew names, and the average is 1 |
| HeapLife.Shutdown | Zend/zend_alloc.c:2496-2524 | every region is unmapped exactly once, with its size; only what had been leaked stays |
| HeapLife.Restart | Zend/zend_alloc.c:2496-2577 | the heap is as Init leaves it (AsNew: one chunk newly written, nothing live or listed, all counts and peaks those of one chunk), but for the limit, the average, which has moved half the way to the peak, and the cache, which is as large as the average allows, with clear headers; it is valid, real_size agrees and no chunk stays cached, iff the main chunk is the only one or the new average is below 1.9 |
| HeapExamples.CachedChunkStays | Zend/zend_alloc.c:2526-2577 | a valid heap with a cached chunk that does not meet that condition |
| HeapExamples.NewHeap | Zend/zend_alloc.c:2106-2154 | a new heap, at which a collection or a request beyond the limit deletes the main chunk |
| HeapExamples.OnlyLargeBlock | Zend/zend_alloc.c:1266-1268 | a valid heap whose only block is large: giving it back deletes the main chunk |
| HeapExamples.FullMainChunk | Zend/zend_alloc.c:1869-1886 | a valid heap whose main chunk is one block of 511 pages: resizing it to any small size meets MustLose |
| HeapExamples.NodeNotFound | Zend/zend_alloc.c:2036-2060 | a valid heap without room for a list node, and the heap a huge request leaves there: refused within the limit, a node charged, its region mapped, nothing left to collect |
| HeapSafety.LiveApart | Zend/zend_alloc.c:1528-1611 | two different live blocks never overlap |
| HeapSafety.LiveIsMapped | Zend/zend_alloc.c:1528-1611 | a live block is a mapped region of its own, or lies in a chunk of the ring past its header |
| HeapSafety.SlotLiveOrFree | Zend/zend_alloc.c:1379-1492 | a slot is live iff it is not on its bin's list exactly once; it is on no other list |
| HeapSafety.FreeSlotApart | Zend/zend_alloc.c:1485-1492 | a free slot, which holds a link, overlaps no live block |
| HeapSafety.OthersAnchor | Zend/zend_alloc.c:1266-1268 | freeing a block does not empty the main chunk if another live block or a slot of bin 0 is there |
| HeapTotals.Conservation | Zend/zend_alloc.c:1122-1139 | size is the program's blocks, 24 bytes for each huge block and what aborted requests were charged; real_size is the chunks and the huge blocks; the peaks dominate; the limit holds up to one chunk |
| HeapTotals.RefusalCharges | Zend/zend_alloc.c:1445-1466 | a refused request changes size iff it is small, or huge and leaves its region; size is exactly the blocks and nodes in use afterwards iff it was before and neither is the case |
| HeapTotals.MappedExactly | Zend/zend_alloc.c:1079-1158 | the mapped regions are the ring, the cache, the huge blocks and what was leaked, each once |
| HeapTotals.FreePagesExact | Zend/zend_alloc.c:1160-1165 | free_pages is the number of clear bits of free_map |
| HeapTotals.RunsBeginBelowTail | Zend/zend_alloc.c:1834-1848 | every run begins strictly below free_tail |
| MemoryManager.Manager.Alloc | Zend/zend_alloc.c:2792-2805 | in place: the program holds one more block, size has grown by it, each peak follows, and nothing is known of its bytes; a refused request changes no block, comes after a collection and leaves nothing to collect; the main chunk is lost iff there is a collection and nothing keeps it |
| MemoryManager.Manager.Free | Zend/zend_alloc.c:2812-2827 | in place: one block less, no byte changed, size falls by exactly it, the peaks stay; the main chunk is lost iff the block was a large one and the last run there |
| MemoryManager.Manager.Realloc | Zend/zend_alloc.c:2834-2864 | in place: what was written to the first bytes is still known to be there, and everything in other blocks; the main chunk is lost only under MayLose, and under MustLose unless the request is denied |
| MemoryManager.Manager.Load | Zend/zend_alloc.c:2834-2864 | a byte that was written reads back, whatever was requested in between |
| MemoryManager.Manager.Gc | Zend/zend_alloc.c:2162-2275 | the main chunk is lost iff nothing keeps it; otherwise the program notices nothing, the result is exact, the chunks whose runs were all dead have left the ring and the others kept their order, and a further call would free nothing |
| MemoryManager.Manager.Serve | Zend/zend_alloc.c:2584-2631 | one request: its exact effect on the blocks held, on the byte counters and peaks and on what is known of the bytes, when it may be refused and what is lost and left then, and when it costs the main chunk, from both sides |
| MemoryManager.Manager.Run | Zend/zend_alloc.c:2584-2631 | all of the above after any requests in any order, each step shown in a trace with what the system refused, until one deletes the main chunk, which none does that leaves another block of the program there; blocks never given back nor resized stay, with what was last written to them; what is lost and leaked is bounded by the numbers of refused small requests and of huge ones that the system had no memory for, and without the latter size stays exact iff no small one was refused |
| MemoryManager.FaithfulMove | Zend/zend_alloc.c:1869-1886 | known bytes stay known across a move |
| ChunkMap.ChunkAllocInt | Zend/zend_alloc.c:761-813 | an aligned address, and exactly the pages of the result are newly mapped; every trim length is non-negative and mapped |
| Arena.ZendArena.Alloc | Zend/zend_arena.h:57-85 | the new block overlaps no other and lies in its segment; a segment is added iff the block does not fit the current one, and it is the least that is as large as that and holds the block |
| Arena.ZendArena.Release | Zend/zend_arena.h:101-113 | whatever was allocated since the checkpoint, chain, pointer and blocks are exactly as they were then |
| Arena.CheckpointHere | Zend/zend_arena.h:105-106 | the strict and the non-strict comparison together recognise the segment of a checkpoint, also between adjacent segments |
| Arena.ZendArena.Use | Zend/zend_arena.h:57-113 | any nesting of checkpoints and releases leaves exactly what the allocations outside of all scopes leave, chain and blocks |
| AstExport.Export | Zend/zend_ast.c:1025-1682 | the buffer grows by exactly the text of the expression at the priority |
| AstGrammar.PrioritiesFit | Zend/zend_ast.c:559-592 | the numbers passed for each binary operator are those of the table, and but for `<=>` those of the grammar: level, side, and no association |
| AstGrammar.RoundTrip | Zend/zend_language_parser.y:64-80 | the exported text reads back as the expression, with nothing left over: by the table always, by the precedences of the grammar iff no `<=>` is an operand of ==, !=, === or !== |
| AstGrammar.ShipUnderEquality | Zend/zend_language_parser.y:72-73 | the smallest expression whose text the grammar cannot read |
| AstParens.FewestParens | Zend/zend_ast.c:1669-1682 | without one pair of parentheses around an operand the text reads back iff the pair is dispensable: the middle of ?:, a last assignment, a prefix under a prefix or on the right of **, by the grammar a comparison under <=> |
| AstParens.Needed | Zend/zend_ast.c:1669-1682 | any other pair is needed, whatever text follows |
| AstParens.NoneOnOwnSide | Zend/zend_ast.c:1669-1682 | the whole expression, and a chain of operators of one level on its own side, get no parentheses |
| AstGrammar.Unambiguous | Zend/zend_ast.c:1340-1682 | different expressions have different texts |
| AstExport.NoSignsInARow | Zend/zend_ast.c:1677-1682 | a prefix operator is never followed by another operator sign |
| ModuleSort.SortModules | Zend/zend_API.c:2025-2057 | ends on every acyclic registry, with the same modules, none before a module it depends on |
| ModuleSort.OrderIsRank | Zend/zend_API.c:2025-2057 | acyclicity is necessary: if some arrangement of the modules is in dependency order, a rank exists |
| ModuleSort.StartModules | Zend/zend_API.c:1972-2022 | what is kept is the largest set of modules that contains everything its members require, in the order of the registry, each once, and so each behind all that it requires and before none that it depends on |
| ModuleSort.Startup | Zend/zend_API.c:2142-2148 | sorting and starting together: which modules are kept does not depend on the first order, and they are kept in the order of the sorted registry, each behind all that it requires |
| ModuleSort.KeptPlaces | Zend/zend_API.c:2142-2148 | of two modules that are kept the first stood before the second in the registry |
| Tsrm.Manager.AllocateId | TSRM/TSRM.c:239-291 | every thread gets one slot for the new type, at the end, with an allocation of its size, built if it has a constructor; no slot moves and no thread appears |
| Tsrm.Manager.AddThread | TSRM/TSRM.c:294-337 | one entry at the end of its bucket, null exactly for types that were freed, each other slot with an allocation of its type's size, built if it has a constructor |
| Tsrm.Manager.Resource | TSRM/TSRM.c:341-395 | the slot of the thread for the type, null iff the type was freed, or all its slots for id 0; known threads change nothing, another is entered at the end of its bucket; the recursion ends |
| Tsrm.Manager.Free | TSRM/TSRM.c:458-496 | the thread is out of the table and its slots are freed; null pointers reach destructors once for each type freed before |
| Tsrm.NoneFreedWithDtor | TSRM/TSRM.c:468-478 | no null pointer reaches a destructor iff no type that was freed has one |
| Tsrm.NullReachesDtor | TSRM/TSRM.c:468-478 | a well-formed table at which one does |
| Tsrm.Manager.FreeId | TSRM/TSRM.c:546-576 | the slots of the type are freed and null in every thread, destroyed iff the type has a destructor, the others as they were |
| Tsrm.Manager.Serve | TSRM/TSRM.c:239-576 | one operation of any thread: what it does to the table, the types and the destructor calls, and that it leaves every slot alone that it does not take: those of a freed thread or type |
| Tsrm.Manager.Run | TSRM/TSRM.c:239-576 | any interleaving keeps the table well formed, each allocation in one slot, of the type it was made for, or freed once, and destroyed exactly when freed if its type has a destructor; a pointer that was handed out stays in its slot until its thread or type is freed; each step is shown in a trace |
| Tsrm.Manager.Shutdown | TSRM/TSRM.c:179-222 | in the end every allocation has been freed exactly once, and destroyed exactly once if its type has a destructor, else never |
| Tsrm.ThreadOnce | TSRM/TSRM.c:341-395 | a thread is in the table at most once, in its own bucket |
| Tsrm.SlotStays | TSRM/TSRM.c:239-395 | a pointer that was handed out stays in its slot while types and threads are added |
| Tsrm.OtherSlotStays | TSRM/TSRM.c:546-576 | freeing one type leaves the pointers of the others in their slots |
| Tsrm.OtherThreadStays | TSRM/TSRM.c:458-496 | freeing one thread leaves the slots of the others |

## Left out

- The heap operations below `MemoryManager.Manager` take and return the heap as a record instead of changing fields one by one; the object at the top changes in place. The word arrays of the bitset are updated in place, chunk headers are records keyed by the chunk's address, so aliasing between header fields is not modelled.
- The allocator's own bookkeeping (links in free slots, list nodes, headers) is not written to the bytes of memory; it is proved instead that free slots and headers overlap no live block.
- The exact instruction sequence of the halving loops: one step is a method that is repeated for each power of two below the word length.
- The word length and the number of words are parameters; the number of pages, the chunk size and the bin table are the repository's constants.
- HeapRealloc.Realloc: copying more bytes than the new block holds is promised nothing.
- HeapRealloc.MoveBlock: for a block that is the last run of the main chunk and a huge request, whether the list node comes from a free slot or from the main chunk can depend on a collection; the sufficient condition covers a block that fills the main chunk.
- GcRing.SweepRing: once the main chunk is deleted the model stops with `ruined`; the code's walk ends there if no other chunk is left, and otherwise never returns to where it began.
- MemoryManager.Manager.Realloc: asks that no more bytes are to be copied than the new size.
- HeapLife.Restart: says what the heap is afterwards; runs that go on with cached chunks, whose headers are cleared, are not continued.
- Tsrm.Manager.Resource: ids beyond the last type, which the build with debug output answers with null and the other reads past the end.
- ModuleSort.StartModules: starts with no module running and startup functions that succeed; names are in lower case.
- ChunkMap.ChunkAllocInt: failure of the second mapping.
- AstParens.FewestParens: the expression stands alone, or begins what is read; for an operand deeper in an expression it speaks of the part that the operand belongs to.
- AstExport.Export: token by token, so spaces and digits are not modelled; assignment by reference, casts, calls, array and property access, statements and declarations, and negative literals are not modelled.
- Arena.ZendArena.Alloc: emalloc is a parameter, an address that overlaps no segment.
- Tsrm: failure of realloc, constructors that call back, interpreter contexts, the unlocked fast path, ts_free_worker_threads.
- mmap, munmap, extending a region and their failures are nondeterministic choices; ghost results (`refused`, `stuck`) tell which were refused; out-of-memory and limit errors are a failed request.
- The average of chunk counts is a real number instead of a double; both outcomes of the test are proved.
- Byte counts are unbounded integers: wrap-around of size_t in rounding up a request is not modelled.
- Windows, huge pages, custom heaps and storage handlers, debug information and leak reports.
- Requests of fixed size (the emalloc_N macros) and safe_emalloc: they add cases, no state.
- The set operations of zend_bitset.h: each follows word by word from its bit operation.
- find_zero and find_one over a bitset, which nothing in the release build calls.
