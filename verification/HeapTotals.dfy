// What a valid heap says about its counters and its regions.
module HeapTotals {
  import opened Sizes
  import opened Addresses
  import opened Ring
  import opened ChunkPages
  import opened Blocks
  import opened GcCount
  import opened Regions
  import opened HeapInv
  import opened HeapChunks
  import opened HeapBlocks
  import opened HeapRequests
  import PageBitset

  // ---- size and real_size -----------------------------------------------------------------------------------

  /** The heap as if its list ended before the last entry: that entry's node counts as a block of the program. */
  function Shorter(h: Heap): Heap
    requires h.hugeList != []
  {
    h.(hugeList := h.hugeList[..|h.hugeList| - 1])
  }

  lemma LastNode(h: Heap)
    requires h.hugeList != [] && EntriesDiffer(h.hugeList) && NodesLive(h.hugeList, h.core.live)
    ensures EntriesDiffer(Shorter(h).hugeList) && NodesLive(Shorter(h).hugeList, h.core.live)
    ensures var x := h.hugeList[|h.hugeList| - 1].node;
            x in Users(Shorter(h)) && h.core.live[x] == NODE_SIZE && Users(h) == Users(Shorter(h)) - {x}
  {
    var list, rest, x := h.hugeList, Shorter(h).hugeList, h.hugeList[|h.hugeList| - 1].node;
    forall p ensures IsNode(list, p) <==> IsNode(rest, p) || p == x {
      if IsNode(list, p) && p != x {
        var i :| 0 <= i < |list| && list[i].node == p;
        assert rest[i].node == p;
      }
      if IsNode(rest, p) {
        var i :| 0 <= i < |rest| && rest[i].node == p;
        assert list[i].node == p;
      }
      assert list[|list| - 1].node == x;
    }
    assert !IsNode(rest, x);
  }

  lemma {:induction false} NodesSum(h: Heap)
    requires EntriesDiffer(h.hugeList) && NodesLive(h.hugeList, h.core.live)
    ensures Sum(h.core.live) == Sum(Users(h)) + NODE_SIZE * |h.hugeList|
    decreases |h.hugeList|
  {
    if h.hugeList == [] {
      assert Users(h) == h.core.live;
    } else {
      LastNode(h);
      NodesSum(Shorter(h));
      SumWithout(Users(Shorter(h)), h.hugeList[|h.hugeList| - 1].node);
    }
  }

  /**
   * Conservation: size is what the program holds, one list node for each huge block, and what
   * aborted requests were charged; real_size is the chunks of ring and cache and the huge
   * blocks; the peaks dominate, and without overflow the limit holds but for one chunk.
   */
  lemma Conservation(h: Heap)
    requires Valid(h)
    ensures h.stats.size == Sum(Users(h)) + NODE_SIZE * |h.hugeList| + h.stats.lost
    ensures h.core.realSize == CHUNK * (h.counters.chunks + h.counters.cached) + Sum(h.core.huge)
    ensures h.stats.size <= h.stats.peak && h.core.realSize <= h.stats.realPeak
    ensures !h.stats.overflow ==> h.core.realSize <= h.stats.limit + CHUNK
  {
    hide SpaceOk, RegionsExact, BlocksOk, CountersZero, Sum, IsNode;
    NodesSum(h);
  }

  /** size is exactly what is in use: the blocks of the program and the list nodes. */
  ghost predicate Exact(h: Heap) {
    h.stats.size == Sum(Users(h)) + NODE_SIZE * |h.hugeList|
  }

  /**
   * What a refused request does to size: a small one is always charged and a large one never; a
   * huge one is charged just when it leaves its region behind.  Only then does size stop being exact.
   */
  lemma RefusalCharges(h0: Heap, h: Heap, size: nat)
    requires Valid(h0) && Refused(h0, h, size)
    ensures h.stats.size == h0.stats.size <==> size > MAX_SMALL && h.core.leaked == h0.core.leaked
    ensures size <= MAX_LARGE ==> h.core.leaked == h0.core.leaked
    ensures Exact(h) <==> Exact(h0) && size > MAX_SMALL && h.core.leaked == h0.core.leaked
  {
    hide Valid, Sum, Users, ChargedClass, PagesFor;
    Conservation(h0);
    Conservation(h);
    LostGrows(h0);
    if size <= MAX_SMALL {
      ClassPositive(size, h.stats.lost - h0.stats.lost);
    }
  }

  lemma LostGrows(h: Heap)
    requires Valid(h)
    ensures h.stats.lost >= 0
  {
    hide Sound, HugeOk, Sum;
  }

  lemma ClassPositive(size: nat, n: int)
    requires ChargedClass(size, n)
    ensures n > 0
  {
  }

  /** The mapped regions are those of the ring, the cache, the huge blocks, and what was leaked, each once. */
  lemma MappedExactly(h: Heap, p: Address)
    requires Valid(h)
    ensures p in h.core.mapped <==> p in h.core.ring || p in h.core.cached || p in h.core.huge || p in h.core.leaked
    ensures p in h.core.ring ==> p !in h.core.cached && p !in h.core.huge && p !in h.core.leaked && h.core.mapped[p] == CHUNK
    ensures p in h.core.cached ==> p !in h.core.huge && p !in h.core.leaked && h.core.mapped[p] == CHUNK
    ensures p in h.core.huge ==> p !in h.core.leaked && h.core.mapped[p] == h.core.huge[p]
  {
    hide ChunksOk, RingOk, CacheUnused, BlocksOk, CountersZero, Accounts, HugeOk, RegionsApart, RealSizeOk;
  }

  // ---- the page table of a chunk ----------------------------------------------------------------------------

  /** free_pages counts the clear bits of free_map. */
  ghost function ClearBits(freeMap: seq<nat>, L: nat, n: nat): nat
    requires L > 0
  {
    if n == 0 then 0 else ClearBits(freeMap, L, n - 1) + if PageBitset.Used(freeMap, L, n - 1) then 0 else 1
  }

  lemma {:induction false} CountBits(own: Owners, freeMap: seq<nat>, L: nat, n: nat)
    requires L > 0 && n <= |own|
    requires forall i | 0 <= i < n :: PageBitset.Used(freeMap, L, i) <==> own[i] >= 0
    ensures ClearBits(freeMap, L, n) == FreeCount(own[..n])
  {
    hide PageBitset.Used;
    if n > 0 {
      CountBits(own, freeMap, L, n - 1);
      assert own[..n][..n - 1] == own[..n - 1];
    }
  }

  lemma FreePagesExact(s: State, a: Address)
    requires LayoutOk(s) && a in s.chunks
    ensures s.L > 0 && s.chunks[a].freePages == ClearBits(s.chunks[a].freeMap, s.L, PAGES)
  {
    hide RegionsExact, RealSizeOk, RingOk, Places, CacheUnused, Partition, HeadsBefore;
    ChunkOfAny(s, a);
    OwnersLength(s.chunks[a], s.own[a], s.L);
    BitsOfChunk(s.chunks[a], s.own[a], s.L);
    CountBits(s.own[a], s.chunks[a].freeMap, s.L, PAGES);
    assert s.own[a][..PAGES] == s.own[a];
  }

  lemma BitsOfChunk(c: Chunk, own: Owners, L: nat)
    requires ChunkOk(c, own, L) && L > 0
    ensures |own| == PAGES && c.freePages == FreeCount(own)
    ensures forall i | 0 <= i < PAGES :: PageBitset.Used(c.freeMap, L, i) <==> own[i] >= 0
  {
    hide Partition, PageBitset.Used, HeadsBefore, FreeCount;
  }

  lemma ChunkOfAny(s: State, a: Address)
    requires LayoutOk(s) && a in s.chunks
    ensures a in s.own && ChunkOk(s.chunks[a], s.own[a], s.L) && s.L > 0
  {
    hide RegionsExact, RealSizeOk, RingOk, Places, CacheUnused, ChunkOk;
  }

  /** Every run begins strictly below free_tail, also after a run has grown past it in place. */
  lemma RunsBeginBelowTail(s: State, a: Address, i: nat)
    requires LayoutOk(s) && a in s.chunks && i < PAGES && |s.own[a]| == PAGES && s.own[a][i] == i
    ensures i < s.chunks[a].freeTail <= PAGES
  {
    hide RegionsExact, RealSizeOk, RingOk, Places, CacheUnused, Partition, SameBits, FreeCount;
    ChunkOfAny(s, a);
  }
}
