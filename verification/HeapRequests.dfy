// The requests of the program: zend_mm_alloc_heap, zend_mm_free_heap, zend_mm_size, and the huge
// blocks behind them.
module HeapRequests {
  import opened Sizes
  import opened PageInfo
  import opened Addresses
  import opened Blocks
  import opened BlockSteps
  import opened GcCount
  import opened Regions
  import opened HeapInv
  import opened HeapChunks
  import opened GcRing
  import opened HeapPages
  import opened HeapBlocks
  import opened HeapSlots
  import opened HeapHuge

  /** The blocks that the program holds: the live ones, without the nodes of the huge list. */
  function Users(h: Heap): Ledger {
    map p | p in h.core.live && !IsNode(h.hugeList, p) :: h.core.live[p]
  }

  /** The block size chosen for a request: its class, or whole pages. */
  ghost predicate RoundsTo(size: nat, n: nat) {
    n >= size && if size <= MAX_SMALL then exists b: nat :: LeastBin(size, b) && n == BinSize(b)
                 else n % 0x1000 == 0 && n < size + 0x1000
  }

  /** What no request changes. */
  ghost predicate SameSettings(h0: Heap, h: Heap) {
    && h.core.L == h0.core.L && h.core.main == h0.core.main
    && h.stats.limit == h0.stats.limit && h.stats.overflow == h0.stats.overflow && h.counters.avg == h0.counters.avg
  }

  ghost predicate StillLive(h0: Heap, h: Heap) {
    forall q | q in h0.core.live :: q in h.core.live && h.core.live[q] == h0.core.live[q]
  }

  /** A huge block costs a list node besides. */
  function NodeCost(p: Address): nat {
    if Offset(p) == 0 then NODE_SIZE else 0
  }

  /** Nothing was lost or leaked, and size has changed by d. */
  ghost predicate NothingLeaks(h0: Heap, h: Heap, d: int) {
    h.stats.lost == h0.stats.lost && h.core.leaked == h0.core.leaked && h.stats.size == h0.stats.size + d
  }

  /** Each peak is the larger of what it was and what is in use now. */
  ghost predicate PeaksFollow(h0: Heap, h: Heap) {
    h.stats.peak == Max(h0.stats.peak, h.stats.size) && h.stats.realPeak == Max(h0.stats.realPeak, h.core.realSize)
  }

  /** The program has got a block of n bytes at p; its other blocks are as they were. */
  ghost predicate Granted(h0: Heap, h: Heap, p: Address, n: nat) {
    && Valid(h) && SameSettings(h0, h) && StillLive(h0, h) && ZerosKept(h0, h)
    && p !in h0.core.live && Users(h) == Users(h0)[p := n]
    && NothingLeaks(h0, h, n + NodeCost(p)) && PeaksFollow(h0, h) && ChunkPeakFollows(h0, h)
  }

  /** All blocks and all counts of bytes are as they were: what a collection leaves. */
  ghost predicate AsBefore(h0: Heap, h: Heap) {
    && Valid(h) && SameSettings(h0, h) && h.core.live == h0.core.live && h.hugeList == h0.hugeList && ZerosKept(h0, h)
    && h.stats == h0.stats && h.core.leaked == h0.core.leaked && h.counters.peakChunks == h0.counters.peakChunks
  }

  /** The least class of a small request. */
  ghost predicate ChargedClass(size: nat, n: int) {
    exists b: nat :: LeastBin(size, b) && n == BinSize(b)
  }

  /**
   * A request for size bytes was aborted.  All blocks are as they were; a small request has been
   * charged for its class, and a huge one may have been charged for its node and have left its
   * region mapped.
   */
  ghost predicate Refused(h0: Heap, h: Heap, size: nat) {
    && Valid(h) && SameSettings(h0, h) && h.core.live == h0.core.live && h.hugeList == h0.hugeList
    && PeaksFollow(h0, h) && ChunkPeakFollows(h0, h)
    && h.stats.size - h0.stats.size == h.stats.lost - h0.stats.lost
    && if size <= MAX_SMALL then
         h.core.leaked == h0.core.leaked && ChargedClass(size, h.stats.lost - h0.stats.lost)
       else
         || NothingLeaks(h0, h, 0)
         || (size > MAX_LARGE && h.stats.lost == h0.stats.lost + NODE_SIZE
             && exists q: Address :: q !in h0.core.leaked && h.core.leaked == h0.core.leaked[q := PagesFor(size) * 0x1000])
  }

  /** The program's block at p is gone, and a huge one is unmapped. */
  ghost predicate Freed(h0: Heap, h: Heap, p: Address) {
    && Valid(h) && SameSettings(h0, h) && StillLive(h, h0)
    && p in Users(h0) && p !in h.core.live && Users(h) == Users(h0) - {p}
    && NothingLeaks(h0, h, -(Users(h0)[p] + NodeCost(p))) && (Offset(p) == 0 ==> p !in h.core.mapped)
    && h.stats.peak == h0.stats.peak && h.stats.realPeak == h0.stats.realPeak
    && h.core.realSize <= h0.core.realSize && h.counters.peakChunks == h0.counters.peakChunks
  }

  /** n bytes more are beyond the limit, and it is in force. */
  ghost predicate BeyondLimit(h: Heap, n: int) {
    h.core.realSize + n > h.stats.limit && !h.stats.overflow
  }

  /**
   * What is left when a request is refused: nothing to collect; and unless the system has refused
   * memory, no chunk is cached and what the request needs is beyond the limit.
   */
  ghost predicate NoneLeft(h: Heap, size: nat, refused: bool) {
    && NothingDead(h)
    && (!refused ==> if size <= MAX_LARGE then OutOfChunks(h) else BeyondLimit(h, PagesFor(size) * 0x1000))
  }

  // ---- the main chunk's part ------------------------------------------------------------------------

  /** The block for the request, or for a huge one its node, will be a new one of the main chunk. */
  ghost predicate TakesMain(h: Heap, size: nat) {
    && |h.core.free| == BINS
    && if size <= MAX_SMALL then exists b: nat :: LeastBin(size, b) && FromMain(h, b)
       else if size <= MAX_LARGE then !NoRoom(h.core, h.core.main, PagesFor(size))
       else h.core.free[NODE_BIN] == [] && !NoRoom(h.core, h.core.main, BinPages(NODE_BIN))
  }

  ghost predicate NewInMain(h0: Heap, h: Heap) {
    exists q :: q in h.core.live && q !in h0.core.live && Offset(q) != 0 && Base(q) == h0.core.main
  }

  /**
   * What a granted request means for the main chunk: a new block there, or no new run; without a
   * collection no run of it goes, and after one no dead run is left.
   */
  ghost predicate MainAfter(h0: Heap, h: Heap, size: nat, refused: bool) {
    && (TakesMain(h0, size) ==> NewInMain(h0, h))
    && (!TakesMain(h0, size) && size <= MAX_LARGE ==> NoNewRuns(h0.core, h.core))
    && (size <= MAX_LARGE ==>
          if MustCollect(h0, size, refused) then DeadGone(h0.core, h.core) else RunsStay(h0.core, h.core))
  }

  /** The request finds neither a free slot nor room nor a cached chunk, or is huge. */
  ghost predicate MayCollect(h: Heap, size: nat) {
    if size <= MAX_SMALL then |h.core.free| == BINS && exists b: nat :: LeastBin(size, b) && NoSlotLeft(h, b)
    else size <= MAX_LARGE ==> NoChunkHasRoom(h, PagesFor(size))
  }

  /** The request reaches a collection: the limit forbids to map more for it, or the system refuses to. */
  ghost predicate MustCollect(h: Heap, size: nat, refused: bool) {
    MayCollect(h, size) && if size <= MAX_LARGE then Collects(h, refused)
                           else h.core.realSize + PagesFor(size) * 0x1000 > h.stats.limit || refused
  }

  // ---- from the steps to the requests -----------------------------------------------------------------

  lemma GotIsGranted(h0: Heap, h: Heap, p: Address, n: nat)
    requires Valid(h0) && Got(h0, h, p, n)
    ensures Granted(h0, h, p, n) && Offset(p) != 0
  {
    hide LayoutOk, CoreOk, EntriesDiffer, ListExact, Sum;
    SumAdd(h0.core.live, p, n);
    HugeFrame(h0.hugeList, h0.core.huge, h0.core.live, h.core.live);
    NodesAreLive(h0.hugeList, h0.core.live);
  }

  lemma NodesAreLive(list: seq<HugeBlock>, live: Ledger)
    requires NodesLive(list, live)
    ensures forall p | IsNode(list, p) :: p in live && live[p] == NODE_SIZE && Offset(p) != 0
  {
  }

  lemma SteadyIsAsBefore(h0: Heap, h: Heap)
    requires Valid(h0) && Steady(h0, h) && h.stats == h0.stats && h.counters.peakChunks == h0.counters.peakChunks
    ensures AsBefore(h0, h)
  {
    hide LayoutOk, CoreOk, HugeOk, Sum;
  }

  lemma ValidSound(h: Heap)
    requires Valid(h)
    ensures Sound(h) && Tidy(h) && CoreOk(h.core)
  {
    hide LayoutOk, CoreOk, HugeOk, Sum;
  }

  lemma GcIsAsBefore(h0: Heap, h: Heap)
    requires Valid(h0) && GcDone(h0, h)
    ensures AsBefore(h0, h)
  {
    ValidSound(h0);
    GcShrinks(h0, h);
    hide LayoutOk, CoreOk, HugeOk, Sound, GcDone, Steady, Valid, AsBefore;
    SteadyRefl(h0);
    GcSteady(h0, h0, h);
    SteadyIsAsBefore(h0, h);
  }

  lemma LostIsRefused(h0: Heap, h: Heap, size: nat, b: nat)
    requires Valid(h0) && size <= MAX_SMALL && LeastBin(size, b)
    requires Steady(h0.(stats := Charge(h0.stats, BinSize(b)).(lost := h0.stats.lost + BinSize(b))), h)
    ensures Refused(h0, h, size) && h.core.leaked == h0.core.leaked
  {
    hide LayoutOk, CoreOk, HugeOk, Sum, BinSize;
    assert ChargedClass(size, BinSize(b));
    hide LeastBin;
  }

  lemma SteadyIsRefused(h0: Heap, h: Heap, size: nat)
    requires Valid(h0) && Steady(h0, h) && size > MAX_SMALL
    ensures Refused(h0, h, size) && h.core.leaked == h0.core.leaked
  {
    hide LayoutOk, CoreOk, HugeOk, Sum;
  }

  lemma GaveIsFreed(h0: Heap, h: Heap, p: Address)
    requires Valid(h0) && Gave(h0, h, p) && p in Users(h0) && Offset(p) != 0
    ensures Freed(h0, h, p)
  {
    hide LayoutOk, CoreOk, EntriesDiffer, ListExact, Sum;
    SumWithout(h0.core.live, p);
    HugeFrame(h0.hugeList, h0.core.huge, h0.core.live, h.core.live);
  }

  // ---- huge blocks ------------------------------------------------------------------------------------

  /** Making room under the limit, by a collection if need be. */
  method MakeRoom(h0: Heap, n: nat) returns (ok: bool, h: Heap, ruined: bool)
    requires Sound(h0)
    ensures ruined <==> h0.core.realSize + n > h0.stats.limit && !Anchored(h0.core)
    ensures ruined ==> Ruined(h)
    ensures h0.core.realSize + n <= h0.stats.limit ==> h == h0
    ensures !ruined ==> Steady(h0, h) && h.stats == h0.stats && h.core.realSize <= h0.core.realSize
    ensures !ruined && ok ==> h.core.realSize + n <= h.stats.limit || h.stats.overflow
    ensures !ruined ==> h.counters.peakChunks == h0.counters.peakChunks
    ensures !ok && !ruined ==> h0.core.realSize + n > h0.stats.limit && NothingDead(h) && BeyondLimit(h, n)
  {
    hide CoreOk, LayoutOk, Anchored, GcDone, UsedPages, DeadPages, TablesOf, Sound, Steady, MainGone, Tidy;
    h, ruined := h0, false;
    SteadyRefl(h0);
    ok := true;
    if h.core.realSize + n > h.stats.limit {
      var bytes;
      h, bytes, ruined := Gc(h);
      if ruined {
        return false, h, true;
      }
      GcSteady(h0, h0, h);
      GcShrinks(h0, h);
      SweptAgain(h0, h0, h);
      if bytes > 0 && h.core.realSize + n <= h.stats.limit {
      } else if !h.stats.overflow {
        ok := false;
      }
    }
  }

  /** A region of n bytes has been mapped at p; no list node describes it yet. */
  ghost predicate RegionMapped(h0: Heap, h: Heap, p: Address, n: nat) {
    && Sound(h) && Offset(p) == 0 && p > 0 && p !in h0.core.huge && p !in h0.core.live
    && h.stats == h0.stats && h.hugeList == h0.hugeList && h.core.realSize <= h0.core.realSize
    && h.core.L == h0.core.L && h.core.main == h0.core.main
    && h.core.huge == h0.core.huge && h.core.live == h0.core.live && h.core.leaked == h0.core.leaked[p := n]
    && h.counters.avg == h0.counters.avg && h.counters.peakChunks == h0.counters.peakChunks
    && p !in h0.core.leaked && NoNewSlots(h0.core.free, h.core.free) && NoNewRuns(h0.core, h.core)
  }

  lemma MappedSteady(h0: Heap, h: Heap, p: Address, n: nat)
    requires Steady(h0, h) && h.stats == h0.stats && h.core.realSize <= h0.core.realSize && Fresh(h.core.mapped, p, n)
    requires h.counters.peakChunks == h0.counters.peakChunks
    ensures RegionMapped(h0, h.(core := MappedHuge(h.core, p, n)), p, n)
    ensures MappedHuge(h.core, p, n).realSize == h.core.realSize
  {
    hide LayoutOk, BlocksOk, CountersZero;
    CoreMap(h.core, p, n);
    CoreIsTidy(MappedHuge(h.core, p, n));
    AlignedNotLive(h.core, p);
    assert MainOwn(MappedHuge(h.core, p, n)) == MainOwn(h.core);
  }

  lemma AlignedNotLive(s: State, p: Address)
    requires CoreOk(s) && Offset(p) == 0 && p !in s.huge
    ensures p !in s.live
  {
    hide LayoutOk, CountersZero, ListsOk, NothingLost, TablesOk, SlotOf, LargeOf;
    AlignedNotInChunk(T(s), p);
    assert p in s.live ==> BlockOf(T(s), s.huge, p, s.live[p]);
  }

  /** zend_mm_chunk_alloc for a huge block, retried after a collection that returned something. */
  method MapRegion(h0: Heap, n: nat) returns (ok: bool, h: Heap, p: Address, ruined: bool, ghost refused: bool)
    requires Sound(h0) && n > 0
    ensures ruined <==> !Anchored(h0.core) && refused
    ensures ruined ==> Ruined(h)
    ensures !ruined && ok ==> RegionMapped(h0, h, p, n)
    ensures !ruined && !ok ==> Steady(h0, h) && refused && NothingDead(h)
    ensures !ruined ==> h.core.realSize <= h0.core.realSize && h.stats == h0.stats
    ensures !ruined ==> h.counters.peakChunks == h0.counters.peakChunks
  {
    hide CoreOk, LayoutOk, Anchored, GcDone, UsedPages, DeadPages, TablesOf;
    hide Sound, Steady, Fresh, RegionMapped, MainGone, Tidy;
    h, ruined, refused := h0, false, false;
    SteadyRefl(h0);
    var s;
    s, p := ChunkAlloc(h.core, n);
    refused := p == 0;
    if p == 0 {
      var bytes;
      h, bytes, ruined := Gc(h);
      if ruined {
        return false, h, 0, true, true;
      }
      GcSteady(h0, h0, h);
      GcShrinks(h0, h);
      SweptAgain(h0, h0, h);
      if bytes > 0 {
        s, p := ChunkAlloc(h.core, n);
      }
      if p == 0 {
        return false, h, 0, false, true;
      }
    }
    ok := true;
    MappedSteady(h0, h, p, n);
    h := h.(core := s.(leaked := s.leaked[p := n]));
  }

  /** The state after the node has been filled in and the counters updated. */
  function WithHuge(h: Heap, node: Address, p: Address): Heap
    requires p in h.core.leaked
  {
    var n := h.core.leaked[p];
    Heap(OwnedHuge(h.core, p), h.counters,
         Charge(h.stats, n).(realPeak := Max(h.stats.realPeak, h.core.realSize + n)),
         Push(h.hugeList, HugeBlock(node, p, n)))
  }

  lemma HugeSound(h1: Heap, h2: Heap, node: Address, p: Address, n: nat)
    requires Sound(h1) && Got(h1, h2, node, NODE_SIZE) && p in h1.core.leaked && h1.core.leaked[p] == n && Offset(p) == 0
    requires h1.core.realSize + n <= h1.stats.limit || h1.stats.overflow
    requires h2.core.realSize <= h1.core.realSize + 0x20_0000
    ensures p in h2.core.leaked && Sound(WithHuge(h2, node, p))
  {
    hide LayoutOk, BlocksOk, CountersZero;
    CoreOwn(h2.core, p);
    CoreIsTidy(OwnedHuge(h2.core, p));
  }

  lemma HugeAccounts(h0: Heap, h1: Heap, h2: Heap, node: Address, p: Address, n: nat)
    requires Valid(h0) && RegionMapped(h0, h1, p, n) && Got(h1, h2, node, NODE_SIZE)
    ensures p in h2.core.leaked
    ensures var h := WithHuge(h2, node, p); Accounts(h) && HugeOk(h.hugeList, h.core.huge, h.core.live)
  {
    hide LayoutOk, CoreOk, EntriesDiffer, ListExact, NodesLive, Sum, Push;
    SumAdd(h0.core.live, node, NODE_SIZE);
    SumAdd(h0.core.live[node := NODE_SIZE], p, n);
    HugePush(h0.hugeList, h0.core.huge, h0.core.live, HugeBlock(node, p, n));
  }

  lemma HugeUsers(h0: Heap, h1: Heap, h2: Heap, node: Address, p: Address, n: nat)
    requires Valid(h0) && RegionMapped(h0, h1, p, n) && Got(h1, h2, node, NODE_SIZE)
    ensures p in h2.core.leaked
    ensures Users(WithHuge(h2, node, p)) == Users(h0)[p := n]
  {
    hide LayoutOk, CoreOk, EntriesDiffer, ListExact, Sum, Push, Accounts;
    NodesAreLive(h0.hugeList, h0.core.live);
    forall q ensures IsNode(Push(h0.hugeList, HugeBlock(node, p, n)), q) <==> q == node || IsNode(h0.hugeList, q) {
      PushNode(h0.hugeList, HugeBlock(node, p, n), q);
    }
    hide IsNode;
  }

  lemma PushNode(list: seq<HugeBlock>, x: HugeBlock, q: Address)
    ensures IsNode(Push(list, x), q) <==> q == x.node || IsNode(list, q)
  {
    var r := Push(list, x);
    if IsNode(list, q) {
      var i :| 0 <= i < |list| && list[i].node == q;
      assert r[i + 1].node == q;
    }
    if q == x.node {
      assert r[0].node == q;
    }
  }

  lemma HugeGranted(h0: Heap, h1: Heap, h2: Heap, node: Address, p: Address, n: nat)
    requires Valid(h0) && RegionMapped(h0, h1, p, n) && Got(h1, h2, node, NODE_SIZE)
    requires h1.core.realSize + n <= h1.stats.limit || h1.stats.overflow
    requires h2.core.realSize <= h1.core.realSize + 0x20_0000
    ensures p in h2.core.leaked && Granted(h0, WithHuge(h2, node, p), p, n)
  {
    hide LayoutOk, CoreOk, Accounts, HugeOk, Push, Users;
    HugeAccounts(h0, h1, h2, node, p, n);
    HugeUsers(h0, h1, h2, node, p, n);
    HugeSound(h1, h2, node, p, n);
  }

  /** The node could not be had: the region stays mapped, and belongs to nobody. */
  lemma HugeRefused(h0: Heap, h1: Heap, h: Heap, p: Address, size: nat)
    requires Valid(h0) && RegionMapped(h0, h1, p, PagesFor(size) * 0x1000) && size > MAX_LARGE
    requires Steady(h1.(stats := Charge(h1.stats, NODE_SIZE).(lost := h1.stats.lost + NODE_SIZE)), h)
    ensures Refused(h0, h, size) && h.stats.limit == h1.stats.limit && h.stats.overflow == h1.stats.overflow
  {
    hide LayoutOk, CoreOk, HugeOk, Sum, PagesFor;
  }

  /** zend_mm_alloc_huge */
  method AllocHuge(h0: Heap, size: nat)
      returns (ok: bool, h: Heap, ptr: Address, ruined: bool, ghost refused: bool)
    requires Valid(h0) && size > MAX_LARGE
    ensures ruined <==> !Anchored(h0.core) && (h0.core.realSize + PagesFor(size) * 0x1000 > h0.stats.limit || refused)
    ensures ruined ==> Ruined(h)
    ensures !ruined && ok ==> Granted(h0, h, ptr, PagesFor(size) * 0x1000) && Offset(ptr) == 0
    ensures !ruined && !ok ==> Refused(h0, h, size) && NoneLeft(h, size, refused)
    ensures !ruined && !ok && !refused ==> h.core.leaked == h0.core.leaked
    ensures !ruined && !ok ==> h0.core.realSize + PagesFor(size) * 0x1000 > h0.stats.limit || refused
    ensures !ruined && ok ==> MainAfter(h0, h, size, refused)
  {
    hide TakesMain, NewInMain, NoNewRuns, DeadGone, RunsStay, FromMain;
    hide LayoutOk, CoreOk, Sound, Steady, Anchored, Got, RegionMapped, Granted;
    hide Refused, Valid, BinSize, LeastBin, PagesFor, Ruined;
    hide NoSlotLeft, Collects;
    var n := PagesFor(size) * 0x1000;
    ValidSound(h0);
    refused := false;
    ok, h, ruined := MakeRoom(h0, n);
    if ruined {
      return false, h, 0, true, false;
    }
    ghost var roomy := h;
    AnchoredKept(h0, h);
    if !ok {
      SteadyIsRefused(h0, h, size);
      return false, h, 0, false, false;
    }
    ok, h, ptr, ruined, refused := MapRegion(h, n);
    if ruined {
      return false, h, 0, true, refused;
    }
    if !ok {
      SteadyTrans(h0, roomy, h);
      SteadyIsRefused(h0, h, size);
      return false, h, 0, false, true;
    }
    ghost var mapped := h;
    MappedFrom(h0, roomy, mapped, ptr, n);
    var bin := SmallSizeToBin(NODE_SIZE);
    NodeBin(bin);
    var node;
    ghost var nodeRefused;
    ok, h, node, ruined, nodeRefused := AllocSmall(h, bin);
    NodeCollects(h0, mapped, size, nodeRefused);
    RefusalCollects(mapped, bin, nodeRefused);
    refused := refused || nodeRefused;
    if ruined {
      return false, h, 0, true, refused;
    }
    if !ok {
      HugeRefused(h0, mapped, h, ptr, size);
      NodeRefused(mapped, h, size, nodeRefused);
      return false, h, 0, false, true;
    }
    HugeGranted(h0, mapped, h, node, ptr, n);
    NodeInMain(h0, mapped, h, node, ptr, n, size, refused);
    h := WithHuge(h, node, ptr);
  }

  /** A region is no smaller than a chunk: where the limit has room for it, only the system can force a collection for the node. */
  lemma NodeCollects(h0: Heap, h: Heap, size: nat, refused: bool)
    requires size > MAX_LARGE && h.core.realSize <= h0.core.realSize && h.stats.limit == h0.stats.limit
    ensures Collects(h, refused) ==> h0.core.realSize + PagesFor(size) * 0x1000 > h0.stats.limit || refused
  {
  }

  lemma RefusalCollects(h: Heap, b: nat, refused: bool)
    requires b < BINS && |h.core.free| == BINS && (refused ==> NoSlotLeft(h, b))
    ensures refused ==> Collects(h, refused)
  {
  }

  /** Where the limit has room for the region it has room for a chunk: only the system can refuse the node. */
  lemma NodeRefused(h1: Heap, h: Heap, size: nat, refused: bool)
    requires size > MAX_LARGE && GaveUp(h, refused) && h.core.realSize <= h1.core.realSize
    requires h.stats.limit == h1.stats.limit && h.stats.overflow == h1.stats.overflow
    requires h1.core.realSize + PagesFor(size) * 0x1000 <= h1.stats.limit || h1.stats.overflow
    ensures refused && NothingDead(h)
  {
    hide NothingDead;
  }

  /** A node that the main chunk had to hold, it holds; a collection before only makes room. */
  lemma NodeInMain(h0: Heap, h1: Heap, h2: Heap, node: Address, p: Address, n: nat, size: nat,
                   refused: bool)
    requires Valid(h0) && RegionMapped(h0, h1, p, n) && Got(h1, h2, node, NODE_SIZE) && size > MAX_LARGE
    requires |h1.core.free| == BINS && (Base(node) == h1.core.main <==> FromMain(h1, NODE_BIN))
    ensures p in h2.core.leaked && MainAfter(h0, WithHuge(h2, node, p), size, refused)
  {
    hide LayoutOk, CoreOk, NoRoom, NoNewRuns, RunsStay, DeadGone, BinPages, Accounts, HugeOk, Push;
    BinFacts(NODE_BIN);
    MoreRoom(h0.core, h1.core, BinPages(NODE_BIN));
    if TakesMain(h0, size) {
      assert node in WithHuge(h2, node, p).core.live;
    }
  }

  lemma MappedFrom(h0: Heap, h1: Heap, h: Heap, p: Address, n: nat)
    requires Steady(h0, h1) && h1.stats == h0.stats && h1.core.realSize <= h0.core.realSize && RegionMapped(h1, h, p, n)
    requires h1.counters.peakChunks == h0.counters.peakChunks
    ensures RegionMapped(h0, h, p, n) && Sound(h) && Offset(p) == 0 && (Anchored(h.core) <==> Anchored(h0.core))
  {
    hide LayoutOk, CoreOk;
    forall q ensures Anchor(h.core, q) <==> Anchor(h0.core, q) {
    }
  }

  /** Nodes are blocks of bin 2. */
  lemma NodeBin(b: nat)
    requires LeastBin(NODE_SIZE, b)
    ensures b == NODE_BIN && BinSize(b) == NODE_SIZE
  {
    LeastBinUnique(NODE_SIZE, b, NODE_BIN);
  }

  /** The list entry is gone, its node is free again, the region is unmapped. */
  function WithoutHuge(h: Heap, k: nat): Heap
    requires k < |h.hugeList| && h.hugeList[k].ptr in h.core.huge
  {
    Heap(DisownedHuge(h.core, h.hugeList[k].ptr), h.counters, Credit(h.stats, h.hugeList[k].size), Cut(h.hugeList, k))
  }

  lemma DisownSound(h: Heap, k: nat)
    requires Sound(h) && k < |h.hugeList| && h.hugeList[k].ptr in h.core.huge
    ensures Sound(WithoutHuge(h, k)) && WithoutHuge(h, k).core.realSize <= h.core.realSize
  {
    hide LayoutOk, BlocksOk, CountersZero, Cut;
    CoreDisown(h.core, h.hugeList[k].ptr);
    CoreIsTidy(DisownedHuge(h.core, h.hugeList[k].ptr));
  }

  lemma DisownAccounts(h0: Heap, h: Heap, k: nat)
    requires Valid(h0) && k < |h0.hugeList| && Gave(h0, h, h0.hugeList[k].node)
    requires h0.hugeList[k].ptr in h0.core.live && Offset(h0.hugeList[k].ptr) == 0
    requires h0.core.live[h0.hugeList[k].ptr] == h0.hugeList[k].size
    ensures h.hugeList[k].ptr in h.core.huge && Accounts(WithoutHuge(h, k))
    ensures HugeOk(WithoutHuge(h, k).hugeList, WithoutHuge(h, k).core.huge, WithoutHuge(h, k).core.live)
  {
    hide LayoutOk, CoreOk, Sum, Cut, Listed, EntriesDiffer;
    var x := h0.hugeList[k];
    SumWithout(h0.core.live, x.node);
    SumWithout(h0.core.live - {x.node}, x.ptr);
    HugeCut(h0.hugeList, h0.core.huge, h0.core.live, k);
  }

  lemma CutNode(list: seq<HugeBlock>, k: nat, q: Address)
    requires k < |list| && EntriesDiffer(list)
    ensures IsNode(Cut(list, k), q) <==> q != list[k].node && IsNode(list, q)
  {
    var r := Cut(list, k);
    if q != list[k].node && IsNode(list, q) {
      var i :| 0 <= i < |list| && list[i].node == q;
      assert r[if i < k then i else i - 1].node == q;
    }
  }

  lemma DisownUsers(h0: Heap, h: Heap, k: nat)
    requires Valid(h0) && k < |h0.hugeList| && Gave(h0, h, h0.hugeList[k].node)
    requires h0.hugeList[k].ptr in h0.core.huge
    ensures Users(WithoutHuge(h, k)) == Users(h0) - {h0.hugeList[k].ptr}
  {
    hide LayoutOk, CoreOk, ListExact, Sum, Cut, Accounts, NodesLive, EntriesDiffer;
    forall q ensures IsNode(Cut(h0.hugeList, k), q) <==> q != h0.hugeList[k].node && IsNode(h0.hugeList, q) {
      CutNode(h0.hugeList, k, q);
    }
    assert IsNode(h0.hugeList, h0.hugeList[k].node);
    hide IsNode;
  }

  lemma HugeFreed(h0: Heap, h: Heap, k: nat)
    requires Valid(h0) && k < |h0.hugeList| && Gave(h0, h, h0.hugeList[k].node)
    requires h0.hugeList[k].ptr in h0.core.huge && h0.hugeList[k].ptr in Users(h0)
    requires h0.core.live[h0.hugeList[k].ptr] == h0.hugeList[k].size && Offset(h0.hugeList[k].ptr) == 0
    ensures h.hugeList[k].ptr in h.core.huge && Freed(h0, WithoutHuge(h, k), h0.hugeList[k].ptr)
  {
    hide LayoutOk, CoreOk, Accounts, HugeOk, Cut, IsNode;
    UserIsLive(h0, h0.hugeList[k].ptr);
    NodesCost(h0, k);
    DisownUsers(h0, h, k);
    DisownAccounts(h0, h, k);
    DisownSound(h, k);
    hide Users;
  }

  lemma NodesCost(h: Heap, k: nat)
    requires Valid(h) && k < |h.hugeList|
    ensures h.hugeList[k].node in h.core.live && h.core.live[h.hugeList[k].node] == NODE_SIZE
  {
    hide Sound, Accounts, EntriesDiffer, ListExact;
  }

  /** What a huge block of the program is, in the ledgers and in the list. */
  lemma HugeUser(h: Heap, p: Address)
    requires Valid(h) && p in Users(h) && Offset(p) == 0
    ensures p in h.core.huge && h.core.live[p] == h.core.huge[p] && p in h.core.live
  {
    hide LayoutOk, ListsOk, NothingLost, CountersZero, TablesOk, Accounts, HugeOk, SlotOf, LargeOf;
    LayoutTables(h.core);
    AlignedNotInChunk(T(h.core), p);
    assert BlockOf(T(h.core), h.core.huge, p, h.core.live[p]);
  }

  /** A node of the list is a small block: freeing it empties no chunk. */
  lemma NodeIsSmall(s: State, p: Address)
    requires CoreOk(s) && p in s.live && s.live[p] == NODE_SIZE && Offset(p) != 0
    ensures !EmptiesMain(s, p)
  {
    hide CoreOk, LayoutOk, IsSrun, SrunBin, LrunPages, BinSize, SlotOf, LargeOf;
    Decode(s, p);
  }

  /** zend_mm_free_huge */
  method FreeHuge(h0: Heap, p: Address) returns (h: Heap)
    requires Valid(h0) && p in Users(h0) && Offset(p) == 0
    ensures Freed(h0, h, p)
  {
    hide LayoutOk, CoreOk, Sound, Users, IsNode, EmptiesMain, Gave;
    hide Freed, Accounts, EntriesDiffer, ListExact, NodesLive;
    HugeUser(h0, p);
    ValidSound(h0);
    var k := FindHuge(h0.hugeList, p);
    HugeListed(h0.hugeList, h0.core.huge, h0.core.live, p, k);
    NodeIsSmall(h0.core, h0.hugeList[k].node);
    h := FreeInChunk(h0, h0.hugeList[k].node);
    GaveList(h0, h, h0.hugeList[k].node);
    HugeFreed(h0, h, k);
    h := WithoutHuge(h, k);
  }

  lemma GaveList(h0: Heap, h: Heap, p: Address)
    requires Gave(h0, h, p)
    ensures h.hugeList == h0.hugeList
  {
    hide Sound;
  }

  // ---- the entry points ---------------------------------------------------------------------------------

  /** zend_mm_alloc_heap */
  method Alloc(h0: Heap, size: nat)
      returns (ok: bool, h: Heap, ptr: Address, ruined: bool, ghost refused: bool)
    requires Valid(h0)
    ensures ruined <==> !Anchored(h0.core) && MustCollect(h0, size, refused)
    ensures ruined ==> Ruined(h)
    ensures !ruined && ok ==> exists n: nat :: RoundsTo(size, n) && Granted(h0, h, ptr, n)
    ensures !ruined && ok ==> (Offset(ptr) == 0 <==> size > MAX_LARGE)
    ensures !ruined && !ok ==> Refused(h0, h, size) && MustCollect(h0, size, refused) && NoneLeft(h, size, refused)
    ensures !ruined && !ok && !refused ==> h.core.leaked == h0.core.leaked
    ensures !ruined && size <= MAX_LARGE ==> WithinLimit(h0, h)
    ensures size <= MAX_LARGE && TakesMain(h0, size) ==> ok && !ruined
    ensures !ruined && ok ==> MainAfter(h0, h, size, refused)
  {
    hide TakesMain, NewInMain, NoNewRuns, DeadGone, RunsStay, FromMain, NoRoom, MainShare, BinPages, Collects;
    hide LayoutOk, CoreOk, Sound, Anchored, Valid, Got, Granted, Refused, Steady, BinSize, LeastBin, PagesFor;
    hide MayCollect, MustCollect, Ruined, NoSlotLeft, NoChunkHasRoom, NoneBefore, WithinLimit;
    ValidSound(h0);
    SoundFree(h0);
    if size <= MAX_SMALL {
      var bin := SmallSizeToBin(size);
      ok, h, ptr, ruined, refused := AllocSmall(h0, bin);
      SmallCollects(h0, size, bin, refused);
      if !ruined && ok {
        GotIsGranted(h0, h, ptr, BinSize(bin));
        SmallRounds(size, bin);
        GotInMain(h0, h, ptr, BinSize(bin));
      } else if !ruined {
        LostIsRefused(h0, h, size, bin);
      }
    } else if size <= MAX_LARGE {
      ok, h, ptr, ruined, refused := AllocLarge(h0, size);
      LargeCollects(h0, size, refused);
      if !ruined && ok {
        GotIsGranted(h0, h, ptr, PagesFor(size) * 0x1000);
        PageRounds(size);
        GotInMain(h0, h, ptr, PagesFor(size) * 0x1000);
        LargeShare(h0, h, ptr, size, refused);
      } else if !ruined {
        SteadyIsRefused(h0, h, size);
      }
    } else {
      ok, h, ptr, ruined, refused := AllocHuge(h0, size);
      LargeCollects(h0, size, refused);
      PageRounds(size);
    }
  }

  lemma GotInMain(h0: Heap, h: Heap, p: Address, n: nat)
    requires Got(h0, h, p, n)
    ensures if Base(p) == h0.core.main then NewInMain(h0, h) else NoNewRuns(h0.core, h.core)
  {
    hide Sound, NoNewRuns;
    assert p in h.core.live;
  }

  lemma LargeShare(h0: Heap, h: Heap, p: Address, size: nat, refused: bool)
    requires MAX_SMALL < size <= MAX_LARGE && |h0.core.free| == BINS 
    requires MainShare(h0, h, Base(p), PagesFor(size), refused)
    requires if Base(p) == h0.core.main then NewInMain(h0, h) else NoNewRuns(h0.core, h.core)
    ensures MainAfter(h0, h, size, refused)
  {
    hide NoRoom, NewInMain, NoNewRuns, RunsStay, DeadGone, NoChunkHasRoom, Collects, PagesFor;
  }

  lemma SmallCollects(h: Heap, size: nat, b: nat, refused: bool)
    requires size <= MAX_SMALL && LeastBin(size, b) && |h.core.free| == BINS
    ensures b < BINS && (MayCollect(h, size) <==> NoSlotLeft(h, b))
    ensures MustCollect(h, size, refused) <==> NoSlotLeft(h, b) && Collects(h, refused)
    ensures TakesMain(h, size) <==> FromMain(h, b)
  {
    LeastInTable(size, b);
    hide LeastBin, NoSlotLeft, Collects, FromMain;
    forall c: nat | LeastBin(size, c) ensures c == b {
      LeastBinUnique(size, b, c);
    }
  }

  lemma LeastInTable(size: nat, b: nat)
    requires LeastBin(size, b)
    ensures b < BINS
  {
  }

  lemma LargeCollects(h: Heap, size: nat, refused: bool)
    requires size > MAX_SMALL
    ensures size <= MAX_LARGE ==>
              (MustCollect(h, size, refused) <==> NoChunkHasRoom(h, PagesFor(size)) && Collects(h, refused))
    ensures size <= MAX_LARGE && TakesMain(h, size) ==> !NoRoom(h.core, h.core.main, PagesFor(size))
    ensures size > MAX_LARGE ==>
              (MustCollect(h, size, refused) <==> h.core.realSize + PagesFor(size) * 0x1000 > h.stats.limit || refused)
  {
    hide NoChunkHasRoom, Collects, PagesFor, NoRoom;
  }

  lemma SmallRounds(size: nat, b: nat)
    requires size <= MAX_SMALL && LeastBin(size, b)
    ensures RoundsTo(size, BinSize(b))
  {
  }

  lemma PageRounds(size: nat)
    requires size > MAX_SMALL
    ensures RoundsTo(size, PagesFor(size) * 0x1000)
  {
  }

  /** zend_mm_free_heap: right for every block of the program unless it empties the main chunk. */
  method Free(h0: Heap, p: Address) returns (h: Heap)
    requires Valid(h0) && (p == 0 || p in Users(h0))
    ensures if p == 0 then h == h0
            else if EmptiesMain(h0.core, p) then Ruined(h)
            else Freed(h0, h, p)
  {
    hide LayoutOk, CoreOk, Sound, Users, EmptiesMain, Gave, Freed, Valid, Ruined;
    if Offset(p) == 0 {
      h := h0;
      if p != 0 {
        h := FreeHuge(h0, p);
        NotEmptying(h0.core, p);
      }
    } else {
      ValidSound(h0);
      UserIsLive(h0, p);
      h := FreeInChunk(h0, p);
      if !EmptiesMain(h0.core, p) {
        GaveIsFreed(h0, h, p);
      }
    }
  }

  lemma NotEmptying(s: State, p: Address)
    requires Offset(p) == 0
    ensures !EmptiesMain(s, p)
  {
  }

  lemma UserIsLive(h: Heap, p: Address)
    ensures p in Users(h) <==> p in h.core.live && !IsNode(h.hugeList, p)
    ensures p in Users(h) ==> Users(h)[p] == h.core.live[p]
  {
  }

  /** zend_mm_size: alignment and the page map suffice to find the size chosen for a block. */
  method Size(h: Heap, p: Address) returns (n: nat)
    requires Valid(h) && p in Users(h)
    ensures n == Users(h)[p]
  {
    hide LayoutOk, CoreOk, Sound, Users, Accounts, EntriesDiffer, ListExact, NodesLive, SlotOf, LargeOf, BinSize;
    UserIsLive(h, p);
    ValidSound(h);
    if Offset(p) == 0 {
      HugeUser(h, p);
      var k := FindHuge(h.hugeList, p);
      HugeListed(h.hugeList, h.core.huge, h.core.live, p, k);
      n := h.hugeList[k].size;
    } else {
      Decode(h.core, p);
      var info := h.core.chunks[Base(p)].info[PageNum(p)];
      n := if IsSrun(info) then BinSize(SrunBin(info)) else LrunPages(info) * PAGE;
    }
  }
}
