// Heaps at which the code does not do what it is for: each meets everything that Valid asks.
module HeapExamples {
  import opened Sizes
  import opened PageInfo
  import opened Addresses
  import opened ChunkPages
  import opened Blocks
  import opened BlockSteps
  import opened GcCount
  import opened Regions
  import opened HeapInv
  import opened HeapChunks
  import opened GcRing
  import opened HeapPages
  import opened HeapBlocks
  import opened HeapSlots
  import opened HeapHuge
  import opened HeapRequests
  import opened HeapSafety
  import opened HeapRealloc
  import opened HeapLife
  import BestFit
  import PageBitset
  import Words

  /** A heap of one chunk, without huge blocks, whose blocks are charged, and nothing else, under a limit of two chunks. */
  ghost function HeapOf(s: State, cached: nat, avg: real, peakChunks: nat): Heap {
    Heap(s, Counters(1, peakChunks, cached, avg, 0, 0),
         Stats(Sum(s.live), Sum(s.live), s.realSize, 2 * CHUNK, false, 0), [])
  }

  lemma HeapOfValid(s: State, cached: nat, avg: real, peakChunks: nat)
    requires CoreOk(s) && s.huge == map[] && |s.ring| == 1 <= peakChunks && |s.cached| == cached && s.realSize <= 2 * CHUNK
    ensures Valid(HeapOf(s, cached, avg, peakChunks))
    ensures Users(HeapOf(s, cached, avg, peakChunks)) == s.live
  {
    hide LayoutOk, BlocksOk, CountersZero, Sum;
    CoreIsTidy(s);
    OnlyMain(s);
  }

  lemma OnlyMain(s: State)
    requires CoreOk(s) && |s.ring| == 1
    ensures BusyBut(s, s.main)
  {
    hide BlocksOk, CountersZero, HasRun;
    RingStarts(s);
  }

  /** One chunk without blocks, as zend_mm_init leaves it. */
  function NewState(L: nat, words: nat, a: Address): State
    requires words > 0
  {
    Single(L, words, a, map[a := CHUNK], map[])
  }

  lemma NewStateOk(L: nat, words: nat, a: Address)
    requires Words.WordLength(L) && words * L == PAGES && Fresh(map[], a, CHUNK)
    ensures words > 0 && L > 0 && CoreOk(NewState(L, words, a)) && !Anchored(NewState(L, words, a))
  {
    hide CoreOk, Anchored;
    FirstRegion(a);
    SingleOk(L, words, a, map[a := CHUNK], map[]);
    HeaderZeroed(words, L);
  }

  /**
   * A collection of a new heap loses the main chunk, by the contract of GcRing.Gc, and so does any
   * request too large for the limit, by that of HeapRequests.Alloc.
   */
  lemma NewHeap(L: nat, words: nat, a: Address, size: nat)
    requires Words.WordLength(L) && words * L == PAGES && Fresh(map[], a, CHUNK) && size > CHUNK
    ensures words > 0
    ensures var h := HeapOf(NewState(L, words, a), 0, 1.0, 1);
            Valid(h) && Users(h) == map[] && !Anchored(h.core) && MustCollect(h, size, false)
  {
    hide CoreOk, Anchored, Valid, Users, Sum;
    NewStateOk(L, words, a);
    HeapOfValid(NewState(L, words, a), 0, 1.0, 1);
  }

  // ---- one large block, alone in the main chunk -----------------------------------------------------------

  /** The first n pages behind the header are a block. */
  function OneBlock(L: nat, words: nat, a: Address, n: nat): State
    requires words > 0 && L > 0 && 0 < n
  {
    var s := NewState(L, words, a);
    WithChunk(s, a, TakeRun(s.chunks[a], 1, n, L), Fill(s.own[a], 1, n, 1)).(live := s.live[PageAddress(a, 1) := n * 0x1000])
  }

  lemma OneBlockOk(L: nat, words: nat, a: Address, n: nat)
    requires Words.WordLength(L) && words * L == PAGES && Fresh(map[], a, CHUNK) && 0 < n < PAGES
    ensures words > 0 && L > 0 && CoreOk(OneBlock(L, words, a, n))
    ensures LargeOf(T(OneBlock(L, words, a, n)), PageAddress(a, 1), n) && Offset(a) == 0
    ensures Base(PageAddress(a, 1)) == a && PageNum(PageAddress(a, 1)) == 1 && Offset(PageAddress(a, 1)) != 0
  {
    hide CoreOk, Anchored, LargeOf, TakeRun, Fill;
    NewStateOk(L, words, a);
    CoreTake(NewState(L, words, a), a, 1, n);
    LocatePage(a, 1);
  }

  /**
   * Giving back the only block of the main chunk, if it is a large one, empties the chunk: by the
   * contract of HeapRequests.Free the heap is lost.  Until then a collection would have been safe.
   */
  lemma OnlyLargeBlock(L: nat, words: nat, a: Address, n: nat)
    requires Words.WordLength(L) && words * L == PAGES && Fresh(map[], a, CHUNK) && 0 < n < PAGES
    ensures words > 0 && L > 0
    ensures var h, p := HeapOf(OneBlock(L, words, a, n), 0, 1.0, 1), PageAddress(a, 1);
            && Valid(h) && Users(h) == map[p := n * 0x1000]
            && EmptiesMain(h.core, p) && Anchored(h.core) && !AnchoredWithout(h.core, p)
  {
    hide CoreOk, LargeOf, Fill;
    OneBlockOk(L, words, a, n);
    var s, p := OneBlock(L, words, a, n), PageAddress(a, 1);
    HeapOfValid(s, 0, 1.0, 1);
    LargeEntryHere(s, a, n);
    assert Anchor(s, p);
  }

  /**
   * A block of 511 pages fills the main chunk.  Resizing it to a small one takes a slot of another
   * chunk, and giving the old block back then deletes the main chunk, unless the request is denied;
   * whatever the system refuses.
   */
  lemma FullMainChunk(L: nat, words: nat, a: Address, size: nat, refused: bool, stuck: bool)
    requires Words.WordLength(L) && words * L == PAGES && Fresh(map[], a, CHUNK) && size <= MAX_SMALL
    ensures words > 0 && L > 0
    ensures var h, p := HeapOf(OneBlock(L, words, a, PAGES - 1), 0, 1.0, 1), PageAddress(a, 1);
            Valid(h) && p in Users(h) && InMain(h.core, p) && MustLose(h, p, size, refused, stuck)
  {
    hide CoreOk, LargeOf, Fill, Valid, EmptiesMain, AnchoredWithout, Anchored;
    hide MustCollect, NoRoom, FreeRun, LeastBin, TakeRun, Sum;
    OnlyLargeBlock(L, words, a, PAGES - 1);
    OneBlockOk(L, words, a, PAGES - 1);
    var h, p := HeapOf(OneBlock(L, words, a, PAGES - 1), 0, 1.0, 1), PageAddress(a, 1);
    LargeEntryHere(h.core, a, PAGES - 1);
    forall b: nat | b < BINS ensures NoRoom(h.core, a, BinPages(b)) {
      BinFacts(b);
      FullHasNoRoom(h.core, a, BinPages(b));
    }
    forall b: nat | LeastBin(size, b) ensures b < BINS {
      LeastInTable(size, b);
    }
  }

  lemma FullHasNoRoom(s: State, a: Address, n: nat)
    requires CoreOk(s) && a in s.ring && LargeOf(T(s), PageAddress(a, 1), PAGES - 1) && n > 0
    ensures NoRoom(s, a, n)
  {
    hide LayoutOk, BlocksOk, CountersZero, Partition, HeadsBefore, FreeCount, NoCounters, TableOk, LargeOf;
    ChunkOfRing(s, a);
    LargeHead(s, a, 1, PAGES - 1);
    forall x: nat, y: nat ensures !BestFit.FreeRun(s.chunks[a].freeMap, s.L, x, y) {
      assert 0 < x < PAGES ==> PageBitset.Used(s.chunks[a].freeMap, s.L, x);
    }
  }

  /** A region of n bytes has been mapped at q for a huge block, and its list node charged but not found. */
  function WithoutNode(h: Heap, q: Address, n: nat): Heap {
    h.(core := MappedHuge(h.core, q, n), stats := Charge(h.stats, NODE_SIZE).(lost := h.stats.lost + NODE_SIZE))
  }

  /**
   * With the main chunk full the list node of a huge block needs another chunk.  If the system maps
   * the huge region but not that chunk, the request is refused, although the limit allows it, and
   * the region stays mapped.
   */
  lemma NodeNotFound(L: nat, words: nat, a: Address, q: Address, size: nat)
    requires Words.WordLength(L) && words * L == PAGES && Fresh(map[], a, CHUNK) && Fresh(map[a := CHUNK], q, CHUNK)
    requires MAX_LARGE < size <= CHUNK
    ensures words > 0 && L > 0
    ensures var h0 := HeapOf(OneBlock(L, words, a, PAGES - 1), 0, 1.0, 1); var h := WithoutNode(h0, q, CHUNK);
            && Valid(h0) && |h0.core.free| == BINS && NoSlotLeft(h0, NODE_BIN) && !MustCollect(h0, size, false)
            && Valid(h) && Refused(h0, h, size) && q in h.core.leaked && h.core.leaked[q] == CHUNK
            && h.stats.lost == h0.stats.lost + NODE_SIZE && NoneLeft(h, size, true)
  {
    hide CoreOk, LargeOf, Fill, Valid, EmptiesMain, AnchoredWithout, Anchored, NoRoom, FreeRun, TakeRun, Sum, Steady;
    hide Users, Sound, RegionMapped, Fresh;
    OnlyLargeBlock(L, words, a, PAGES - 1);
    OneBlockOk(L, words, a, PAGES - 1);
    var h0 := HeapOf(OneBlock(L, words, a, PAGES - 1), 0, 1.0, 1);
    BinFacts(NODE_BIN);
    FullHasNoRoom(h0.core, a, BinPages(NODE_BIN));
    HugePages(size);
    NothingDeadHere(h0.core, a, PAGES - 1);
    ValidSound(h0);
    SteadyRefl(h0);
    MappedSteady(h0, h0, q, CHUNK);
    var h1 := h0.(core := MappedHuge(h0.core, q, CHUNK));
    Mapped(h0, h1, q);
    SoundStats(h1, WithoutNode(h0, q, CHUNK).stats);
    SteadyRefl(WithoutNode(h0, q, CHUNK));
    HugeRefused(h0, h1, WithoutNode(h0, q, CHUNK), q, size);
  }

  lemma NothingDeadHere(s: State, a: Address, n: nat)
    requires CoreOk(s) && s.ring == [a] && Offset(a) == 0 && LargeOf(T(s), PageAddress(a, 1), n) && n == PAGES - 1
    ensures DeadPages(T(s), s.free, s.ring) == 0
  {
    hide CoreOk, LayoutOk, LargeOf, IsSrun, SrunBin, LrunPages, DeadBelow, BinElements;
    CoreIsTidy(s);
    LayoutFacts(s);
    LargeEntryHere(s, a, n);
    LargeHead(s, a, 1, n);
    assert T(s)[a] == Table(s.own[a], s.chunks[a].info);
    NoDeadBelow(T(s), s.free, a, PAGES);
    assert s.ring[..0] == [];
  }

  lemma HugePages(size: nat)
    requires MAX_LARGE < size <= CHUNK
    ensures PagesFor(size) * 0x1000 == CHUNK
  {
  }

  lemma Mapped(h0: Heap, h: Heap, q: Address)
    requires RegionMapped(h0, h, q, CHUNK)
    ensures Sound(h)
  {
    hide Sound;
  }

  lemma LargeEntryHere(s: State, a: Address, n: nat)
    requires CoreOk(s) && a in s.chunks && a in s.own && LargeOf(T(s), PageAddress(a, 1), n) && Offset(a) == 0
    ensures |s.chunks[a].info| == PAGES && !IsSrun(s.chunks[a].info[1]) && LrunPages(s.chunks[a].info[1]) == n
  {
    hide CoreOk, LargeOf, IsSrun, LrunPages;
    CoreIsTidy(s);
    LayoutFacts(s);
    LargeHead(s, a, 1, n);
  }

  // ---- a run of bin 0 without a live slot -----------------------------------------------------------------

  /** The first run behind the header is carved into slots of bin 0, and the first slot is in use. */
  function OneSlot(L: nat, words: nat, a: Address): State
    requires words > 0 && L > 0
  {
    var s := OneBlock(L, words, a, BinPages(0));
    assert BinElements(0) == 512 && 0 < BINS;
    CarvedState(s, a, 1, 0)
  }

  /** It is free again. */
  function EmptyRun(L: nat, words: nat, a: Address): State
    requires words > 0 && L > 0
  {
    var s, p := OneSlot(L, words, a), PageAddress(a, 1);
    s.(free := s.free[0 := [p] + s.free[0]], live := s.live - {p})
  }

  lemma OneSlotOk(L: nat, words: nat, a: Address)
    requires Words.WordLength(L) && words * L == PAGES && Fresh(map[], a, CHUNK)
    ensures words > 0 && L > 0
    ensures CoreOk(OneSlot(L, words, a)) && SmallRunAt(T(OneSlot(L, words, a)), a, 1, 0)
  {
    hide CoreOk, CarveInfo, LargeOf, IsSrun, SrunBin, Fill;
    OneBlockOk(L, words, a, BinPages(0));
    var s := OneBlock(L, words, a, BinPages(0));
    CoreCarve(s, a, 1, 0);
    LargeEntryHere(s, a, BinPages(0));
    CarvedHead(s.chunks[a].info);
    var s1 := CarvedState(s, a, 1, 0);
    CoreIsTidy(s1);
    LayoutFacts(s1);
    TablesFine(s1);
    assert s.own[a][1] == 1;
  }

  lemma OneSlotShape(L: nat, words: nat, a: Address)
    requires words > 0 && L > 0
    ensures var s := OneSlot(L, words, a);
            && s.live == map[PageAddress(a, 1) := BinSize(0)] && s.huge == map[] && |s.free| == BINS
            && s.ring == [a] && s.cached == [] && s.main == a && s.realSize == CHUNK
  {
    hide CarveInfo, SlotsFrom, BinSize, BinPages, TakeRun, Fill;
  }

  lemma CarvedHead(info: seq<nat>)
    requires |info| == PAGES
    ensures IsSrun(CarveInfo(info, 1, 0)[1]) && SrunBin(CarveInfo(info, 1, 0)[1]) == 0
  {
    SrunFields(0, 0);
    hide IsSrun, SrunBin;
  }

  lemma EmptyRunOk(L: nat, words: nat, a: Address)
    requires Words.WordLength(L) && words * L == PAGES && Fresh(map[], a, CHUNK)
    ensures words > 0 && L > 0
    ensures var s := EmptyRun(L, words, a);
            && CoreOk(s) && SmallRunAt(T(s), a, 1, 0)
            && s.live == map[] && s.huge == map[] && s.ring == [a] && s.cached == [] && s.realSize == CHUNK && Anchored(s)
  {
    hide LayoutOk, BlocksOk, CountersZero, SmallRunAt, SlotOf, OneSlot, TablesOf, BinSize, Anchored;
    OneSlotOk(L, words, a);
    OneSlotShape(L, words, a);
    var s, p := OneSlot(L, words, a), PageAddress(a, 1);
    assert p == SlotAddress(a, 1, 0, 0);
    SlotIsSlot(T(s), a, 1, 0, 0);
    PushSlot(T(s), s.free, s.huge, s.live, p, 0);
    LayoutFree(s, s.free[0 := [p] + s.free[0]]);
    LayoutLive(s.(free := s.free[0 := [p] + s.free[0]]), s.live - {p});
    LocatePage(a, 1);
    FreeSlotAnchors(EmptyRun(L, words, a), p);
  }

  /**
   * No slot of the run is live, yet no collection gives it back; it is why a collection of this
   * heap, which holds no block at all, is safe.
   */
  lemma BinZeroSurvives(L: nat, words: nat, a: Address)
    requires Words.WordLength(L) && words * L == PAGES && Fresh(map[], a, CHUNK)
    ensures words > 0 && L > 0
    ensures var h0 := HeapOf(EmptyRun(L, words, a), 0, 1.0, 1);
            && Valid(h0) && Users(h0) == map[] && SmallRunAt(T(h0.core), a, 1, 0) && Anchored(h0.core)
            && forall h | GcDone(h0, h) :: SmallRunAt(T(h.core), a, 1, 0)
  {
    hide CoreOk, SmallRunAt, GcDone, Valid, Anchored, EmptyRun, Sum, Users, Sound;
    EmptyRunOk(L, words, a);
    var s := EmptyRun(L, words, a);
    HeapOfValid(s, 0, 1.0, 1);
    var h0 := HeapOf(s, 0, 1.0, 1);
    ValidSound(h0);
    forall h | GcDone(h0, h) ensures SmallRunAt(T(h.core), a, 1, 0) {
      EmptyRunStays(h0, h, a);
    }
  }

  lemma FreeSlotAnchors(s: State, p: Address)
    requires |s.free| > 0 && p in s.free[0] && Offset(p) != 0 && Base(p) == s.main
    ensures Anchored(s)
  {
    assert Anchor(s, p);
  }

  lemma EmptyRunStays(h0: Heap, h: Heap, a: Address)
    requires Sound(h0) && GcDone(h0, h) && SmallRunAt(T(h0.core), a, 1, 0)
    ensures a in T(h.core) && SmallRunAt(T(h.core), a, 1, 0)
  {
    hide CoreOk, LayoutOk, BlocksOk, CountersZero, TablesOf, IsSrun, SrunBin, Filtered, SlotIn;
    RunGoneExactly(h0, h, a, 1);
  }

  // ---- a chunk that stays cached between two requests ---------------------------------------------------

  /** A second chunk, just initialised behind the first. */
  function TwoChunks(L: nat, words: nat, a: Address, b: Address): State
    requires words > 0
  {
    var s := NewState(L, words, a);
    Linked(s.(mapped := s.mapped[b := CHUNK], realSize := s.realSize + 0x20_0000), b, NewHeader(words), s.cached)
  }

  /** It has been deleted again, and is kept in the cache. */
  function OneCached(L: nat, words: nat, a: Address, b: Address): State
    requires words > 0
  {
    Cached(TwoChunks(L, words, a, b), 1)
  }

  lemma TwoChunksOk(L: nat, words: nat, a: Address, b: Address)
    requires Words.WordLength(L) && words * L == PAGES && Fresh(map[], a, CHUNK) && Fresh(map[a := CHUNK], b, CHUNK)
    ensures words > 0
    ensures var s := TwoChunks(L, words, a, b);
            && CoreOk(s) && s.huge == map[] && s.live == map[] && s.ring == [a, b] && s.cached == [] && s.realSize == 2 * CHUNK
            && b in s.chunks && b in s.own && s.own[b] == NoOwners()
  {
    hide CoreOk, Anchored, NewHeader, Fresh;
    NewStateOk(L, words, a);
    var s := NewState(L, words, a);
    assert |s.chunks[s.main].freeMap| == words;
    NewChunk(s, b);
  }

  lemma OneCachedOk(L: nat, words: nat, a: Address, b: Address)
    requires Words.WordLength(L) && words * L == PAGES && Fresh(map[], a, CHUNK) && Fresh(map[a := CHUNK], b, CHUNK)
    ensures words > 0
    ensures var s := OneCached(L, words, a, b);
            && CoreOk(s) && s.huge == map[] && s.live == map[] && |s.ring| == 1 && s.cached == [b] && s.realSize == 2 * CHUNK
  {
    hide CoreOk, LayoutOk, TablesOf, Unused, SameChunks, TwoChunks, Fresh;
    TwoChunksOk(L, words, a, b);
    var s := TwoChunks(L, words, a, b);
    FreshUnused(s, b);
    LayoutDelete(s, 1);
    BlocksCached(s);
  }

  lemma FreshUnused(s: State, b: Address)
    requires CoreOk(s) && b in s.chunks && b in s.own && s.own[b] == NoOwners()
    ensures LayoutOk(s) && b in T(s) && Unused(T(s)[b])
  {
    hide LayoutOk, BlocksOk, CountersZero;
    LayoutFacts(s);
  }

  lemma BlocksCached(s: State)
    requires CoreOk(s) && 1 < |s.ring| && s.ring[1] in s.links.next && s.ring[1] in s.links.prev
    requires LayoutOk(Cached(s, 1)) && T(Cached(s, 1)) == T(s)
    ensures CoreOk(Cached(s, 1))
  {
    hide LayoutOk, BlocksOk, CountersZero, TablesOf;
  }

  /**
   * Two chunks were in use in each request, the second of which is cached now: HeapLife.Restart
   * keeps it, and its heap is not one that has just been made.
   */
  lemma CachedChunkStays(L: nat, words: nat, a: Address, b: Address)
    requires Words.WordLength(L) && words * L == PAGES && Fresh(map[], a, CHUNK) && Fresh(map[a := CHUNK], b, CHUNK)
    ensures words > 0
    ensures var h := HeapOf(OneCached(L, words, a, b), 1, 2.0, 2); Valid(h) && !NoneStays(h)
  {
    hide CoreOk, OneCached, Valid, Sum;
    OneCachedOk(L, words, a, b);
    HeapOfValid(OneCached(L, words, a, b), 1, 2.0, 2);
  }
}
