// Page runs: zend_mm_alloc_pages with its search around the ring, its new chunks and its retries
// after a collection.
module HeapPages {
  import opened Sizes
  import opened PageInfo
  import opened PageBitset
  import opened Addresses
  import opened Ring
  import opened ChunkPages
  import opened Blocks
  import opened BlockSteps
  import opened GcSpec
  import opened GcCount
  import opened Regions
  import opened HeapInv
  import opened HeapChunks
  import opened GcRing
  import BestFit
  import Words

  /** Free lists only get shorter, that of bin 0 not even that. */
  ghost predicate NoNewSlots(free0: Lists, free: Lists) {
    && |free| == |free0| > 0 && free[0] == free0[0]
    && forall b | 0 <= b < |free| && free0[b] == [] :: free[b] == []
  }

  /** The owners of the pages of the main chunk. */
  function MainOwn(s: State): Owners {
    if s.main in s.own then s.own[s.main] else []
  }

  /** What is in use of the main chunk was in use before, by the same runs. */
  ghost predicate NoNewRuns(s0: State, s: State) {
    forall i | 0 <= i < |MainOwn(s)| && MainOwn(s)[i] > 0 :: i < |MainOwn(s0)| && MainOwn(s0)[i] == MainOwn(s)[i]
  }

  /** No run of the main chunk has gone. */
  ghost predicate RunsStay(s0: State, s: State) {
    NoNewRuns(s, s0)
  }

  /** None that was dead is left in the main chunk. */
  ghost predicate DeadGone(s0: State, s: State) {
    forall i | 0 <= i < |MainOwn(s)| && MainOwn(s)[i] > 0 :: !Dead(T(s0), s0.free, s0.main, MainOwn(s)[i])
  }

  /** The main chunk is gone, and with it the invariant. */
  ghost predicate Ruined(h: Heap) {
    MainGone(h.core) && !Tidy(h)
  }

  /** The peak of real_size is the larger of what it was and what is mapped now. */
  ghost predicate RealPeakFollows(h0: Heap, h: Heap) {
    h.stats.realPeak == Max(h0.stats.realPeak, h.core.realSize)
  }

  /** Limits, huge blocks and what is live are untouched; only the peak of real_size may grow. */
  ghost predicate Kept(h0: Heap, h: Heap) {
    && NoNewSlots(h0.core.free, h.core.free)
    && h.stats == h0.stats.(realPeak := h.stats.realPeak) && RealPeakFollows(h0, h)
    && h.hugeList == h0.hugeList
    && h.core.L == h0.core.L && h.core.main == h0.core.main
    && h.core.huge == h0.core.huge && h.core.leaked == h0.core.leaked
    && ChunkPeakFollows(h0, h)
  }

  /** The average stays; the peak of the chunk count is the larger of what it was and the count now. */
  ghost predicate ChunkPeakFollows(h0: Heap, h: Heap) {
    && h.counters.avg == h0.counters.avg
    && h.counters.peakChunks == Max(h0.counters.peakChunks, h.counters.chunks)
  }

  /** real_size grows by at most a chunk, and not beyond the limit. */
  ghost predicate WithinLimit(h0: Heap, h: Heap) {
    && h.core.realSize <= h0.core.realSize + 0x20_0000
    && (!h0.stats.overflow ==> h.core.realSize <= Max(h0.core.realSize, h0.stats.limit))
  }

  /** zend_mm_chunk_alloc: an aligned fresh region, or 0. */
  method ChunkAlloc(s0: State, n: nat) returns (s: State, p: Address)
    requires n > 0
    ensures p == 0 ==> s == s0
    ensures p != 0 ==> Fresh(s0.mapped, p, n) && s == s0.(mapped := s0.mapped[p := n])
  {
    s := s0;
    p :| p == 0 || Fresh(s0.mapped, p, n);
    if p != 0 {
      s := s.(mapped := s.mapped[p := n]);
    }
  }

  // ---- the get_chunk part ------------------------------------------------------------------------------

  /** The zeroed header of a new chunk. */
  function NewHeader(words: nat): (c: Chunk)
    ensures |c.freeMap| == words && |c.info| == PAGES
  {
    Chunk(0, 0, 0, seq(words, _ => 0), seq(PAGES, _ => 0))
  }

  lemma NewIsZeroed(like: Chunk, own: Owners, L: nat)
    requires ChunkOk(like, own, L) && L > 0
    ensures Zeroed(NewHeader(|like.freeMap|), L)
  {
    hide Partition, Words.Bit, Words.Fits;
    var c := NewHeader(|like.freeMap|);
    Words.FitsZero(L);
    forall i | 0 < i < PAGES ensures !Used(c.freeMap, L, i) {
      Words.FitsBit(0, 0, BitOf(i, L));
    }
  }

  /** Linking in chunk a with header c, the cache becoming cached. */
  function Linked(s: State, a: Address, c: Chunk, cached: seq<Address>): State
    requires s.main in s.links.prev && s.links.prev[s.main] in s.chunks && |c.freeMap| > 0 && |c.info| > 0
  {
    var num := s.chunks[s.links.prev[s.main]].num + 1;
    s.(chunks := s.chunks[a := InitChunk(num, c.freeMap, c.info)], own := s.own[a := NoOwners()],
       links := LinkLast(s.links, s.main, a), ring := s.ring + [a], cached := cached)
  }

  ghost predicate FreshChunk(s: State, a: Address) {
    && s.ring != [] && s.ring[|s.ring| - 1] == a && a != s.main && a in s.chunks && a in s.own
    && s.own[a] == NoOwners() && s.chunks[a].freeTail == 1
  }

  lemma LastInRing(s: State)
    requires LayoutOk(s)
    ensures s.main in s.links.prev && s.links.prev[s.main] in s.ring && s.main in s.ring
    ensures s.links.prev[s.main] in s.chunks && s.main in s.chunks && s.main in s.own
    ensures ChunkOk(s.chunks[s.main], s.own[s.main], s.L) && s.L > 0
  {
    hide ChunkOk, Unused, RegionsExact, RealSizeOk, CacheUnused;
    assert Joined(s.links, s.ring[|s.ring| - 1], Nth(s.ring, |s.ring|));
    assert s.ring[|s.ring| - 1] in s.ring && s.ring[0] in s.ring;
  }

  /** Chunk a may be linked in: it is the first of the cache, or new to the heap. */
  ghost predicate Linkable(s: State, a: Address, c: Chunk, cached: seq<Address>) {
    && s.L > 0 && Zeroed(c, s.L) && a > 0 && Offset(a) == 0
    && ((a !in s.chunks && cached == s.cached) || (s.cached != [] && a == s.cached[0] && cached == s.cached[1..]))
    && (a in T(s) ==> Unused(T(s)[a]))
  }

  lemma LinkedSpace(s: State, a: Address, c: Chunk, cached: seq<Address>)
    requires LayoutOk(s) && Linkable(s, a, c, cached)
    ensures |c.freeMap| > 0 && |c.info| > 0 && s.main in s.links.prev && s.links.prev[s.main] in s.chunks
    ensures SpaceOf(Linked(s, a, c, cached))
  {
    hide ChunksOk, Unused, RegionsExact, RealSizeOk, RingOk, Zeroed, LinkLast, NoOwners, CacheUnused;
    hide SpaceOk, InitChunk, Places;
    LastInRing(s);
    var num := s.chunks[s.links.prev[s.main]].num + 1;
    SpaceInit(s.L, s.chunks, s.own, s.links, s.ring, s.main, s.cached, cached, a, num, c);
  }

  lemma LinkedFresh(s: State, a: Address, c: Chunk, cached: seq<Address>)
    requires LayoutOk(s) && Linkable(s, a, c, cached)
    requires |c.freeMap| > 0 && |c.info| > 0 && s.main in s.links.prev && s.links.prev[s.main] in s.chunks
    ensures FreshChunk(Linked(s, a, c, cached), a)
  {
    hide LayoutOk, Unused, Zeroed, LinkLast, NoOwners;
    NotMain(s, a, cached);
  }

  lemma NotMain(s: State, a: Address, cached: seq<Address>)
    requires LayoutOk(s) && (a !in s.chunks || (s.cached != [] && a == s.cached[0]))
    ensures a != s.main
  {
    hide ChunksOk, RegionsExact, RealSizeOk, CacheUnused;
    LastInRing(s);
  }

  lemma LinkedBlocks(s: State, a: Address, c: Chunk, cached: seq<Address>)
    requires CoreOk(s) && Linkable(s, a, c, cached)
    requires |c.freeMap| > 0 && |c.info| > 0 && s.main in s.links.prev && s.links.prev[s.main] in s.chunks
    ensures CountersZero(T(Linked(s, a, c, cached)))
    ensures BlocksOk(T(Linked(s, a, c, cached)), s.free, s.huge, s.live)
  {
    hide LayoutOk, BlocksOk, CountersZero, NoCounters, ChunkOk, Unused, TablesOf, InitChunk;
    var num := s.chunks[s.links.prev[s.main]].num + 1;
    var c' := InitChunk(num, c.freeMap, c.info);
    InitOk(num, c.freeMap, c.info, s.L);
    OwnersLength(c', NoOwners(), s.L);
    InitBlocks(s.L, s.chunks, s.own, a, c', s.free, s.huge, s.live);
    PutCounters(T(s), a, Table(NoOwners(), c'.info));
    TablesUpdate(s.chunks, s.own, a, c', NoOwners());
  }

  /** A chunk from the cache. */
  lemma ReuseChunk(s: State)
    requires CoreOk(s) && s.cached != []
    ensures var a := s.cached[0];
            && s.main in s.links.prev && s.links.prev[s.main] in s.chunks && a in s.chunks
            && |s.chunks[a].freeMap| > 0 && |s.chunks[a].info| > 0
            && CoreOk(Linked(s, a, s.chunks[a], s.cached[1..])) && FreshChunk(Linked(s, a, s.chunks[a], s.cached[1..]), a)
  {
    hide SpaceOf, Unused, RegionsExact, BlocksOk, CountersZero, Linkable, TablesOf, ChunkOk;
    var a := s.cached[0];
    CacheHead(s);
    CachedChunk(s, a);
    LinkedSpace(s, a, s.chunks[a], s.cached[1..]);
    LinkedFresh(s, a, s.chunks[a], s.cached[1..]);
    LinkedBlocks(s, a, s.chunks[a], s.cached[1..]);
    var s' := Linked(s, a, s.chunks[a], s.cached[1..]);
    assert s'.chunks.Keys == s.chunks.Keys;
  }

  lemma CachedChunk(s: State, a: Address)
    requires LayoutOk(s) && s.cached != [] && a == s.cached[0] && a in T(s) && Unused(T(s)[a])
    ensures a in s.chunks && Linkable(s, a, s.chunks[a], s.cached[1..])
  {
    hide RegionsExact, RealSizeOk, RingOk, Places, Unused, ChunkOk, Zeroed, CacheUnused;
    UnusedIsZeroed(s.chunks[a], s.own[a], s.L);
  }

  /** A chunk that the system has just mapped. */
  lemma NewChunk(s: State, a: Address)
    requires CoreOk(s) && Fresh(s.mapped, a, CHUNK)
    ensures s.main in s.links.prev && s.links.prev[s.main] in s.chunks && s.main in s.chunks
    ensures var c := NewHeader(|s.chunks[s.main].freeMap|);
            var s' := s.(mapped := s.mapped[a := CHUNK], realSize := s.realSize + 0x20_0000);
            && |c.freeMap| > 0 && |c.info| > 0
            && CoreOk(Linked(s', a, c, s.cached)) && FreshChunk(Linked(s', a, c, s.cached), a)
  {
    hide SpaceOk, Unused, RegionsExact, BlocksOk, CountersZero, Linkable, TablesOf, ChunkOk, NewHeader;
    LastInRing(s);
    MapChunk(s.mapped, s.chunks.Keys, s.huge, s.leaked, a);
    NewIsZeroed(s.chunks[s.main], s.own[s.main], s.L);
    var c := NewHeader(|s.chunks[s.main].freeMap|);
    NewLinkable(s, a, c);
    LinkedSpace(s, a, c, s.cached);
    LinkedFresh(s, a, c, s.cached);
    LinkedBlocks(s, a, c, s.cached);
    var s' := s.(mapped := s.mapped[a := CHUNK], realSize := s.realSize + 0x20_0000);
    var s'' := Linked(s', a, c, s.cached);
    assert s''.chunks == Linked(s, a, c, s.cached).chunks && s''.own == Linked(s, a, c, s.cached).own;
    assert s''.chunks.Keys == s.chunks.Keys + {a};
  }

  lemma NewLinkable(s: State, a: Address, c: Chunk)
    requires a !in s.chunks && s.L > 0 && Zeroed(c, s.L) && Fresh(s.mapped, a, CHUNK)
    ensures Linkable(s, a, c, s.cached)
  {
  }

  lemma {:induction false} UsedNonnegative(s: State, q: seq<Address>)
    requires LayoutOk(s)
    ensures UsedPages(s.chunks, q) >= 0
    decreases |q|
  {
    hide LayoutOk;
    if q != [] {
      UsedNonnegative(s, q[..|q| - 1]);
      if q[|q| - 1] in s.chunks {
        FreeBelow(s, q[|q| - 1]);
      }
    }
  }

  lemma FreeBelow(s: State, a: Address)
    requires LayoutOk(s) && a in s.chunks
    ensures s.chunks[a].freePages <= PAGES - 1
  {
    hide RegionsExact, RealSizeOk, RingOk, Places, CacheUnused, Partition, SameBits, HeadsBefore;
    OwnersLength(s.chunks[a], s.own[a], s.L);
    OnlyHeader(s.own[a]);
  }

  /** Sound but for chunk a, which may have no run yet, and with the same live blocks. */
  ghost predicate Primed(h0: Heap, h: Heap, a: Address) {
    SoundBut(h, a) && Kept(h0, h) && h.core.live == h0.core.live && NoNewRuns(h0.core, h.core)
  }

  /** Sound, and with the same live blocks: what collections leave behind. */
  ghost predicate Steady(h0: Heap, h: Heap) {
    Primed(h0, h, h.core.main)
  }

  lemma GcSteady(h0: Heap, h1: Heap, h: Heap)
    requires Steady(h0, h1) && h1.stats == h0.stats && h1.counters.peakChunks == h0.counters.peakChunks && GcDone(h1, h)
    ensures Steady(h0, h) && DeadGone(h1.core, h.core) && h.counters.peakChunks == h0.counters.peakChunks
  {
    hide LayoutOk, CoreOk, GcDone, DeadGone, NoNewRuns, BusyBut;
    MainSwept(h1, h);
    SoundLists(h1);
    GcFilters(h1, h);
    GcKeeps(h1, h);
    RunsTrans(h0.core, h1.core, h.core);
  }

  lemma RunsTrans(s0: State, s1: State, s: State)
    requires NoNewRuns(s0, s1) && NoNewRuns(s1, s)
    ensures NoNewRuns(s0, s)
  {
  }

  lemma GcFilters(h0: Heap, h: Heap)
    requires GcDone(h0, h) && TablesOk(T(h0.core)) && ListsOk(T(h0.core), h0.core.free, h0.core.live)
    ensures NoNewSlots(h0.core.free, h.core.free)
  {
    hide Sound, Collected, Filtered, Remaining, TablesOk, ListsOk, NoNewSlots;
    FilteredShorter(T(h0.core), h0.core.free, h.core.free, h0.core.live);
  }

  lemma GcKeeps(h0: Heap, h: Heap)
    requires Sound(h0) && GcDone(h0, h)
    ensures Sound(h) && h.stats == h0.stats && h.hugeList == h0.hugeList && h.core.realSize <= h0.core.realSize
    ensures h.core.L == h0.core.L && h.core.main == h0.core.main
    ensures h.core.huge == h0.core.huge && h.core.live == h0.core.live && h.core.leaked == h0.core.leaked
    ensures h.counters.avg == h0.counters.avg && h.counters.peakChunks == h0.counters.peakChunks
  {
    hide LayoutOk, CoreOk, Collected, Filtered, Remaining, BusyBut;
  }

  /** A collection takes the dead runs of the main chunk and adds none. */
  lemma MainSwept(h0: Heap, h: Heap)
    requires Sound(h0) && GcDone(h0, h)
    ensures NoNewRuns(h0.core, h.core) && DeadGone(h0.core, h.core)
  {
    hide RegionsExact, RealSizeOk, SpaceOf, BlocksOk, CountersZero, Filtered, Dead;
    MainTable(h0.core);
    MainTable(h.core);
  }

  lemma StayGone(h0: Heap, h1: Heap, h: Heap)
    requires (h1 == h0 || DeadGone(h0.core, h1.core)) && Sound(h1) && GcDone(h1, h)
    ensures DeadGone(h0.core, h.core)
  {
    hide Sound, GcDone, TablesOf, Dead;
    MainSwept(h1, h);
  }

  lemma SameRuns(s0: State, s: State, s': State)
    requires MainOwn(s') == MainOwn(s)
    ensures DeadGone(s0, s) ==> DeadGone(s0, s')
    ensures RunsStay(s0, s) ==> RunsStay(s0, s')
    ensures NoNewRuns(s0, s) ==> NoNewRuns(s0, s')
    ensures RunsStay(s', s0) ==> RunsStay(s, s0)
  {
    hide MainOwn, TablesOf, Dead;
  }

  lemma SameBusy(s: State, s': State)
    requires s'.own == s.own && s'.ring == s.ring && s'.main == s.main
    ensures forall a | BusyBut(s, a) :: BusyBut(s', a)
  {
    hide HasRun;
  }

  lemma SameTables(s0: State, s1: State, s: State)
    requires T(s1) == T(s0) && s1.free == s0.free && s1.main == s0.main && DeadGone(s1, s)
    ensures DeadGone(s0, s)
  {
    hide T, Dead;
  }

  lemma SoundLists(h: Heap)
    requires Sound(h)
    ensures TablesOk(T(h.core)) && ListsOk(T(h.core), h.core.free, h.core.live) && |h.core.free| == BINS
  {
    hide LayoutOk, TablesOk, NothingLost, LiveOk, CountersZero;
  }

  lemma FilteredShorter(t: Tables, free: Lists, free': Lists, live: Ledger)
    requires Filtered(t, free, free', BINS) && ListsOk(t, free, live) && TablesOk(t)
    ensures NoNewSlots(free, free')
  {
    hide SlotOf, DeadSlot, TablesOk, Distinct;
    forall p | p in free[0] ensures !DeadSlot(t, free, p) {
      assert SlotOf(t, p, 0);
      ZeroSlotStays(t, free, p);
    }
    AllSurvive(t, free, free[0]);
    assert free'[0] == Survivors(t, free, free[0]);
    forall b | 0 <= b < BINS && free[b] == [] ensures free'[b] == [] {
      assert free'[b] == Survivors(t, free, free[b]);
    }
  }

  lemma ZeroSlotStays(t: Tables, free: Lists, p: Address)
    requires SlotOf(t, p, 0)
    ensures !DeadSlot(t, free, p)
  {
    hide OnGrid;
  }

  /** Whether a collection is safe does not change along the way. */
  lemma AnchoredKept(h0: Heap, h: Heap)
    requires Steady(h0, h)
    ensures Sound(h) && (Anchored(h.core) <==> Anchored(h0.core))
  {
    hide LayoutOk, CoreOk;
    forall p ensures Anchor(h.core, p) <==> Anchor(h0.core, p) {
    }
  }

  /** A collection would give nothing back. */
  ghost predicate NothingDead(h: Heap) {
    DeadPages(T(h.core), h.core.free, h.core.ring) == 0
  }

  /** There is a collection: no chunk is cached, and the limit forbids a new one or the system refuses it. */
  ghost predicate Collects(h: Heap, refused: bool) {
    h.core.cached == [] && (h.core.realSize + 0x20_0000 > h.stats.limit || refused)
  }

  /** No chunk is cached, and the limit is in force and forbids a new one. */
  ghost predicate OutOfChunks(h: Heap) {
    h.core.cached == [] && h.core.realSize + 0x20_0000 > h.stats.limit && !h.stats.overflow
  }

  /** When a request is refused: nothing is left to collect, and if the system refused nothing, nothing else is left. */
  ghost predicate GaveUp(h: Heap, refused: bool) {
    NothingDead(h) && (!refused ==> OutOfChunks(h))
  }

  /** The old ring, or if there was a collection those of its chunks that have a run which was not dead. */
  ghost predicate RingLeft(h0: Heap, ring: seq<Address>, refused: bool) {
    ring == if Collects(h0, refused) then Remaining(T(h0.core), h0.core.free, h0.core.ring) else h0.core.ring
  }

  /** After at least one collection. */
  ghost predicate Collected0(h0: Heap, h: Heap) {
    && DeadGone(h0.core, h.core) && NothingDead(h)
    && h.core.ring == Remaining(T(h0.core), h0.core.free, h0.core.ring)
  }

  /** One collection after the other: the next finds nothing, and changes neither ring nor cache. */
  lemma SweptAgain(h0: Heap, h1: Heap, h: Heap)
    requires (h1 == h0 || Collected0(h0, h1)) && Sound(h1) && GcDone(h1, h)
    ensures Collected0(h0, h)
    ensures DeadPages(T(h1.core), h1.core.free, h1.core.ring) == 0 ==>
              h.core.ring == h1.core.ring && h.core.cached == h1.core.cached && h.core.realSize == h1.core.realSize
  {
    hide Sound, GcDone, TablesOf, Dead, DeadPages, Remaining;
    StayGone(h0, h1, h);
    SecondGcFindsNothing(h1, h);
    RingAfter(h1, h);
    if DeadPages(T(h1.core), h1.core.free, h1.core.ring) == 0 {
      NothingCollected(h1, h);
    }
  }

  /**
   * The get_chunk part of zend_mm_alloc_pages: a chunk from the cache, or from the system if the
   * limit allows, collecting and retrying when it does not.  The retry ends because a collection
   * that returns something has lowered the number of pages in use.  The request is refused only with
   * nothing left to collect; and, unless the system has refused memory, with nothing cached and the
   * limit reached.
   */
  method GetChunk(h0: Heap) returns (ok: bool, h: Heap, a: Address, ruined: bool, ghost refused: bool)
    requires Sound(h0)
    ensures ruined <==> !Anchored(h0.core) && Collects(h0, refused)
    ensures ruined ==> Ruined(h)
    ensures refused ==> h0.core.cached == []
    ensures !ruined ==> WithinLimit(h0, h)
    ensures !ruined && ok ==> Primed(h0, h, a) && FreshChunk(h.core, a)
    ensures !ruined && ok ==> h.core.ring != [] && RingLeft(h0, h.core.ring[..|h.core.ring| - 1], refused)
    ensures !ruined && !ok ==> Steady(h0, h) && h.core.realSize <= h0.core.realSize && Collects(h0, refused)
    ensures !ruined && !ok ==> GaveUp(h, refused) && RingLeft(h0, h.core.ring, refused)
    ensures h0.core.cached != [] ==> a == h0.core.cached[0] && h.core.realSize == h0.core.realSize
    ensures !Collects(h0, refused) ==> ok && MainOwn(h.core) == MainOwn(h0.core)
    ensures !ruined && Collects(h0, refused) ==> DeadGone(h0.core, h.core)
  {
    hide CoreOk, LayoutOk, Anchored, GcDone, UsedPages, DeadPages, TablesOf, FreshChunk, Sound, Steady, Primed, Fresh, Linked;
    hide Tidy, MainGone, DeadGone, NoNewRuns, MainOwn, Remaining, NothingDead;
    h, a, ruined, refused := h0, 0, false, false;
    SteadyRefl(h0);
    while true
      invariant Steady(h0, h) && h.core.realSize <= h0.core.realSize
      invariant (h == h0 || Collected0(h0, h)) && h.stats == h0.stats && !refused
      invariant h.counters.peakChunks == h0.counters.peakChunks
      invariant h == h0 || (Anchored(h0.core) && Collects(h0, false))
      decreases UsedPages(h.core.chunks, h.core.ring)
    {
      AnchoredKept(h0, h);
      SoundUsed(h);
      ghost var before := h;
      if h.core.cached != [] {
        a := h.core.cached[0];
        ReuseSteady(h0, h);
        h := h.(core := Linked(h.core, a, h.core.chunks[a], h.core.cached[1..]),
                counters := AddChunk(h.counters.(cached := h.counters.cached - 1)));
        SameRuns(h0.core, before.core, h.core);
        return true, h, a, false, false;
      }
      if h.core.realSize + CHUNK > h.stats.limit {
        var bytes;
        h, bytes, ruined := Gc(h);
        if ruined {
          return false, h, 0, true, false;
        }
        GcSteady(h0, before, h);
        GcShrinks(before, h);
        SweptAgain(h0, before, h);
        if bytes > 0 {
          continue;
        } else if !h.stats.overflow {
          return false, h, 0, false, false;
        }
      }
      AnchoredKept(h0, h);
      var s;
      s, a := ChunkAlloc(h.core, CHUNK);
      refused := a == 0;
      if a == 0 {
        ghost var room := h;
        var bytes;
        h, bytes, ruined := Gc(h);
        if ruined {
          return false, h, 0, true, true;
        }
        GcSteady(h0, room, h);
        GcShrinks(room, h);
        SweptAgain(h0, room, h);
        s := h.core;
        if bytes > 0 {
          s, a := ChunkAlloc(h.core, CHUNK);
        }
        if a == 0 {
          return false, h, 0, false, true;
        }
      }
      NewSteady(h0, h, a, s);
      ghost var room := h;
      s := s.(realSize := s.realSize + CHUNK);
      h := h.(core := Linked(s, a, NewHeader(|s.chunks[s.main].freeMap|), s.cached),
              counters := AddChunk(h.counters),
              stats := h.stats.(realPeak := Max(h.stats.realPeak, s.realSize)));
      SameRuns(h0.core, room.core, h.core);
      return true, h, a, false, refused;
    }
  }

  function Max(x: int, y: int): int {
    if x > y then x else y
  }

  /** One more chunk in the ring. */
  function AddChunk(c: Counters): Counters {
    c.(chunks := c.chunks + 1, peakChunks := Max(c.peakChunks, c.chunks + 1))
  }

  lemma SteadyRefl(h: Heap)
    requires Sound(h)
    ensures Steady(h, h)
  {
    hide CoreOk, LayoutOk;
    SoundLists(h);
  }

  lemma SoundUsed(h: Heap)
    requires Sound(h)
    ensures UsedPages(h.core.chunks, h.core.ring) >= 0
  {
    hide CoreOk, LayoutOk;
    UsedNonnegative(h.core, h.core.ring);
  }

  lemma GcShrinks(h0: Heap, h: Heap)
    requires Sound(h0) && GcDone(h0, h)
    ensures h.core.realSize <= h0.core.realSize && h.stats == h0.stats
  {
    hide CoreOk, LayoutOk, Collected, Filtered;
  }

  lemma ReuseSteady(h0: Heap, h: Heap)
    requires Steady(h0, h) && h.core.cached != []
    ensures var s := h.core; var a := s.cached[0];
            && s.main in s.links.prev && s.links.prev[s.main] in s.chunks && a in s.chunks
            && |s.chunks[a].freeMap| > 0 && |s.chunks[a].info| > 0
            && var s' := Linked(s, a, s.chunks[a], s.cached[1..]);
            && Primed(h0, h.(core := s', counters := AddChunk(h.counters.(cached := h.counters.cached - 1))), a)
            && FreshChunk(s', a) && s'.realSize == s.realSize && MainOwn(s') == MainOwn(s) && s'.ring == s.ring + [a]
  {
    hide LayoutOk, CoreOk, FreshChunk, InitChunk, LinkLast, NoOwners;
    ReuseChunk(h.core);
    LinkedRuns(h0.core, h.core, h.core.cached[0], h.core.chunks[h.core.cached[0]], h.core.cached[1..]);
    hide NoNewRuns, MainOwn, BusyBut;
    CoreIsTidy(Linked(h.core, h.core.cached[0], h.core.chunks[h.core.cached[0]], h.core.cached[1..]));
  }

  lemma LinkedRuns(s0: State, s: State, a: Address, c: Chunk, cached: seq<Address>)
    requires s.main in s.links.prev && s.links.prev[s.main] in s.chunks && |c.freeMap| > 0 && |c.info| > 0
    requires NoNewRuns(s0, s) && FreshChunk(Linked(s, a, c, cached), a)
    ensures NoNewRuns(s0, Linked(s, a, c, cached)) && MainOwn(Linked(s, a, c, cached)) == MainOwn(s)
    ensures BusyBut(s, s.main) ==> BusyBut(Linked(s, a, c, cached), a)
  {
    hide HasRun;
    assert MainOwn(Linked(s, a, c, cached)) == MainOwn(s);
  }

  lemma CoreIsTidy(s: State)
    requires CoreOk(s)
    ensures LayoutOk(s)
  {
  }

  lemma NewSteady(h0: Heap, h: Heap, a: Address, s: State)
    requires Steady(h0, h) && Fresh(h.core.mapped, a, CHUNK) && s == h.core.(mapped := h.core.mapped[a := CHUNK])
    requires h.core.realSize + CHUNK <= h.stats.limit || h.stats.overflow
    ensures s.main in s.links.prev && s.links.prev[s.main] in s.chunks && s.main in s.chunks
    ensures |NewHeader(|s.chunks[s.main].freeMap|).freeMap| > 0
    ensures var s' := Linked(s.(realSize := s.realSize + CHUNK), a, NewHeader(|s.chunks[s.main].freeMap|), s.cached);
            && Primed(h0, h.(core := s', counters := AddChunk(h.counters),
                             stats := h.stats.(realPeak := Max(h.stats.realPeak, s.realSize + CHUNK))), a)
            && FreshChunk(s', a) && s'.realSize == s.realSize + CHUNK && MainOwn(s') == MainOwn(h.core)
            && s'.ring == s.ring + [a]
  {
    hide LayoutOk, CoreOk, FreshChunk, InitChunk, LinkLast, NoOwners, NewHeader, Fresh;
    NewChunk(h.core, a);
    LinkedRuns(h0.core, s.(realSize := s.realSize + 0x20_0000), a, NewHeader(|s.chunks[s.main].freeMap|), s.cached);
    hide NoNewRuns, MainOwn, BusyBut;
    CoreIsTidy(Linked(s.(realSize := s.realSize + 0x20_0000), a, NewHeader(|s.chunks[s.main].freeMap|), s.cached));
  }

  // ---- the search around the ring -----------------------------------------------------------------------

  /** A new mark that lies after every run. */
  lemma CoreMark(s: State, a: Address, tail: nat)
    requires CoreOk(s) && a in s.ring && a in s.chunks && a in s.own && HeadsBefore(s.own[a], tail)
    requires ChunkOk(s.chunks[a], s.own[a], s.L)
    ensures CoreOk(WithChunk(s, a, s.chunks[a].(freeTail := tail), s.own[a]))
    ensures T(WithChunk(s, a, s.chunks[a].(freeTail := tail), s.own[a])) == T(s)
  {
    hide LayoutOk, BlocksOk, CountersZero, Partition, SameBits, HeadsBefore, FreeCount;
    var c := s.chunks[a].(freeTail := tail);
    LayoutWith(s, a, c, s.own[a]);
    assert T(s)[a] == Table(s.own[a], c.info);
    assert T(s)[a := T(s)[a]] == T(s);
  }

  lemma ChunkOfRing(s: State, a: Address)
    requires CoreOk(s) && a in s.ring
    ensures a in s.chunks && a in s.own && ChunkOk(s.chunks[a], s.own[a], s.L) && s.L > 0 && Offset(a) == 0 && a > 0
    ensures |s.own[a]| == |s.chunks[a].info| == PAGES && NoCounters(s.own[a], s.chunks[a].info)
    ensures a in T(s) && T(s)[a] == Table(s.own[a], s.chunks[a].info) && TableOk(a, T(s)[a])
  {
    hide RegionsExact, RealSizeOk, ChunkOk, RingOk, CacheUnused, ListsOk, LiveOk, NothingLost, NoCounters, TableOk;
    OwnersLength(s.chunks[a], s.own[a], s.L);
  }

  /** The end of zend_mm_alloc_pages: pages p .. p+n-1 of chunk a become a large run. */
  lemma CoreTake(s: State, a: Address, p: nat, n: nat)
    requires CoreOk(s) && a in s.ring && a in s.chunks && a in s.own && |s.own[a]| == |s.chunks[a].info| == PAGES
    requires 0 < p && 0 < n && p + n <= PAGES && s.L > 0
    requires (forall i | p <= i < p + n :: s.own[a][i] < 0) && p <= s.chunks[a].freeTail
    ensures PageAddress(a, p) !in s.live
    ensures var s' := WithChunk(s, a, TakeRun(s.chunks[a], p, n, s.L), Fill(s.own[a], p, n, p))
                        .(live := s.live[PageAddress(a, p) := n * 0x1000]);
            CoreOk(s') && LargeOf(T(s'), PageAddress(a, p), n) && Offset(a) == 0
  {
    hide LayoutOk, BlocksOk, CountersZero, ChunkOk, NoCounters, TableOk, Lrun, Fill, SetRange, LargeOf;
    ChunkOfRing(s, a);
    var c, own := s.chunks[a], s.own[a];
    TakeRunOk(c, own, s.L, p, n);
    var c', own' := TakeRun(c, p, n, s.L), Fill(own, p, n, p);
    LayoutWith(s, a, c', own');
    var y := Table(own', c'.info);
    assert c'.info == c.info[p := Lrun(n)];
    TakenTable(s, a, c', own');
    PutCounters(T(s), a, y);
    AddLarge(T(s), a, y, p, n, s.free, s.huge, s.live);
    LrunFields(n);
    OneLarge(T(s)[a := y], a, p, n, PageAddress(a, p), n);
    LayoutLive(WithChunk(s, a, c', own'), s.live[PageAddress(a, p) := n * 0x1000]);
  }

  lemma TakenTable(s: State, a: Address, c: Chunk, own: Owners)
    requires ChunkOk(c, own, s.L) && Offset(a) == 0 && a > 0
    ensures TableOk(a, Table(own, c.info))
  {
    hide SameBits, HeadsBefore, FreeCount, Lrun;
  }

  /** The layout does not depend on the ledger of live blocks or the free lists. */
  lemma LayoutLive(s: State, live: Ledger)
    requires LayoutOk(s)
    ensures LayoutOk(s.(live := live)) && T(s.(live := live)) == T(s)
  {
    hide SpaceOk, RegionsExact, RealSizeOk;
  }

  /** The relink next to the main chunk. */
  lemma CoreMove(s: State, k: nat)
    requires CoreOk(s) && 0 < k < |s.ring|
    ensures s.ring[k] in s.links.next && s.ring[k] in s.links.prev && s.main in Unlink(s.links, s.ring[k]).next
    ensures var s' := s.(links := LinkSecond(Unlink(s.links, s.ring[k]), s.main, s.ring[k]), ring := MovedSecond(s.ring, k));
            CoreOk(s') && |s'.ring| == |s.ring| && s.ring[k] in s'.ring && T(s') == T(s)
  {
    hide BlocksOk, RegionsExact, ChunksOk, CountersZero, CacheUnused, RingOk, Places, LinkSecond, Unlink, Sum;
    FirstIsMain(s);
    MoveSecondOk(s.links, s.ring, k);
    RingDistinct(s, k);
    PlaceMoved(s.ring, MovedSecond(s.ring, k), s.cached, s.chunks.Keys);
    assert MovedSecond(s.ring, k)[1] == s.ring[k];
  }

  lemma RingDistinct(s: State, k: nat)
    requires LayoutOk(s) && 0 < k < |s.ring|
    ensures Distinct(MovedSecond(s.ring, k))
  {
    hide RegionsExact, RealSizeOk, ChunksOk, CacheUnused;
    MoveSecondOk(s.links, s.ring, k);
  }

  // ---- zend_mm_alloc_pages ----------------------------------------------------------------------------

  /** n pages, as a new live block at page p of chunk a; nothing else that is live has changed. */
  ghost predicate GotPages(h0: Heap, h: Heap, a: Address, p: nat, n: nat) {
    && Sound(h) && Kept(h0, h)
    && PageAddress(a, p) !in h0.core.live && h.core.live == h0.core.live[PageAddress(a, p) := n * 0x1000]
    && Offset(a) == 0 && 0 < p < PAGES && LargeOf(T(h.core), PageAddress(a, p), n)
    && a in h.core.ring && (a != h.core.main ==> NoNewRuns(h0.core, h.core))
  }

  /** The place of a run of n pages, found in the chunk at place k of the ring. */
  ghost predicate FoundAt(s: State, k: nat, a: Address, p: nat, n: nat) {
    && k < |s.ring| && s.ring[k] == a && a in s.chunks && a in s.own
    && |s.own[a]| == |s.chunks[a].info| == PAGES
    && 0 < p && p + n <= PAGES && p <= s.chunks[a].freeTail
    && forall i | p <= i < p + n :: s.own[a][i] < 0
  }

  /** No run of free pages in chunk a has room for n. */
  ghost predicate NoRoom(s: State, a: Address, n: nat) {
    a in s.chunks && s.L > 0 && BestFit.NoFit(s.chunks[a].freeMap, s.L, n)
  }

  /** Page p begins the leftmost of the shortest free runs of chunk a that have room for n. */
  ghost predicate BestRoom(s: State, a: Address, n: nat, p: nat) {
    a in s.chunks && s.L > 0 && exists e: nat :: BestFit.Best(s.chunks[a].freeMap, s.L, n, p, e)
  }

  /** The first k chunks of the ring have no room for n pages. */
  ghost predicate NoneBefore(s: State, k: nat, n: nat) {
    k <= |s.ring| && forall j | 0 <= j < k :: NoRoom(s, s.ring[j], n)
  }

  /** The first chunk of the ring with room, and the best place in it; a new chunk only if none has room. */
  ghost predicate Placed(s: State, n: nat, a: Address, p: nat) {
    || (exists k :: 0 <= k < |s.ring| && s.ring[k] == a && NoneBefore(s, k, n) && BestRoom(s, a, n, p))
    || (NoneBefore(s, |s.ring|, n) && p == 1)
  }

  /** The bitsets of all chunks are as they were. */
  ghost predicate SameMaps(s: State, s': State) {
    && s'.L == s.L && s'.chunks.Keys == s.chunks.Keys
    && forall a | a in s.chunks :: s'.chunks[a].freeMap == s.chunks[a].freeMap
  }

  lemma SameRoom(s: State, s': State, a: Address, n: nat)
    requires SameMaps(s, s')
    ensures NoRoom(s', a, n) ==> NoRoom(s, a, n)
    ensures forall p: nat :: BestRoom(s', a, n, p) ==> BestRoom(s, a, n, p)
  {
    hide BestFit.NoFit, BestFit.Best;
  }

  /** A chunk with fewer free pages than asked for has no room: the program does not even look. */
  lemma TooFewPages(c: Chunk, own: Owners, L: nat, n: nat)
    requires ChunkOk(c, own, L) && L > 0 && c.freePages < n
    ensures BestFit.NoFit(c.freeMap, L, n)
  {
    hide Partition, HeadsBefore, BestFit.FreeRun, FreeCount, Used, Wellformed, Pages;
    OwnersLength(c, own, L);
    forall x: nat, y: nat | BestFit.FreeRun(c.freeMap, L, x, y) ensures y - x < n {
      RunFitsCount(c, own, L, x, y);
    }
  }

  lemma RunFitsCount(c: Chunk, own: Owners, L: nat, x: nat, y: nat)
    requires SameBits(own, c.freeMap, L) && L > 0 && BestFit.FreeRun(c.freeMap, L, x, y)
    ensures x <= y && y - x <= FreeCount(own)
  {
    hide FreeCount, Used, Wellformed;
    TakeCount(own, x, y - x, 0);
  }

  /** Looking for n pages in one chunk; the search may move the chunk's mark. */
  method SearchChunk(h0: Heap, a: Address, k: nat, n: nat, ghost first: Heap) returns (h: Heap, found: bool, p: nat)
    requires Steady(first, h0) && k < |h0.core.ring| && h0.core.ring[k] == a && 0 < n <= PAGES - 1
    ensures Steady(first, h) && h.core.ring == h0.core.ring && h.core.main == h0.core.main
    ensures h.core.links == h0.core.links && h.core.realSize == h0.core.realSize && h.stats == h0.stats
    ensures h.counters == h0.counters
    ensures h.core.cached == h0.core.cached && h.core.own == h0.core.own && T(h.core) == T(h0.core) && h.core.free == h0.core.free
    ensures found ==> FoundAt(h.core, k, a, p, n)
    ensures SameMaps(h0.core, h.core)
    ensures if found then BestRoom(h0.core, a, n, p) else NoRoom(h0.core, a, n)
  {
    hide SameMaps, NoRoom, BestRoom;
    hide LayoutOk, CoreOk, Partition, SameBits, HeadsBefore, FreeCount, Used, NoCounters, TableOk, Steady, TablesOf;
    hide BestFit.TailMark, BestFit.Best, BestFit.NoFit, BestFit.NewMark, Wellformed, FoundAt;
    h, found, p := h0, false, 0;
    SteadySound(first, h0);
    ChunkOfRing(h.core, a);
    var c := h.core.chunks[a];
    Untouched(h.core, a);
    if c.freePages < n {
      TooFewPages(c, h.core.own[a], h.core.L, n);
      Unsuccessful(h0.core, a, n);
    } else {
      SearchReady(c, h.core.own[a], h.core.L);
      var tail;
      found, p, tail := BestFit.FindPages(c.freeMap, h.core.L, c.freeTail, n);
      FoundIsFree(c, h.core.own[a], h.core.L, n, tail, found, p);
      CoreMark(h.core, a, tail);
      Remarked(h.core, a, tail);
      h := h.(core := WithChunk(h.core, a, c.(freeTail := tail), h.core.own[a]));
      SteadyCore(first, h0, h);
      if found {
        FoundHere(h.core, k, a, p, n);
        Successful(h0.core, a, n, p);
      } else {
        Unsuccessful(h0.core, a, n);
      }
    }
  }

  lemma Untouched(s: State, a: Address)
    ensures SameMaps(s, s)
  {
  }

  lemma Remarked(s: State, a: Address, tail: nat)
    requires a in s.chunks && a in s.own
    ensures SameMaps(s, WithChunk(s, a, s.chunks[a].(freeTail := tail), s.own[a]))
  {
  }

  lemma Unsuccessful(s: State, a: Address, n: nat)
    requires a in s.chunks && s.L > 0 && BestFit.NoFit(s.chunks[a].freeMap, s.L, n)
    ensures NoRoom(s, a, n)
  {
  }

  lemma Successful(s: State, a: Address, n: nat, p: nat)
    requires a in s.chunks && s.L > 0 && exists e: nat :: BestFit.Best(s.chunks[a].freeMap, s.L, n, p, e)
    ensures BestRoom(s, a, n, p)
  {
  }

  lemma MapsTrans(s0: State, s1: State, s: State)
    requires SameMaps(s0, s1) && SameMaps(s1, s)
    ensures SameMaps(s0, s)
  {
  }

  lemma NoneBeforeNext(s: State, k: nat, n: nat)
    requires k < |s.ring| && NoneBefore(s, k, n) && NoRoom(s, s.ring[k], n)
    ensures NoneBefore(s, k + 1, n)
  {
    hide NoRoom;
  }

  lemma NoneBeforeFirst(s: State, n: nat)
    ensures NoneBefore(s, 0, n)
  {
  }

  lemma PlacedFresh(s: State, n: nat, a: Address)
    requires NoneBefore(s, |s.ring|, n)
    ensures Placed(s, n, a, 1)
  {
    hide NoneBefore, BestRoom;
  }

  lemma PlacedAt(s: State, k: nat, n: nat, a: Address, p: nat)
    requires k < |s.ring| && s.ring[k] == a && NoneBefore(s, k, n) && BestRoom(s, a, n, p)
    ensures Placed(s, n, a, p)
  {
    hide NoneBefore, BestRoom;
  }

  lemma FoundHere(s: State, k: nat, a: Address, p: nat, n: nat)
    requires k < |s.ring| && s.ring[k] == a && a in s.chunks && a in s.own
    requires |s.own[a]| == |s.chunks[a].info| == PAGES
    requires 0 < p && p + n <= PAGES && p <= s.chunks[a].freeTail
    requires forall i | p <= i < p + n :: s.own[a][i] < 0
    ensures FoundAt(s, k, a, p, n)
  {
  }

  lemma SearchReady(c: Chunk, own: Owners, L: nat)
    requires ChunkOk(c, own, L) && L > 0
    ensures Wellformed(c.freeMap, L) && |c.freeMap| > 0 && Used(c.freeMap, L, 0)
    ensures BestFit.TailMark(c.freeMap, L, c.freeTail)
  {
    hide Partition, HeadsBefore, Used, BestFit.TailMark;
    MarkIsTailMark(c, own, L);
  }

  lemma SteadySound(h0: Heap, h: Heap)
    requires Steady(h0, h)
    ensures Sound(h) && CoreOk(h.core) && |h.core.ring| > 0 && h.core.ring[0] == h.core.main
  {
    hide RegionsExact, RealSizeOk, BlocksOk, CountersZero;
  }

  lemma PrimedSound(h0: Heap, h: Heap, a: Address)
    requires Primed(h0, h, a)
    ensures CoreOk(h.core) && |h.core.ring| > 0 && h.core.ring[0] == h.core.main == h0.core.main
  {
    hide RegionsExact, RealSizeOk, BlocksOk, CountersZero, BusyBut;
  }

  lemma SteadyIsPrimed(h0: Heap, h: Heap, a: Address)
    requires Steady(h0, h)
    ensures Primed(h0, h, a)
  {
    hide LayoutOk, CoreOk, HasRun;
  }

  /** A change of the core that keeps the counts, the regions and the blocks. */
  lemma SteadyCore(h0: Heap, h1: Heap, h: Heap)
    requires Steady(h0, h1) && h == h1.(core := h.core) && CoreOk(h.core)
    requires |h.core.ring| == |h1.core.ring| && h.core.cached == h1.core.cached && h.core.realSize == h1.core.realSize
    requires h.core.L == h1.core.L && h.core.main == h1.core.main && h.core.huge == h1.core.huge
    requires h.core.leaked == h1.core.leaked && h.core.live == h1.core.live && h.core.free == h1.core.free
    requires MainOwn(h.core) == MainOwn(h1.core) && h.core.own == h1.core.own && h.core.ring == h1.core.ring
    ensures Steady(h0, h)
  {
    hide LayoutOk, BlocksOk, CountersZero;
    CoreIsTidy(h.core);
  }

  lemma NextInRing(h0: Heap, h: Heap, k: nat)
    requires Steady(h0, h) && k < |h.core.ring|
    ensures h.core.ring[k] in h.core.links.next && h.core.links.next[h.core.ring[k]] == Nth(h.core.ring, k + 1)
    ensures h.core.main == h.core.ring[0]
    ensures Nth(h.core.ring, k + 1) == h.core.main <==> k + 1 == |h.core.ring|
  {
    hide ChunksOk, Places, CacheUnused, RegionsExact, RealSizeOk, BlocksOk, CountersZero;
    assert Joined(h.core.links, h.core.ring[k], Nth(h.core.ring, k + 1));
  }

  lemma SteadyTrans(h0: Heap, h1: Heap, h: Heap)
    requires Steady(h0, h1) && h1.stats == h0.stats && h1.counters.peakChunks == h0.counters.peakChunks
    ensures Steady(h1, h) ==> Steady(h0, h)
    ensures forall a | Primed(h1, h, a) :: Primed(h0, h, a)
  {
    hide LayoutOk, CoreOk;
  }

  lemma FreshFound(h0: Heap, h: Heap, a: Address, n: nat)
    requires Primed(h0, h, a) && FreshChunk(h.core, a) && 0 < n <= PAGES - 1
    ensures FoundAt(h.core, |h.core.ring| - 1, a, 1, n) && |h.core.ring| > 1 && a != h0.core.main == h.core.main
    ensures h.core.ring[|h.core.ring| - 1] == a
  {
    hide LayoutOk, CoreOk;
    PrimedSound(h0, h, a);
    assert a in h.core.ring;
    ChunkOfRing(h.core, a);
  }

  /** The ring after pages were taken in its chunk at place k: after more than two steps and for few pages it moves up. */
  function Reordered(ring: seq<Address>, k: nat, steps: nat, n: nat): seq<Address>
    requires k < |ring| && (steps > 2 ==> k > 0)
  {
    if steps > 2 && n < 8 then MovedSecond(ring, k) else ring
  }

  /** The found: label: a chunk far down the ring moves up, and the run is marked. */
  method TakePages(h0: Heap, h1: Heap, a: Address, k: nat, p: nat, n: nat, steps: nat) returns (h: Heap)
    requires Primed(h0, h1, a) && FoundAt(h1.core, k, a, p, n) && 0 < n <= PAGES - 1
    requires steps > 2 ==> k > 0
    ensures GotPages(h0, h, a, p, n) && h.core.realSize == h1.core.realSize
    ensures RunsStay(h1.core, h.core) && (a != h1.core.main ==> MainOwn(h.core) == MainOwn(h1.core))
    ensures h.core.ring == Reordered(h1.core.ring, k, steps, n)
  {
    hide LayoutOk, CoreOk, TablesOf, TakeRun, Fill, LinkSecond, MovedSecond, Unlink, Primed;
    var s := h1.core;
    PrimedSound(h0, h1, a);
    if steps > 2 && n < 8 {
      CoreMove(s, k);
      MovedMembers(s.ring, k);
      s := s.(links := LinkSecond(Unlink(s.links, a), s.main, a), ring := MovedSecond(s.ring, k));
    }
    ChunkOfRing(s, a);
    CoreTake(s, a, p, n);
    h := h1.(core := WithChunk(s, a, TakeRun(s.chunks[a], p, n, s.L), Fill(s.own[a], p, n, p))
                       .(live := s.live[PageAddress(a, p) := n * 0x1000]));
    TakenBusy(h1.core, h.core, a, p, n);
    GotIt(h0, h1, h, a, p, n);
    FilledPages(h1.core, h.core, a, p, n);
  }

  lemma MovedMembers(ring: seq<Address>, k: nat)
    requires 0 < k < |ring|
    ensures |MovedSecond(ring, k)| == |ring| && forall a :: a in MovedSecond(ring, k) <==> a in ring
  {
    var r := MovedSecond(ring, k);
    assert r == ring[..1] + [ring[k]] + ring[1..k] + ring[k + 1..];
    assert ring == ring[..1] + ring[1..k] + [ring[k]] + ring[k + 1..];
  }

  lemma TakenBusy(s: State, s': State, a: Address, p: nat, n: nat)
    requires a in s.own && 0 < p && 0 < n && p + n <= |s.own[a]| && s'.main == s.main
    requires (forall c :: c in s'.ring <==> c in s.ring) && s'.own == s.own[a := Fill(s.own[a], p, n, p)]
    ensures BusyBut(s, a) ==> BusyBut(s', s'.main)
  {
    assert Fill(s.own[a], p, n, p)[p] == p;
  }

  lemma RunsTaken(s0: State, s1: State, s: State, a: Address)
    requires RunsStay(s1, s) && (a != s1.main ==> MainOwn(s) == MainOwn(s1))
    ensures MainOwn(s1) == MainOwn(s0) ==> RunsStay(s0, s)
    ensures a != s1.main && DeadGone(s0, s1) ==> DeadGone(s0, s)
  {
    hide MainOwn, TablesOf, Dead;
  }

  lemma FilledPages(s: State, s': State, a: Address, p: nat, n: nat)
    requires a in s.own && s'.main == s.main && s'.own == s.own[a := Fill(s.own[a], p, n, p)]
    requires p + n <= |s.own[a]| && forall i | p <= i < p + n :: s.own[a][i] < 0
    ensures RunsStay(s, s')
  {
  }

  lemma GotIt(h0: Heap, h1: Heap, h: Heap, a: Address, p: nat, n: nat)
    requires Primed(h0, h1, a) && h == h1.(core := h.core) && CoreOk(h.core)
    requires BusyBut(h1.core, a) ==> BusyBut(h.core, h.core.main)
    requires |h.core.ring| == |h1.core.ring| && h.core.cached == h1.core.cached && h.core.realSize == h1.core.realSize
    requires h.core.L == h1.core.L && h.core.main == h1.core.main && h.core.huge == h1.core.huge
    requires h.core.leaked == h1.core.leaked && a in h.core.ring && Offset(a) == 0 && 0 < p < PAGES
    requires h.core.free == h1.core.free && (a != h.core.main ==> MainOwn(h.core) == MainOwn(h1.core))
    requires PageAddress(a, p) !in h1.core.live && h.core.live == h1.core.live[PageAddress(a, p) := n * 0x1000]
    requires LargeOf(T(h.core), PageAddress(a, p), n)
    ensures GotPages(h0, h, a, p, n)
  {
    hide LayoutOk, BlocksOk, CountersZero, LargeOf, BusyBut;
    CoreIsTidy(h.core);
  }

  /**
   * The order of the ring after n pages were taken in chunk a: where it was found, or as the last
   * chunk of what is left of the ring.
   */
  ghost predicate RingTaken(h0: Heap, h: Heap, a: Address, n: nat, refused: bool) {
    || (exists k: nat :: k < |h0.core.ring| && h0.core.ring[k] == a && h.core.ring == Reordered(h0.core.ring, k, k, n))
    || (exists r: seq<Address> ::
          RingLeft(h0, r, refused) && r != [] && h.core.ring == Reordered(r + [a], |r|, |h0.core.ring| - 1, n))
  }

  lemma TakenAt(h0: Heap, h: Heap, a: Address, n: nat, k: nat, refused: bool)
    requires k < |h0.core.ring| && h0.core.ring[k] == a && h.core.ring == Reordered(h0.core.ring, k, k, n)
    ensures RingTaken(h0, h, a, n, refused)
  {
  }

  lemma TakenLast(h0: Heap, h: Heap, a: Address, n: nat, ring: seq<Address>, refused: bool)
    requires h0.core.ring != [] && |ring| > 1 && ring[|ring| - 1] == a && RingLeft(h0, ring[..|ring| - 1], refused)
    requires h.core.ring == Reordered(ring, |ring| - 1, |h0.core.ring| - 1, n)
    ensures RingTaken(h0, h, a, n, refused)
  {
    hide RingLeft;
    var r := ring[..|ring| - 1];
    assert r + [a] == ring;
  }

  lemma SameRingLeft(h0: Heap, h1: Heap, ring: seq<Address>, refused: bool)
    requires RingLeft(h1, ring, refused) && h1.core.ring == h0.core.ring
    requires T(h1.core) == T(h0.core) && h1.core.free == h0.core.free
    requires Collects(h1, refused) == Collects(h0, refused)
    ensures RingLeft(h0, ring, refused)
  {
    hide T, Remaining;
  }

  lemma SameTaken(h0: Heap, h0': Heap, h: Heap, h': Heap, a: Address, n: nat, refused: bool)
    requires h0'.core == h0.core && h0'.stats.limit == h0.stats.limit && h'.core.ring == h.core.ring
    ensures RingTaken(h0, h, a, n, refused) ==> RingTaken(h0', h', a, n, refused)
  {
    hide Reordered, T, Remaining;
  }

  lemma SameGaveUp(h: Heap, h': Heap, refused: bool)
    requires h'.core == h.core && h'.stats.limit == h.stats.limit && h'.stats.overflow == h.stats.overflow
    ensures GaveUp(h, refused) ==> GaveUp(h', refused)
  {
    hide T, DeadPages;
  }

  /**
   * zend_mm_alloc_pages.  On success n pages are a new block that overlaps nothing that was live;
   * failure leaves every block as it was.  Only if no chunk has room and none is cached can a
   * collection be reached that finds nothing to keep in the main chunk.
   */
  method AllocPages(h0: Heap, n: nat) returns (ok: bool, h: Heap, a: Address, p: nat, ruined: bool, ghost refused: bool)
    requires Sound(h0) && 0 < n <= PAGES - 1
    ensures ruined <==> !Anchored(h0.core) && NoChunkHasRoom(h0, n) && Collects(h0, refused)
    ensures ruined ==> Ruined(h)
    ensures refused ==> NoChunkHasRoom(h0, n)
    ensures !ruined && ok ==> GotPages(h0, h, a, p, n) && Placed(h0.core, n, a, p) && RingTaken(h0, h, a, n, refused)
    ensures !ruined && !ok ==> Steady(h0, h) && NoChunkHasRoom(h0, n) && h.core.realSize <= h0.core.realSize
    ensures !ruined && !ok ==> GaveUp(h, refused) && Collects(h0, refused)
    ensures !ruined ==> WithinLimit(h0, h)
    ensures !NoRoom(h0.core, h0.core.main, n) ==> ok && !ruined
    ensures !ruined && ok ==> MainShare(h0, h, a, n, refused)
  {
    hide LayoutOk, CoreOk, Steady, Primed, Sound, TablesOf, FoundAt, FreshChunk, Anchored, GotPages, RingOk, Ruined;
    hide SameMaps, NoneBefore, BestRoom, NoRoom, Placed, T, DeadGone, NoNewRuns, RunsStay, RingTaken, Reordered;
    hide NothingDead, RingLeft;
    h, p, ruined, refused := h0, 0, false, false;
    a := h.core.main;
    var k, steps := 0, 0;
    SteadyRefl(h0);
    SteadySound(h0, h);
    Untouched(h0.core, a);
    NoneBeforeFirst(h0.core, n);
    ghost var found0 := false;
    while true
      invariant SameMaps(h0.core, h.core) && NoneBefore(h0.core, k, n) && !found0
      invariant Steady(h0, h) && k < |h.core.ring| && h.core.ring[k] == a && steps == k
      invariant h.core.realSize == h0.core.realSize && h.core.cached == h0.core.cached && !ruined
      invariant h.core.ring == h0.core.ring && h.core.main == h0.core.main
      invariant h.core.own == h0.core.own && T(h.core) == T(h0.core) && h.core.free == h0.core.free
      invariant h.stats == h0.stats && h.counters == h0.counters
      decreases |h.core.ring| - k
    {
      var found;
      ghost var here := h;
      h, found, p := SearchChunk(h, a, k, n, h0);
      MapsTrans(h0.core, here.core, h.core);
      SameRoom(h0.core, here.core, a, n);
      if found {
        PlacedAt(h0.core, k, n, a, p);
        RoomFound(h0, k, n, a, p);
        MainIsFirst(h0, k, n, p);
        SteadyIsPrimed(h0, h, a);
        found0 := true;
        break;
      }
      NoneBeforeNext(h0.core, k, n);
      NextInRing(h0, h, k);
      if h.core.links.next[a] == h.core.main {
        AnchoredKept(h0, h);
        MainHasNone(h0, n);
        ghost var before := h;
        var ok1;
        ok1, h, a, ruined, refused := GetChunk(h);
        if ruined {
          return false, h, 0, 0, true, refused;
        }
        SteadyTrans(h0, before, h);
        if Collects(h0, refused) {
          SameTables(h0.core, before.core, h.core);
        }
        if !ok1 {
          return false, h, 0, 0, false, refused;
        }
        SameRingLeft(h0, before, h.core.ring[..|h.core.ring| - 1], refused);
        p := 1;
        PlacedFresh(h0.core, n, a);
        k := |h.core.ring| - 1;
        FreshFound(h0, h, a, n);
        break;
      } else {
        a := h.core.links.next[a];
        k := k + 1;
        steps := steps + 1;
      }
    }
    ok := true;
    ghost var room := h;
    h := TakePages(h0, h, a, k, p, n, steps);
    RunsTaken(h0.core, room.core, h.core, a);
    if found0 {
      TakenAt(h0, h, a, n, k, refused);
    } else {
      TakenLast(h0, h, a, n, room.core.ring, refused);
    }
  }

  /** With fewer pages in use the main chunk still has the room it had. */
  lemma MoreRoom(s0: State, s: State, n: nat)
    requires CoreOk(s0) && CoreOk(s) && s.main == s0.main && NoNewRuns(s0, s) && n > 0
    ensures NoRoom(s, s.main, n) ==> NoRoom(s0, s0.main, n)
  {
    hide LayoutOk, BlocksOk, CountersZero, ChunkOk, NoCounters, TableOk, BestFit.FreeRun, BestFit.NoFit;
    LastInRing(s0);
    LastInRing(s);
    ChunkOfRing(s0, s0.main);
    ChunkOfRing(s, s.main);
    assert MainOwn(s) == s.own[s.main] && MainOwn(s0) == s0.own[s.main];
    if NoRoom(s, s.main, n) {
      MoreFits(s0.chunks[s0.main], s0.own[s0.main], s0.L, s.chunks[s.main], s.own[s.main], s.L, n);
    }
  }

  lemma MoreFits(c0: Chunk, own0: Owners, L0: nat, c: Chunk, own: Owners, L: nat, n: nat)
    requires ChunkOk(c0, own0, L0) && ChunkOk(c, own, L) && L0 > 0 && L > 0 && n > 0
    requires forall i | 0 <= i < |own| && own[i] > 0 :: i < |own0| && own0[i] == own[i]
    requires BestFit.NoFit(c.freeMap, L, n)
    ensures BestFit.NoFit(c0.freeMap, L0, n)
  {
    hide Partition, HeadsBefore, FreeCount, Used, Wellformed, Pages;
    OwnersLength(c0, own0, L0);
    OwnersLength(c, own, L);
    forall x: nat, y: nat | BestFit.FreeRun(c0.freeMap, L0, x, y) ensures y - x < n {
      OnlyFirst(c, own, L);
      forall i | x <= i < y ensures !Used(c.freeMap, L, i) {
        assert !Used(c0.freeMap, L0, i);
      }
      var s, e := BestFit.RunAround(c.freeMap, L, x, y);
    }
  }

  /** Page 0 alone is owned by the header. */
  lemma OnlyFirst(c: Chunk, own: Owners, L: nat)
    requires ChunkOk(c, own, L) && L > 0
    ensures Used(c.freeMap, L, 0) && |own| == PAGES == Pages(c.freeMap, L) && forall i | 0 < i < PAGES :: own[i] != 0
  {
    hide HeadsBefore, FreeCount, Used, Wellformed, Pages;
    OwnersLength(c, own, L);
  }

  /** The search begins in the main chunk. */
  lemma MainIsFirst(h: Heap, k: nat, n: nat, p: nat)
    requires Sound(h) && k < |h.core.ring| && NoneBefore(h.core, k, n) && BestRoom(h.core, h.core.ring[k], n, p)
    ensures h.core.ring[k] == h.core.main <==> !NoRoom(h.core, h.core.main, n)
  {
    hide BestFit.FreeRun, RegionsExact, RealSizeOk, ChunksOk, CacheUnused, CoreOk;
    assert k > 0 ==> NoRoom(h.core, h.core.ring[0], n);
  }

  lemma MainHasNone(h: Heap, n: nat)
    requires Sound(h) && NoneBefore(h.core, |h.core.ring|, n)
    ensures NoRoom(h.core, h.core.main, n)
  {
    hide NoRoom, RegionsExact, RealSizeOk, ChunksOk, CacheUnused, CoreOk;
    assert NoRoom(h.core, h.core.ring[0], n);
  }

  /**
   * What it means for the main chunk that n pages were found in chunk a: it is the main one just
   * when that has room; without a collection no run of it goes, and after one no dead run is left.
   */
  ghost predicate MainShare(h0: Heap, h: Heap, a: Address, n: nat, refused: bool) {
    && (a == h0.core.main <==> !NoRoom(h0.core, h0.core.main, n))
    && if NoChunkHasRoom(h0, n) && Collects(h0, refused) then DeadGone(h0.core, h.core) else RunsStay(h0.core, h.core)
  }

  /** A new chunk is needed, and none is cached. */
  ghost predicate NoChunkHasRoom(h: Heap, n: nat) {
    NoneBefore(h.core, |h.core.ring|, n) && h.core.cached == []
  }

  lemma RoomFound(h: Heap, k: nat, n: nat, a: Address, p: nat)
    requires k < |h.core.ring| && h.core.ring[k] == a && BestRoom(h.core, a, n, p)
    ensures !NoChunkHasRoom(h, n)
  {
    hide BestFit.FreeRun;
    assert !NoRoom(h.core, h.core.ring[k], n);
  }
}
