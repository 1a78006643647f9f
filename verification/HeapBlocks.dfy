// Large runs, slots and huge blocks, and the byte counters that go with them.
module HeapBlocks {
  import opened Sizes
  import opened PageInfo
  import opened Addresses
  import opened PageBitset
  import opened Ring
  import opened ChunkPages
  import opened Blocks
  import opened BlockSteps
  import opened GcCount
  import opened Regions
  import opened HeapInv
  import opened HeapChunks
  import opened GcRing
  import opened HeapPages

  /** sizeof(zend_mm_huge_list), and the bin that serves it. */
  const NODE_SIZE: nat := 24
  const NODE_BIN: nat := 2

  /** size is what the live blocks add up to, apart from charges for aborted requests. */
  ghost predicate Accounts(h: Heap) {
    h.stats.size == Sum(h.core.live) + h.stats.lost && h.stats.size <= h.stats.peak && h.stats.lost >= 0
  }

  predicate IsNode(list: seq<HugeBlock>, p: Address) {
    exists i :: 0 <= i < |list| && list[i].node == p
  }

  ghost predicate Listed(list: seq<HugeBlock>, p: Address) {
    exists i :: 0 <= i < |list| && list[i].ptr == p
  }

  ghost predicate EntriesDiffer(list: seq<HugeBlock>) {
    forall i, j | 0 <= i < j < |list| :: list[i].ptr != list[j].ptr && list[i].node != list[j].node
  }

  /** The list describes each huge block with its size. */
  ghost predicate ListExact(list: seq<HugeBlock>, huge: Ledger) {
    && (forall i | 0 <= i < |list| :: list[i].ptr in huge && huge[list[i].ptr] == list[i].size)
    && forall p | p in huge :: Listed(list, p)
  }

  /** The nodes of the list are live small blocks. */
  ghost predicate NodesLive(list: seq<HugeBlock>, live: Ledger) {
    forall i | 0 <= i < |list| ::
      list[i].node in live && live[list[i].node] == NODE_SIZE && Offset(list[i].node) != 0
  }

  ghost predicate HugeOk(list: seq<HugeBlock>, huge: Ledger, live: Ledger) {
    EntriesDiffer(list) && ListExact(list, huge) && NodesLive(list, live)
  }

  ghost predicate Valid(h: Heap) {
    Sound(h) && Accounts(h) && HugeOk(h.hugeList, h.core.huge, h.core.live)
  }

  // ---- counting live bytes --------------------------------------------------------------------------------

  function Charge(s: Stats, n: int): Stats {
    s.(size := s.size + n, peak := Max(s.peak, s.size + n))
  }

  function Credit(s: Stats, n: int): Stats {
    s.(size := s.size - n)
  }

  lemma SoundStats(h: Heap, stats: Stats)
    requires Sound(h) && stats.realPeak == h.stats.realPeak
    requires stats.limit == h.stats.limit && stats.overflow == h.stats.overflow
    ensures Sound(h.(stats := stats))
  {
    hide LayoutOk, CoreOk;
  }

  // ---- large blocks ----------------------------------------------------------------------------------------

  /** A chunk with a run is in the ring. */
  lemma RunInRing(s: State, a: Address, i: nat)
    requires CoreOk(s) && a in T(s) && 0 < i < PAGES && |s.own[a]| == PAGES && s.own[a][i] > 0
    ensures a in s.ring
  {
    hide ChunksOk, RingOk, RegionsExact, RealSizeOk, BlocksOk, CountersZero;
  }

  /** zend_mm_free_pages_ex: the run goes back and its block leaves the ledger. */
  lemma CoreGive(s: State, a: Address, p: nat, n: nat)
    requires CoreOk(s) && a in s.ring && a in s.chunks && a in s.own && |s.own[a]| == |s.chunks[a].info| == PAGES
    requires s.L > 0 && 0 < n && 0 < p < PAGES && Offset(a) == 0 && LargeOf(T(s), PageAddress(a, p), n)
    ensures PageAddress(a, p) in s.live && s.live[PageAddress(a, p)] == n * 0x1000
    ensures var s' := WithChunk(s, a, FreeRun(s.chunks[a], p, n, s.L), Fill(s.own[a], p, n, -1))
                        .(live := s.live - {PageAddress(a, p)});
            CoreOk(s')
  {
    hide LayoutOk, BlocksOk, CountersZero, ChunkOk, NoCounters, TableOk, Fill, ResetRange, LargeOf;
    ChunkOfRing(s, a);
    var c, own := s.chunks[a], s.own[a];
    LargeHead(s, a, p, n);
    FreeRunOk(c, own, s.L, p);
    var c', own' := FreeRun(c, p, n, s.L), Fill(own, p, n, -1);
    LayoutWith(s, a, c', own');
    var y := Table(own', c'.info);
    assert c'.info == c.info[p := 0];
    TakenTable(s, a, c', own');
    PutCounters(T(s), a, y);
    RemoveLarge(T(s), a, y, p, n, s.free, s.huge, s.live);
    LiveLarge(s, PageAddress(a, p), n);
    LayoutLive(WithChunk(s, a, c', own'), s.live - {PageAddress(a, p)});
  }

  lemma LargeHead(s: State, a: Address, p: nat, n: nat)
    requires CoreOk(s) && a in T(s) && 0 < p < PAGES && Offset(a) == 0 && LargeOf(T(s), PageAddress(a, p), n)
    requires |s.own[a]| == |s.chunks[a].info| == PAGES
    ensures Head(s.own[a], p) && RunLen(s.chunks[a].info[p]) == n && !IsSrun(s.chunks[a].info[p])
    ensures LrunPages(s.chunks[a].info[p]) == n && 0 < n && p + n <= PAGES
    ensures forall j | p <= j < p + n :: s.own[a][j] == p
  {
    hide LayoutOk, ListsOk, NothingLost, LiveOk, CountersZero, TableOk, RunLen, IsSrun, LrunPages;
    LocatePage(a, p);
    LargeEntry(T(s), PageAddress(a, p), n);
  }

  lemma LiveLarge(s: State, p: Address, n: nat)
    requires CoreOk(s) && LargeOf(T(s), p, n) && p in s.live
    ensures s.live[p] == n * 0x1000
  {
    hide LayoutOk, ListsOk, NothingLost, LiveOk, CountersZero, TablesOk, LargeOf;
    LargeSize(T(s), s.huge, s.live, p, n);
  }

  /** Huge blocks, their list and the settings are untouched. */
  ghost predicate SameHuge(h0: Heap, h: Heap) {
    && h.hugeList == h0.hugeList && h.core.huge == h0.core.huge && h.core.leaked == h0.core.leaked
    && h.core.L == h0.core.L && h.core.main == h0.core.main
  }

  /** Free slots of bin 0 stay free or become live. */
  ghost predicate ZerosKept(h0: Heap, h: Heap) {
    |h.core.free| == |h0.core.free| > 0 && forall q | q in h0.core.free[0] :: q in h.core.free[0] || q in h.core.live
  }

  /** A block of n bytes was handed out and charged for; what else is live is as it was. */
  ghost predicate Got(h0: Heap, h: Heap, p: Address, n: nat) {
    && Sound(h) && SameHuge(h0, h) && Offset(p) != 0 && ZerosKept(h0, h)
    && p !in h0.core.live && h.core.live == h0.core.live[p := n]
    && (Base(p) != h0.core.main ==> NoNewRuns(h0.core, h.core)) && ChunkPeakFollows(h0, h)
    && h.stats == Charge(h0.stats, n).(realPeak := h.stats.realPeak) && RealPeakFollows(h0, h)
  }

  /** The block at p was taken back and credited; what else is live is as it was.  Chunk a may be without a run. */
  ghost predicate GaveBut(h0: Heap, h: Heap, p: Address, a: Address) {
    && SoundBut(h, a) && SameHuge(h0, h) && h.core.realSize <= h0.core.realSize
    && h.counters.avg == h0.counters.avg && h.counters.peakChunks == h0.counters.peakChunks
    && p in h0.core.live && h.core.live == h0.core.live - {p}
    && h.stats == Credit(h0.stats, h0.core.live[p])
  }

  ghost predicate Gave(h0: Heap, h: Heap, p: Address) {
    GaveBut(h0, h, p, h.core.main)
  }

  lemma GotLarge(h0: Heap, h: Heap, a: Address, p: nat, n: nat)
    requires GotPages(h0, h, a, p, n)
    ensures Got(h0, h.(stats := Charge(h.stats, n * 0x1000)), PageAddress(a, p), n * 0x1000)
    ensures Base(PageAddress(a, p)) == a
  {
    hide LayoutOk, CoreOk, LargeOf;
    SoundStats(h, Charge(h.stats, n * 0x1000));
    LocatePage(a, p);
  }

  /** ZEND_MM_SIZE_TO_NUM for pages. */
  function PagesFor(size: nat): (n: nat)
    ensures n * 0x1000 >= size && (size > 0 ==> (n - 1) * 0x1000 < size)
  {
    (size + 0xfff) / 0x1000
  }

  /** zend_mm_alloc_large */
  method AllocLarge(h0: Heap, size: nat)
      returns (ok: bool, h: Heap, ptr: Address, ruined: bool, ghost refused: bool)
    requires Sound(h0) && MAX_SMALL < size <= MAX_LARGE
    ensures ruined <==> !Anchored(h0.core) && NoChunkHasRoom(h0, PagesFor(size)) && Collects(h0, refused)
    ensures ruined ==> Ruined(h)
    ensures refused ==> NoChunkHasRoom(h0, PagesFor(size))
    ensures !ruined && ok ==> Got(h0, h, ptr, PagesFor(size) * 0x1000)
    ensures !ruined && !ok ==> Steady(h0, h) && NoChunkHasRoom(h0, PagesFor(size))
    ensures !ruined && !ok ==> GaveUp(h, refused) && Collects(h0, refused)
    ensures !ruined ==> WithinLimit(h0, h)
    ensures !NoRoom(h0.core, h0.core.main, PagesFor(size)) ==> ok && !ruined
    ensures !ruined && ok ==> MainShare(h0, h, Base(ptr), PagesFor(size), refused)
    ensures !ruined && ok ==> RingTaken(h0, h, Base(ptr), PagesFor(size), refused)
  {
    hide LayoutOk, CoreOk, Sound, Steady, Anchored, Got, GotPages;
    hide NoneBefore, Placed, Ruined, NoChunkHasRoom, Collects;
    hide NoRoom, NoNewRuns, DeadGone, GaveUp, RingLeft, Reordered;
    var pages := PagesFor(size);
    var a, p;
    ok, h, a, p, ruined, refused := AllocPages(h0, pages);
    ptr := PageAddress(a, p);
    if !ruined && ok {
      GotLarge(h0, h, a, p, pages);
      h := h.(stats := Charge(h.stats, pages * 0x1000));
    }
  }

  lemma LayoutFree(s: State, free: Lists)
    requires LayoutOk(s)
    ensures LayoutOk(s.(free := free)) && T(s.(free := free)) == T(s)
  {
    hide SpaceOk, RegionsExact, RealSizeOk;
  }

  lemma PlaceInRing(s: State, a: Address)
    requires LayoutOk(s) && a in s.ring
    ensures exists k :: 0 <= k < |s.ring| && s.ring[k] == a
    ensures s.ring[0] == s.main
  {
  }

  /** What giving back a run needs to know, and what it leaves behind. */
  lemma GiveLarge(h: Heap, a: Address, p: nat, n: nat)
    requires Sound(h) && a in T(h.core) && 0 < p < PAGES && Offset(a) == 0 && LargeOf(T(h.core), PageAddress(a, p), n)
    ensures a in h.core.ring && a in h.core.chunks && a in h.core.own && h.core.L > 0 && 0 < n
    ensures |h.core.own[a]| == |h.core.chunks[a].info| == PAGES
    ensures var h' := GivenLarge(h, a, p, n);
            && GaveBut(h, h', PageAddress(a, p), a) && h'.core.ring == h.core.ring
            && (h'.core.chunks[a].freePages != PAGES - 1 ==> Gave(h, h', PageAddress(a, p)))
  {
    hide LayoutOk, CoreOk, LargeOf, ResetRange, Fill, BusyBut, TablesOf;
    CoreIsTidy(h.core);
    LayoutFacts(h.core);
    LargeHead(h.core, a, p, n);
    RunInRing(h.core, a, p);
    CoreGive(h.core, a, p, n);
    LocatePage(a, p);
    CoreIsTidy(GivenLarge(h, a, p, n).core);
    GivenBut(h, a, p, n);
    GivenBusy(GivenLarge(h, a, p, n).core, a);
  }

  /** A chunk with fewer than 511 free pages has a run. */
  lemma GivenBusy(s: State, a: Address)
    requires LayoutOk(s) && a in s.chunks
    ensures s.chunks[a].freePages != PAGES - 1 && BusyBut(s, a) ==> BusyBut(s, s.main)
  {
    hide RegionsExact, RealSizeOk, ChunkOk, RingOk, Places, CacheUnused, HasRun;
    CountTellsUnused(s.chunks, s.own, s.L, a);
    if s.chunks[a].freePages != PAGES - 1 {
      RunOfChunk(s.chunks[a], s.own[a], s.L);
    }
  }

  lemma GivenBut(h: Heap, a: Address, p: nat, n: nat)
    requires a in h.core.chunks && a in h.core.own && h.core.L > 0 && 0 < n && p < |h.core.chunks[a].info|
    requires BusyBut(h.core, h.core.main)
    ensures BusyBut(GivenLarge(h, a, p, n).core, a)
  {
    hide HasRun, FreeRun, Fill;
  }

  lemma RunOfChunk(c: Chunk, own: Owners, L: nat)
    requires ChunkOk(c, own, L) && !Unused(Table(own, c.info))
    ensures HasRun(own)
  {
    hide SameBits, FreeCount, HeadsBefore;
    OwnersLength(c, own, L);
    var i :| 0 < i < PAGES && own[i] >= 0;
    assert own[i] != 0;
  }

  function GivenLarge(h: Heap, a: Address, p: nat, n: nat): Heap
    requires a in h.core.chunks && a in h.core.own && h.core.L > 0 && 0 < n && p < |h.core.chunks[a].info|
  {
    h.(core := WithChunk(h.core, a, FreeRun(h.core.chunks[a], p, n, h.core.L), Fill(h.core.own[a], p, n, -1))
                 .(live := h.core.live - {PageAddress(a, p)}),
       stats := Credit(h.stats, n * 0x1000))
  }

  /**
   * zend_mm_free_large: the run goes back, and its chunk too when it was the last one.  All is as it
   * should be if and only if that chunk is not the main one.
   */
  method FreeLarge(h0: Heap, a: Address, p: nat, n: nat) returns (h: Heap)
    requires Sound(h0) && a in T(h0.core) && 0 < p < PAGES && Offset(a) == 0
    requires LargeOf(T(h0.core), PageAddress(a, p), n)
    ensures a in h0.core.chunks && (Gave(h0, h, PageAddress(a, p)) <==> !(a == h0.core.main && LastRun(h0.core, a, n)))
    ensures a == h0.core.main && LastRun(h0.core, a, n) ==> Ruined(h)
    ensures if LastRun(h0.core, a, n)
            then exists k :: 0 <= k < |h0.core.ring| && h0.core.ring[k] == a && h.core.ring == Without(h0.core.ring, k)
            else h.core.ring == h0.core.ring
  {
    hide LayoutOk, CoreOk, LargeOf, ResetRange, Fill, Sound, TablesOf, Gave, GaveBut, Unused, OnlyUnusedGone, Tidy, MainGone;
    hide Fate, OlderStays, KeepsChunk, Without;
    GiveLarge(h0, a, p, n);
    h := GivenLarge(h0, a, p, n);
    if h.core.chunks[a].freePages == PAGES - 1 {
      GaveTidy(h0, h, PageAddress(a, p), a);
      ghost var before := h;
      EmptyChunk(h, a);
      var k :| 0 <= k < |h.core.ring| && h.core.ring[k] == a;
      h := DeleteChunk(h, a, k);
      if k > 0 {
        NotFirst(before, k);
        GaveDeleted(h0, before, h, PageAddress(a, p), a, k);
      } else {
        NotGiven(h0, h, PageAddress(a, p));
      }
    }
  }

  /** A run of n pages is the only one of chunk a: with it gone, 511 pages are free. */
  predicate LastRun(s: State, a: Address, n: nat) {
    a in s.chunks && s.chunks[a].freePages + n == PAGES - 1
  }

  lemma NotFirst(h: Heap, k: nat)
    requires Tidy(h) && 0 < k < |h.core.ring|
    ensures h.core.ring[k] != h.core.main
  {
    hide RegionsExact, RealSizeOk, ChunksOk, CacheUnused, Places;
  }

  lemma NotGiven(h0: Heap, h: Heap, p: Address)
    requires !Tidy(h)
    ensures !Gave(h0, h, p)
  {
    hide LayoutOk, CoreOk;
  }

  lemma GaveTidy(h0: Heap, h: Heap, p: Address, a: Address)
    requires GaveBut(h0, h, p, a)
    ensures Tidy(h) && CoreOk(h.core) && h.core.main == h0.core.main
  {
    hide LayoutOk, CoreOk;
  }

  lemma GaveSound(h0: Heap, h: Heap, p: Address)
    requires Gave(h0, h, p)
    ensures Sound(h) && Tidy(h) && h.core.main == h0.core.main
  {
    hide LayoutOk, CoreOk;
  }

  lemma EmptyChunk(h: Heap, a: Address)
    requires Tidy(h) && a in h.core.ring && a in h.core.chunks && h.core.chunks[a].freePages == PAGES - 1
    ensures a in T(h.core) && Unused(T(h.core)[a])
    ensures exists k :: 0 <= k < |h.core.ring| && h.core.ring[k] == a
    ensures |h.core.ring| > 0 && h.core.ring[0] == h.core.main
  {
    hide RegionsExact, RealSizeOk, ChunkOk, RingOk, CacheUnused, Unused;
    CountTellsUnused(h.core.chunks, h.core.own, h.core.L, a);
    PlaceInRing(h.core, a);
    assert |h.core.ring| > 0;
  }

  lemma GaveDeleted(h0: Heap, h1: Heap, h: Heap, p: Address, a: Address, k: nat)
    requires GaveBut(h0, h1, p, a) && Tidy(h) && SameBlocks(h1, h) && OnlyUnusedGone(T(h1.core), T(h.core))
    requires 0 < k < |h1.core.ring| && h1.core.ring[k] == a && h.core.ring == Without(h1.core.ring, k)
    requires SameChunks(h1.core, h.core) && h.core.realSize <= h1.core.realSize
    requires h.counters.avg == h1.counters.avg && h.counters.peakChunks == h1.counters.peakChunks
    ensures Gave(h0, h, p)
  {
    hide LayoutOk, BlocksOk, CountersZero, OnlyUnusedGone, TablesOf, BusyBut, Without;
    GoneKeepsBlocks(T(h1.core), T(h.core), h1.core.free, h1.core.huge, h1.core.live);
    DeletedBusy(h1.core, h.core, k);
  }

  lemma WithoutMember(ring: seq<Address>, k: nat, c: Address)
    requires Distinct(ring) && k < |ring| && c in Without(ring, k)
    ensures c in ring && c != ring[k]
  {
    var i :| 0 <= i < |ring| - 1 && Without(ring, k)[i] == c;
    assert ring[if i < k then i else i + 1] == c;
  }

  lemma RingDistinct(s: State)
    requires LayoutOk(s)
    ensures Distinct(s.ring)
  {
    hide ChunksOk, RegionsExact, RealSizeOk, CacheUnused, Places;
  }

  /** With the idle chunk gone, every chunk has a run. */
  lemma DeletedBusy(s: State, s': State, k: nat)
    requires LayoutOk(s) && LayoutOk(s') && 0 < k < |s.ring| && BusyBut(s, s.ring[k]) && s'.ring == Without(s.ring, k)
    requires s'.main == s.main && SameChunks(s, s')
    ensures BusyBut(s', s'.main)
  {
    hide LayoutOk, HasRun, Without, Distinct;
    RingDistinct(s);
    LayoutFacts(s');
    forall c | c in s'.ring && c != s'.main ensures c in s'.own && HasRun(s'.own[c]) {
      WithoutMember(s.ring, k, c);
    }
  }
}
