// What a valid heap promises about the memory it hands out: live blocks do not overlap, lie in
// mapped memory outside every header page, and no slot is both live and free.
module HeapSafety {
  import opened Sizes
  import opened PageInfo
  import opened Addresses
  import opened ChunkPages
  import opened Blocks
  import opened BlockSteps
  import opened GcSpec
  import opened GcCount
  import opened Ring
  import opened Regions
  import opened HeapInv
  import opened HeapChunks
  import opened GcRing
  import opened HeapPages
  import opened HeapBlocks
  import opened HeapHuge

  // ---- where blocks lie -----------------------------------------------------------------------------

  /** A block inside a chunk: past the header page of a chunk of the ring. */
  ghost predicate InChunk(s: State, p: Address, n: nat) {
    && Base(p) in s.ring && Base(p) in s.mapped && s.mapped[Base(p)] == CHUNK
    && Base(p) + PAGE <= p && p + n <= Base(p) + CHUNK
  }

  /** A block that is a region of its own. */
  ghost predicate OwnRegion(s: State, p: Address, n: nat) {
    p in s.huge && p in s.mapped && s.mapped[p] == n
  }

  lemma BlockPlace(s: State, p: Address, n: nat)
    requires CoreOk(s) && BlockOf(T(s), map[], p, n)
    ensures InChunk(s, p, n)
  {
    hide ListsOk, NothingLost, LiveOk, CountersZero, RealSizeOk, SpaceOk, BlockOf, TablesOk, Inside;
    var h := HeadOfBlock(T(s), p, n);
    InsideChunk(T(s), p, n, h);
    OwnedPage(s, p, n, h);
    RunInRing(s, Base(p), PageNum(p));
    RingInChunks(s);
  }

  lemma OwnedPage(s: State, p: Address, n: nat, h: nat)
    requires CoreOk(s) && Inside(T(s), p, n, h)
    ensures Base(p) in T(s) && |s.own[Base(p)]| == PAGES && 0 < PageNum(p) < PAGES && s.own[Base(p)][PageNum(p)] > 0
  {
    hide ListsOk, NothingLost, LiveOk, CountersZero, LayoutOk;
    assert TableOk(Base(p), T(s)[Base(p)]);
  }

  /** Every live block is a chunk block or a huge block. */
  lemma LiveKind(s: State, p: Address)
    requires CoreOk(s) && p in s.live
    ensures Offset(p) == 0 ==> p in s.huge && s.huge[p] == s.live[p]
    ensures Offset(p) != 0 ==> BlockOf(T(s), map[], p, s.live[p])
  {
    hide LayoutOk, ListsOk, NothingLost, CountersZero, TablesOk, SlotOf, LargeOf;
    AlignedNotBlock(s, p);
    assert BlockOf(T(s), s.huge, p, s.live[p]);
  }

  lemma AlignedNotBlock(s: State, p: Address)
    requires CoreOk(s)
    ensures Offset(p) == 0 ==> forall b: nat :: !SlotOf(T(s), p, b)
    ensures Offset(p) == 0 ==> forall n: nat :: !LargeOf(T(s), p, n)
  {
    hide LayoutOk, ListsOk, NothingLost, LiveOk, CountersZero, TablesOk, SlotOf, LargeOf;
    if Offset(p) == 0 {
      AlignedNotInChunk(T(s), p);
    }
  }

  /** Live blocks lie inside mapped memory, and outside the header page of every chunk. */
  lemma LiveIsMapped(s: State, p: Address)
    requires CoreOk(s) && p in s.live
    ensures if Offset(p) == 0 then OwnRegion(s, p, s.live[p]) else InChunk(s, p, s.live[p])
  {
    hide BlocksOk, CountersZero, SpaceOk, RealSizeOk, InChunk;
    LiveKind(s, p);
    if Offset(p) != 0 {
      BlockPlace(s, p, s.live[p]);
    }
  }

  lemma RegionsDiffer(s: State, p: Address, q: Address)
    requires CoreOk(s) && p in s.mapped && q in s.mapped && p != q
    ensures Apart(p, s.mapped[p], q, s.mapped[q])
  {
    hide BlocksOk, CountersZero, SpaceOk, RealSizeOk;
  }

  lemma HugeNotChunk(s: State, p: Address, q: Address)
    requires CoreOk(s) && p in s.huge && q in s.ring
    ensures p != q
  {
    hide BlocksOk, CountersZero, RealSizeOk;
    RingInChunks(s);
    hide SpaceOk;
  }

  /** Two different live blocks do not overlap, whatever their kinds. */
  lemma LiveApart(s: State, p: Address, q: Address)
    requires CoreOk(s) && p in s.live && q in s.live && p != q
    ensures Apart(p, s.live[p], q, s.live[q])
  {
    hide CoreOk, BlockOf;
    LiveIsMapped(s, p);
    LiveIsMapped(s, q);
    LiveKind(s, p);
    LiveKind(s, q);
    if Offset(p) != 0 && Offset(q) != 0 {
      TablesFine(s);
      ChunkBlocksApart(T(s), p, s.live[p], q, s.live[q]);
    } else if Offset(p) == 0 && Offset(q) == 0 {
      RegionsDiffer(s, p, q);
    } else if Offset(p) == 0 {
      HugeNotChunk(s, p, Base(q));
      RegionsDiffer(s, p, Base(q));
    } else {
      HugeNotChunk(s, q, Base(p));
      RegionsDiffer(s, q, Base(p));
    }
  }

  lemma TablesFine(s: State)
    requires CoreOk(s)
    ensures TablesOk(T(s)) && |s.free| == BINS
  {
    hide LayoutOk, NothingLost, LiveOk, CountersZero, TablesOk;
  }

  // ---- slots --------------------------------------------------------------------------------------------

  /** How often p stands on the free lists. */
  ghost predicate FreeOnce(free: Lists, p: Address, b: nat) {
    && b < |free| && (exists i :: 0 <= i < |free[b]| && free[b][i] == p)
    && (forall i, j | 0 <= i < j < |free[b]| :: free[b][i] != p || free[b][j] != p)
    && forall c | 0 <= c < |free| && c != b :: p !in free[c]
  }

  /** Each slot of each small run is live, or on its bin's list exactly once and on no other; never both. */
  lemma SlotLiveOrFree(s: State, p: Address, b: nat)
    requires CoreOk(s) && SlotOf(T(s), p, b)
    ensures p in s.live <==> !FreeOnce(s.free, p, b)
    ensures p in s.live <==> forall c | 0 <= c < |s.free| :: p !in s.free[c]
    ensures p in s.live ==> s.live[p] == BinSize(b)
  {
    hide LayoutOk, CountersZero, TablesOk, BinSize, SlotOf, LargeOf, BlockOf;
    TablesFine(s);
    SlotBin(T(s), p, b);
    forall c: nat | SlotOf(T(s), p, c) ensures c == b {
      SlotIsUnique(T(s), p, b, c);
    }
    if p in s.live {
      SlotSize(T(s), s.huge, s.live, p, b);
    }
  }

  /** A free slot overlaps no live block: the allocator's links stay clear of the program's data. */
  lemma FreeSlotApart(s: State, b: nat, p: Address, q: Address)
    requires CoreOk(s) && b < |s.free| && p in s.free[b] && q in s.live
    ensures b < BINS && Apart(p, BinSize(b), q, s.live[q]) && p != q
  {
    hide LayoutOk, CountersZero, TablesOk, BinSize, BlockOf, NothingLost, LiveOk;
    TablesFine(s);
    assert SlotOf(T(s), p, b) && p !in s.live;
    SlotBlock(T(s), p, b);
    hide BlocksOk, SlotOf;
    BlockPlace(s, p, BinSize(b));
    LiveKind(s, q);
    LiveIsMapped(s, q);
    if Offset(q) != 0 {
      ChunkBlocksApart(T(s), p, BinSize(b), q, s.live[q]);
    } else {
      HugeNotChunk(s, q, Base(p));
      RegionsDiffer(s, q, Base(p));
    }
  }

  // ---- the main chunk -------------------------------------------------------------------------------------

  /** A block inside the main chunk. */
  predicate InMain(s: State, p: Address) {
    Offset(p) != 0 && Base(p) == s.main
  }

  /** A live block, or a free slot, keeps its chunk in use. */
  lemma AnchorInUse(s: State, p: Address)
    requires CoreOk(s) && Anchor(s, p) && Offset(p) != 0
    ensures Base(p) in T(s) && !Unused(T(s)[Base(p)])
  {
    hide LayoutOk, BlockOf, Inside, BlocksOk, CountersZero, SlotOf;
    TablesFine(s);
    var n: nat := if p in s.live then s.live[p] else BinSize(0);
    if p in s.live {
      LiveKind(s, p);
    } else {
      FreeSlotOf(s, p);
      SlotBlock(T(s), p, 0);
    }
    var h := HeadOfBlock(T(s), p, n);
    OwnedPage(s, p, n, h);
  }

  lemma FreeSlotOf(s: State, p: Address)
    requires CoreOk(s) && |s.free| > 0 && p in s.free[0]
    ensures SlotOf(T(s), p, 0)
  {
    hide LayoutOk, NothingLost, LiveOk, CountersZero, TablesOk, SlotOf;
  }

  /** Something other than p, a live block or a slot of bin 0, keeps the main chunk in use. */
  ghost predicate AnchoredWithout(s: State, p: Address) {
    exists q :: q != p && Offset(q) != 0 && Base(q) == s.main && Anchor(s, q)
  }

  /** A block can be given back without emptying the main chunk if something else is there. */
  lemma OthersAnchor(h: Heap, p: Address)
    requires Sound(h) && p in h.core.live && AnchoredWithout(h.core, p) && Offset(p) != 0
    ensures !EmptiesMain(h.core, p)
  {
    hide LayoutOk, CoreOk, LargeOf, SlotOf, Unused, FreeRun, Fill;
    if EmptiesMain(h.core, p) {
      Decode(h.core, p);
      var a, i := Base(p), PageNum(p);
      var n := LrunPages(h.core.chunks[a].info[i]);
      GiveLarge(h, a, i, n);
      GivenCount(h, a, i, n);
      var h' := GivenLarge(h, a, i, n);
      GaveSound(h, h', p);
      EmptyChunk(h', a);
      var q :| q != p && Offset(q) != 0 && Base(q) == h.core.main && Anchor(h.core, q);
      assert Anchor(h'.core, q);
      AnchorInUse(h'.core, q);
    }
  }

  /** A slot is never the last run of its chunk to go. */
  lemma NotASlot(s: State, p: Address)
    requires CoreOk(s) && p in s.live && Offset(p) != 0 && EmptiesMain(s, p)
    ensures s.live[p] > MAX_SMALL && s.live[p] % 0x1000 == 0
  {
    hide CoreOk, LargeOf, SlotOf;
    Decode(s, p);
  }

  /** A large block of n pages is the run at its page. */
  lemma LargeRunAt(s: State, p: Address) returns (n: nat)
    requires CoreOk(s) && p in s.live && Offset(p) != 0 && s.live[p] > MAX_SMALL
    ensures var a := Base(p);
            && a in T(s) && a in s.chunks && |s.chunks[a].info| == PAGES && Offset(a) == 0 && 0 < PageNum(p) < PAGES
            && p == PageAddress(a, PageNum(p)) && LargeOf(T(s), p, n) && s.live[p] == n * 0x1000 && 0 < n
            && !IsSrun(s.chunks[a].info[PageNum(p)]) && LrunPages(s.chunks[a].info[PageNum(p)]) == n
  {
    hide CoreOk, LargeOf, SlotOf, IsSrun, SrunBin, LrunPages;
    Decode(s, p);
    var x := s.chunks[Base(p)].info[PageNum(p)];
    if IsSrun(x) {
      BinBound(SrunBin(x));
    }
    n := LrunPages(x);
  }

  lemma BinBound(b: nat)
    requires b < BINS
    ensures BinSize(b) <= MAX_SMALL
  {
  }

  /** Giving back a large block of the main chunk empties it just when no other run is there. */
  lemma OnlyRun(h: Heap, p: Address)
    requires Sound(h) && p in h.core.live && Offset(p) != 0 && Base(p) == h.core.main && h.core.live[p] > MAX_SMALL
    ensures EmptiesMain(h.core, p) <==>
              forall i | 0 <= i < |MainOwn(h.core)| && MainOwn(h.core)[i] > 0 :: MainOwn(h.core)[i] == PageNum(p)
    ensures h.core.live[p] == (PAGES - 1) * 0x1000 ==> EmptiesMain(h.core, p)
  {
    hide LayoutOk, CoreOk, LargeOf, IsSrun, LrunPages, Fill, Unused, TableOk;
    var n := LargeRunAt(h.core, p);
    var a, k := Base(p), PageNum(p);
    GiveLarge(h, a, k, n);
    GivenCount(h, a, k, n);
    var h' := GivenLarge(h, a, k, n);
    GaveSound(h, h', p);
    GivenUnused(h', a);
    LargeHead(h.core, a, k, n);
    ChunkOfRing(h.core, a);
    OwnedInRun(h.core.chunks[a], h.core.own[a], h.core.L, k, n);
    assert MainOwn(h.core) == h.core.own[a];
    OnlyOwner(h.core.own[a], h'.core.own[a], h'.core.chunks[a].info, k, n);
    assert T(h'.core)[a] == Table(h'.core.own[a], h'.core.chunks[a].info);
  }

  /** If nothing else keeps the main chunk in use, all its runs but that of p are dead. */
  lemma OthersDead(s: State, p: Address)
    requires CoreOk(s) && !AnchoredWithout(s, p) && PageNum(p) < |MainOwn(s)|
    ensures forall i | 0 <= i < |MainOwn(s)| && MainOwn(s)[i] > 0 ::
              MainOwn(s)[i] == MainOwn(s)[PageNum(p)] || Dead(T(s), s.free, s.main, MainOwn(s)[i])
  {
    hide LayoutOk, BlocksOk, CountersZero, Dead, Anchor;
    MainTable(s);
    forall i | 0 <= i < |MainOwn(s)| && MainOwn(s)[i] > 0 && !Dead(T(s), s.free, s.main, MainOwn(s)[i])
      ensures MainOwn(s)[i] == MainOwn(s)[PageNum(p)]
    {
      RunAnchor(s, i);
      var q :| Offset(q) != 0 && Base(q) == s.main && Anchor(s, q) && T(s)[s.main].own[PageNum(q)] == T(s)[s.main].own[i];
      assert q == p;
    }
  }

  lemma GivenUnused(h: Heap, a: Address)
    requires Tidy(h) && a in h.core.ring && a in h.core.chunks
    ensures a in T(h.core) && (h.core.chunks[a].freePages == PAGES - 1 <==> Unused(T(h.core)[a]))
  {
    hide RegionsExact, RealSizeOk, ChunkOk, RingOk, CacheUnused, Unused;
    CountTellsUnused(h.core.chunks, h.core.own, h.core.L, a);
  }

  lemma OwnedInRun(c: Chunk, own: Owners, L: nat, k: nat, n: nat)
    requires ChunkOk(c, own, L) && |own| == |c.info| == PAGES && 0 < k < PAGES && RunLen(c.info[k]) == n
    ensures own[0] == 0 && forall i | 0 < i < PAGES :: own[i] != 0
    ensures forall i | 0 <= i < PAGES && own[i] == k :: k <= i < k + n
  {
    hide SameBits, HeadsBefore, FreeCount;
  }

  lemma OnlyOwner(own: Owners, own': Owners, info: seq<nat>, k: nat, n: nat)
    requires |own| == |own'| == |info| == PAGES && own' == Fill(own, k, n, -1) && 0 < k && 0 < n && k + n <= PAGES
    requires own[0] == 0 && forall i | 0 < i < PAGES :: own[i] != 0
    requires forall i | 0 <= i < PAGES :: own[i] == k <==> k <= i < k + n
    ensures Unused(Table(own', info)) <==> forall i | 0 <= i < PAGES && own[i] > 0 :: own[i] == k
    ensures n == PAGES - 1 ==> Unused(Table(own', info))
  {
  }

  lemma GivenCount(h: Heap, a: Address, p: nat, n: nat)
    requires a in h.core.chunks && a in h.core.own && h.core.L > 0 && 0 < n && p < |h.core.chunks[a].info|
    ensures a in GivenLarge(h, a, p, n).core.chunks
    ensures GivenLarge(h, a, p, n).core.chunks[a].freePages == h.core.chunks[a].freePages + n
  {
  }
}
