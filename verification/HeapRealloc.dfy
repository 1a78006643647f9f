// zend_mm_realloc_heap: in place when it can be, by a new block and a copy when it cannot.
module HeapRealloc {
  import opened Sizes
  import opened PageInfo
  import opened PageBitset
  import opened Addresses
  import opened ChunkPages
  import opened Blocks
  import opened BlockSteps
  import opened GcSpec
  import opened GcCount
  import opened Regions
  import opened HeapInv
  import opened HeapChunks
  import opened GcRing
  import opened HeapPages
  import opened HeapBlocks
  import opened HeapHuge
  import opened HeapRequests
  import opened HeapSafety
  import opened Memory

  // ---- large runs in place ------------------------------------------------------------------------------

  /** A large run of n pages at page p of chunk a, with its chunk and its size. */
  ghost predicate LargeHere(s: State, a: Address, p: nat, n: nat) {
    && CoreOk(s) && a in s.ring && a in s.chunks && a in s.own && s.L > 0
    && |s.own[a]| == |s.chunks[a].info| == PAGES && 0 < p < PAGES && Offset(a) == 0
    && LargeOf(T(s), PageAddress(a, p), n) && a in T(s)
  }

  function Shrunk(s: State, a: Address, p: nat, n: nat, m: nat): State
    requires a in s.chunks && a in s.own && s.L > 0 && 0 < m < n && p < |s.chunks[a].info|
  {
    WithChunk(s, a, ShrinkRun(s.chunks[a], p, n, m, s.L), Fill(s.own[a], p + m, n - m, -1))
      .(live := s.live[PageAddress(a, p) := m * 0x1000])
  }

  function Grown(s: State, a: Address, p: nat, n: nat, m: nat): State
    requires a in s.chunks && a in s.own && s.L > 0 && 0 < n < m && p < |s.chunks[a].info|
  {
    WithChunk(s, a, GrowRun(s.chunks[a], p, n, m, s.L), Fill(s.own[a], p + n, m - n, p))
      .(live := s.live[PageAddress(a, p) := m * 0x1000])
  }

  lemma ShrunkOwners(own: Owners, own': Owners, p: nat, n: nat, m: nat)
    requires |own| == PAGES && 0 < m < n && own' == Fill(own, p + m, n - m, -1)
    requires forall i | p <= i < p + n :: 0 <= i < PAGES && own[i] == p
    ensures |own'| == PAGES && forall i | 0 <= i < PAGES ::
              own'[i] == if p <= i < p + m then p else if p <= i < p + n then -1 else own[i]
  {
  }

  lemma GrownOwners(own: Owners, own': Owners, p: nat, n: nat, m: nat)
    requires |own| == PAGES && 0 < n < m && own' == Fill(own, p + n, m - n, p)
    requires forall i | p <= i < p + n :: 0 <= i < PAGES && own[i] == p
    ensures |own'| == PAGES && forall i | 0 <= i < PAGES ::
              own'[i] == if p <= i < p + m then p else if p <= i < p + n then -1 else own[i]
  {
  }

  lemma CoreShrink(s: State, a: Address, p: nat, n: nat, m: nat)
    requires LargeHere(s, a, p, n) && 0 < m < n
    ensures PageAddress(a, p) in s.live && s.live[PageAddress(a, p)] == n * 0x1000
    ensures CoreOk(Shrunk(s, a, p, n, m)) && (BusyBut(s, s.main) ==> BusyBut(Shrunk(s, a, p, n, m), s.main))
  {
    hide LayoutOk, BlocksOk, CountersZero, ChunkOk, NoCounters, TableOk, Fill;
    hide ResetRange, LargeOf, Lrun, RunLen, IsSrun, LrunPages;
    ChunkOfRing(s, a);
    var c, own := s.chunks[a], s.own[a];
    LargeHead(s, a, p, n);
    ShrinkRunOk(c, own, s.L, p, m);
    var c', own' := ShrinkRun(c, p, n, m, s.L), Fill(own, p + m, n - m, -1);
    ShrunkOwners(own, own', p, n, m);
    CoreResize(s, a, p, n, m, c', own');
    ResizedBusy(s, a, p, c', own');
  }

  lemma CoreGrow(s: State, a: Address, p: nat, n: nat, m: nat)
    requires LargeHere(s, a, p, n) && 0 < n < m && p + m <= PAGES
    requires forall i | p + n <= i < p + m :: s.own[a][i] < 0
    ensures PageAddress(a, p) in s.live && s.live[PageAddress(a, p)] == n * 0x1000
    ensures CoreOk(Grown(s, a, p, n, m)) && (BusyBut(s, s.main) ==> BusyBut(Grown(s, a, p, n, m), s.main))
  {
    hide LayoutOk, BlocksOk, CountersZero, ChunkOk, NoCounters, TableOk, Fill;
    hide SetRange, LargeOf, Lrun, RunLen, IsSrun, LrunPages;
    ChunkOfRing(s, a);
    var c, own := s.chunks[a], s.own[a];
    LargeHead(s, a, p, n);
    GrowRunOk(c, own, s.L, p, m);
    var c', own' := GrowRun(c, p, n, m, s.L), Fill(own, p + n, m - n, p);
    GrownOwners(own, own', p, n, m);
    CoreResize(s, a, p, n, m, c', own');
    ResizedBusy(s, a, p, c', own');
  }

  /** What shrinking and growing have in common. */
  lemma CoreResize(s: State, a: Address, p: nat, n: nat, m: nat, c': Chunk, own': Owners)
    requires LargeHere(s, a, p, n) && 0 < n && 0 < m && n != m && p + m <= PAGES
    requires ChunkOk(c', own', s.L) && |own'| == |c'.info| == PAGES && NoCounters(own', c'.info)
    requires c'.info == s.chunks[a].info[p := Lrun(m)]
    requires forall i | p + n <= i < p + m :: s.own[a][i] < 0
    requires forall i | 0 <= i < PAGES ::
               own'[i] == if p <= i < p + m then p else if p <= i < p + n then -1 else s.own[a][i]
    ensures PageAddress(a, p) in s.live && s.live[PageAddress(a, p)] == n * 0x1000
    ensures CoreOk(WithChunk(s, a, c', own').(live := s.live[PageAddress(a, p) := m * 0x1000]))
  {
    hide LayoutOk, BlocksOk, CountersZero, ChunkOk, NoCounters, TableOk, LargeOf, Lrun;
    ChunkOfRing(s, a);
    LayoutWith(s, a, c', own');
    TakenTable(s, a, c', own');
    PutCounters(T(s), a, Table(own', c'.info));
    ResizeLarge(T(s), a, Table(own', c'.info), p, n, m, s.free, s.huge, s.live);
    LayoutLive(WithChunk(s, a, c', own'), s.live[PageAddress(a, p) := m * 0x1000]);
  }

  lemma ResizedBusy(s: State, a: Address, p: nat, c': Chunk, own': Owners)
    requires 0 < p < |own'| && own'[p] == p && a in s.chunks && a in s.own
    ensures BusyBut(s, s.main) ==> BusyBut(WithChunk(s, a, c', own'), s.main)
  {
  }

  // ---- what a resize means to the program -----------------------------------------------------------------

  /** The program's block at p has n bytes now; its other blocks are as they were. */
  ghost predicate Resized(h0: Heap, h: Heap, p: Address, n: nat) {
    && Valid(h) && SameSettings(h0, h) && p in Users(h0) && Users(h) == Users(h0)[p := n]
    && (forall q | q in h0.core.live && q != p :: q in h.core.live && h.core.live[q] == h0.core.live[q])
    && NothingLeaks(h0, h, n - Users(h0)[p]) && PeaksFollow(h0, h) && h.counters.peakChunks == h0.counters.peakChunks
  }

  /** size follows the block's size, and the peak follows size. */
  ghost predicate Recounted(was: Stats, now: Stats, d: int) {
    && now == was.(size := was.size + d, peak := now.peak)
    && now.peak == Max(was.peak, now.size)
  }

  lemma ResizedInChunk(h0: Heap, h: Heap, p: Address, n: nat)
    requires Valid(h0) && p in Users(h0) && CoreOk(h.core) && BusyBut(h.core, h.core.main)
    requires h.counters == h0.counters && h.hugeList == h0.hugeList
    requires Recounted(h0.stats, h.stats, n - h0.core.live[p])
    requires h.core == h0.core.(chunks := h.core.chunks, own := h.core.own, live := h0.core.live[p := n])
    ensures Resized(h0, h, p, n)
  {
    hide LayoutOk, BlocksOk, CountersZero, EntriesDiffer, ListExact, Sum;
    SumChange(h0.core.live, p, n);
    CoreIsTidy(h.core);
    HugeFrame(h0.hugeList, h0.core.huge, h0.core.live, h.core.live);
  }

  /** The list entry and the counters after a change of a huge block's size. */
  function HugeOfSize(h: Heap, k: nat, n: nat): Heap
    requires k < |h.hugeList| && h.hugeList[k].ptr in h.core.huge
  {
    var before := h.hugeList[k].size;
    var s := ResizedHuge(h.core, h.hugeList[k].ptr, n);
    Heap(s, h.counters,
         if n < before then Credit(h.stats, before - n)
         else Charge(h.stats, n - before).(realPeak := Max(h.stats.realPeak, h.core.realSize + n - before)),
         Retag(h.hugeList, k, n))
  }

  lemma HugeSized(h: Heap, k: nat, n: nat)
    requires Valid(h) && k < |h.hugeList| && h.hugeList[k].ptr in Users(h) && Offset(h.hugeList[k].ptr) == 0 && n > 0
    requires forall q | q in h.core.mapped && q != h.hugeList[k].ptr :: Apart(h.hugeList[k].ptr, n, q, h.core.mapped[q])
    requires n > h.hugeList[k].size ==> h.core.realSize + n - h.hugeList[k].size <= h.stats.limit || h.stats.overflow
    ensures h.hugeList[k].ptr in h.core.huge && Resized(h, HugeOfSize(h, k, n), h.hugeList[k].ptr, n)
  {
    hide LayoutOk, BlocksOk, CountersZero, EntriesDiffer, NodesLive, Sum, Retag, Listed;
    var p := h.hugeList[k].ptr;
    HugeUser(h, p);
    CoreResizeHuge(h.core, p, n);
    CoreIsTidy(ResizedHuge(h.core, p, n));
    SumChange(h.core.live, p, n);
    HugeRetag(h.hugeList, h.core.huge, h.core.live, k, n);
    RetagUsers(h, k, n);
    hide Users, ListExact;
  }

  lemma RetagUsers(h: Heap, k: nat, n: nat)
    requires k < |h.hugeList| && h.hugeList[k].ptr in Users(h) && h.hugeList[k].ptr in h.core.huge
    ensures Users(HugeOfSize(h, k, n)) == Users(h)[h.hugeList[k].ptr := n]
  {
    forall q ensures IsNode(Retag(h.hugeList, k, n), q) <==> IsNode(h.hugeList, q) {
      RetagNode(h.hugeList, k, n, q);
    }
    hide IsNode;
  }

  lemma RetagNode(list: seq<HugeBlock>, k: nat, n: nat, q: Address)
    requires k < |list|
    ensures IsNode(Retag(list, k, n), q) <==> IsNode(list, q)
  {
    var r := Retag(list, k, n);
    if IsNode(list, q) {
      var i :| 0 <= i < |list| && list[i].node == q;
      assert r[i].node == q;
    }
    if IsNode(r, q) {
      var i :| 0 <= i < |r| && r[i].node == q;
      assert list[i].node == q;
    }
  }

  // ---- the in-place attempts ------------------------------------------------------------------------------

  /** Ruin is a collection that deletes the main chunk. */
  datatype Outcome = InPlace | Aborted | MustMove | Ruin

  /** zend_mm_chunk_extend: the system may map the bytes behind the block, if nothing is there. */
  method ExtendRegion(s: State, p: Address, size: nat, newSize: nat) returns (ok: bool)
    requires size < newSize
    ensures ok ==> forall q | q in s.mapped :: Apart(p + size, newSize - size, q, s.mapped[q])
  {
    ok :| ok ==> forall q | q in s.mapped :: Apart(p + size, newSize - size, q, s.mapped[q]);
  }

  lemma TailApart(s: State, p: Address, size: nat, newSize: nat)
    requires CoreOk(s) && p in s.huge && s.huge[p] == size
    requires size < newSize ==> forall q | q in s.mapped :: Apart(p + size, newSize - size, q, s.mapped[q])
    ensures forall q | q in s.mapped && q != p :: Apart(p, newSize, q, s.mapped[q])
  {
    hide SpaceOk, RealSizeOk, BlocksOk, CountersZero;
  }

  lemma SameSize(h: Heap, p: Address)
    requires Valid(h) && p in Users(h)
    ensures Resized(h, h, p, h.core.live[p])
  {
    hide *;
    PeaksDominate(h);
    UserIsLive(h, p);
    SameUsers(Users(h), p);
    SameResized(h, p);
  }

  lemma SameUsers(users: Ledger, p: Address)
    requires p in users
    ensures users[p := users[p]] == users
  {
  }

  lemma SameResized(h: Heap, p: Address)
    requires Valid(h) && p in Users(h) && p in h.core.live && Users(h)[p] == h.core.live[p]
    requires Users(h)[p := h.core.live[p]] == Users(h)
    requires h.stats.size <= h.stats.peak && h.core.realSize <= h.stats.realPeak
    ensures Resized(h, h, p, h.core.live[p])
  {
    hide Valid, Users;
  }

  lemma PeaksDominate(h: Heap)
    requires Valid(h)
    ensures h.stats.size <= h.stats.peak && h.core.realSize <= h.stats.realPeak && h.counters.chunks <= h.counters.peakChunks
  {
    hide LayoutOk, CoreOk, HugeOk, Sum;
  }

  /** The part of zend_mm_realloc_heap for a huge block that stays huge. */
  method ResizeHuge(h0: Heap, p: Address, size: nat) returns (r: Outcome, h: Heap)
    requires Valid(h0) && p in Users(h0) && Offset(p) == 0 && size > MAX_LARGE
    ensures r.Ruin? <==> !Anchored(h0.core) && PagesFor(size) * 0x1000 > Users(h0)[p]
                         && h0.core.realSize + PagesFor(size) * 0x1000 - Users(h0)[p] > h0.stats.limit
    ensures r.Ruin? ==> Ruined(h)
    ensures r.InPlace? ==> Resized(h0, h, p, PagesFor(size) * 0x1000)
    ensures r.Aborted? || r.MustMove? ==> AsBefore(h0, h) && Grows(h0, p, size)
    ensures r.Aborted? ==> GrowsTooFar(h0, p, size)
    ensures r.MustMove? && !GrowsTooFar(h0, p, size) ==> h == h0
    ensures r.Aborted? ==> NothingDead(h) && BeyondLimit(h, PagesFor(size) * 0x1000 - Users(h0)[p])
    ensures PagesFor(size) * 0x1000 <= Users(h0)[p] ==> r.InPlace?
    ensures !r.Ruin? && !h0.stats.overflow ==> h.core.realSize <= Max(h0.core.realSize, h0.stats.limit)
  {
    hide LayoutOk, CoreOk, Sound, Users, Accounts, EntriesDiffer, ListExact, NodesLive, Anchored, Steady, PagesFor;
    hide HugeOk, Resized, Retag, AsBefore, Ruined;
    HugeUser(h0, p);
    UserIsLive(h0, p);
    ValidSound(h0);
    var k := FindHuge(h0.hugeList, p);
    HugeListed(h0.hugeList, h0.core.huge, h0.core.live, p, k);
    var oldSize, newSize := h0.hugeList[k].size, PagesFor(size) * 0x1000;
    h := h0;
    if newSize == oldSize {
      SameSize(h0, p);
      return InPlace, h;
    } else if newSize < oldSize {
      TailApart(h0.core, p, oldSize, newSize);
      HugeSized(h0, k, newSize);
      h := HugeOfSize(h0, k, newSize);
      return InPlace, h;
    }
    var room, ruined;
    room, h, ruined := MakeRoom(h0, newSize - oldSize);
    if ruined {
      return Ruin, h;
    }
    SteadyIsAsBefore(h0, h);
    if !room {
      return Aborted, h;
    }
    StillUser(h0, h, p);
    var extended := ExtendRegion(h.core, p, oldSize, newSize);
    if !extended {
      return MustMove, h;
    }
    ghost var roomy := h;
    ValidSound(h);
    HugeUser(h, p);
    HugeListed(h.hugeList, h.core.huge, h.core.live, p, k);
    TailApart(h.core, p, oldSize, newSize);
    HugeSized(h, k, newSize);
    h := HugeOfSize(h, k, newSize);
    ResizedLater(h0, roomy, h, p, newSize);
    r := InPlace;
  }

  lemma StillUser(h0: Heap, h: Heap, p: Address)
    requires AsBefore(h0, h)
    ensures Users(h) == Users(h0) && Valid(h) && h.hugeList == h0.hugeList
    ensures HugeOk(h.hugeList, h.core.huge, h.core.live)
  {
    hide Sound, Accounts, EntriesDiffer, NodesLive;
  }

  lemma ResizedLater(h0: Heap, h1: Heap, h: Heap, p: Address, n: nat)
    requires AsBefore(h0, h1) && Resized(h1, h, p, n)
    ensures Resized(h0, h, p, n)
  {
    hide Valid, Users, ZerosKept;
    StillUser(h0, h1, p);
  }

  /** zend_mm_bitset_is_free_range on the bitset of a chunk. */
  method RangeIsFree(c: Chunk, own: Owners, L: nat, start: nat, len: nat) returns (r: bool)
    requires ChunkOk(c, own, L) && L > 0 && len > 0 && start + len <= PAGES
    ensures |own| == PAGES && (r <==> forall i | start <= i < start + len :: own[i] < 0)
  {
    hide Partition, Used, Wellformed, Pages, FreeCount, HeadsBefore;
    OwnersLength(c, own, L);
    var bits := new nat[|c.freeMap|](i requires 0 <= i < |c.freeMap| => c.freeMap[i]);
    assert bits[..] == c.freeMap;
    r := IsFreeRange(bits, L, start, len);
  }

  lemma LargeReady(h: Heap, p: Address)
    requires Valid(h) && p in Users(h) && Offset(p) != 0
    ensures Base(p) in h.core.chunks && |h.core.chunks[Base(p)].info| == PAGES && p in h.core.live
    ensures Base(p) in h.core.own && |h.core.own[Base(p)]| == PAGES && BusyBut(h.core, h.core.main)
    ensures var x := h.core.chunks[Base(p)].info[PageNum(p)];
            if IsSrun(x) then SrunBin(x) < BINS && h.core.live[p] == BinSize(SrunBin(x))
            else
              && LargeHere(h.core, Base(p), PageNum(p), LrunPages(x)) && p == PageAddress(Base(p), PageNum(p))
              && h.core.live[p] == LrunPages(x) * 0x1000 && 0 < LrunPages(x)
              && ChunkOk(h.core.chunks[Base(p)], h.core.own[Base(p)], h.core.L)
  {
    hide LayoutOk, CoreOk, LargeOf, SlotOf, Users, BinSize, Unused, FreeRun, Fill, ChunkOk;
    ValidSound(h);
    UserIsLive(h, p);
    Decode(h.core, p);
    CoreIsTidy(h.core);
    LayoutFacts(h.core);
    var x := h.core.chunks[Base(p)].info[PageNum(p)];
    if !IsSrun(x) {
      GiveLarge(h, Base(p), PageNum(p), LrunPages(x));
      ChunkOfRing(h.core, Base(p));
    }
  }

  /** A block inside a chunk can keep its place: same class, fewer pages, or free pages behind it. */
  ghost predicate FitsInPlace(s: State, p: Address, size: nat) {
    && Base(p) in s.chunks && Base(p) in s.own && |s.chunks[Base(p)].info| == |s.own[Base(p)]| == PAGES
    && var x, own := s.chunks[Base(p)].info[PageNum(p)], s.own[Base(p)];
       if IsSrun(x) then size <= MAX_SMALL && LeastBin(size, SrunBin(x))
       else
         && MAX_SMALL < size <= MAX_LARGE
         && (PagesFor(size) <= LrunPages(x)
             || (PageNum(p) + PagesFor(size) <= PAGES
                 && forall i | PageNum(p) + LrunPages(x) <= i < PageNum(p) + PagesFor(size) :: own[i] < 0))
  }

  /** The part of zend_mm_realloc_heap for a block inside a chunk. */
  method ResizeInChunk(h0: Heap, p: Address, size: nat) returns (r: Outcome, h: Heap)
    requires Valid(h0) && p in Users(h0) && Offset(p) != 0
    ensures r.InPlace? ==> exists n: nat :: RoundsTo(size, n) && Resized(h0, h, p, n)
    ensures !r.InPlace? ==> h == h0 && r == MustMove
    ensures r.InPlace? <==> FitsInPlace(h0.core, p, size)
    ensures r.InPlace? ==> size <= MAX_LARGE
    ensures h.core.realSize == h0.core.realSize
  {
    hide LayoutOk, CoreOk, Sound, Valid, Users, BinSize, ChunkOk, Resized;
    hide PagesFor, LeastBin, LargeOf, Fill, GrowRun, ShrinkRun, BusyBut;
    LargeReady(h0, p);
    h := h0;
    var chunk, page := Base(p), PageNum(p);
    var c := h0.core.chunks[chunk];
    var info := c.info[page];
    if IsSrun(info) {
      if size <= MAX_SMALL {
        var bin := SmallSizeToBin(size);
        OneBin(size, bin, SrunBin(info));
        if bin == SrunBin(info) {
          SameSize(h0, p);
          SmallRounds(size, bin);
          return InPlace, h;
        }
      }
    } else if size > MAX_SMALL && size <= MAX_LARGE {
      var oldPages, newPages := LrunPages(info), PagesFor(size);
      PageRounds(size);
      if newPages == oldPages {
        SameSize(h0, p);
        return InPlace, h;
      } else if newPages < oldPages {
        CoreShrink(h0.core, chunk, page, oldPages, newPages);
        h := Heap(Shrunk(h0.core, chunk, page, oldPages, newPages), h0.counters,
                  Credit(h0.stats, (oldPages - newPages) * 0x1000), h0.hugeList);
        ShrunkStats(h0, (oldPages - newPages) * 0x1000);
        ResizedInChunk(h0, h, p, newPages * 0x1000);
        return InPlace, h;
      } else if page + newPages <= PAGES {
        var free := RangeIsFree(c, h0.core.own[chunk], h0.core.L, page + oldPages, newPages - oldPages);
        if free {
          CoreGrow(h0.core, chunk, page, oldPages, newPages);
          h := Heap(Grown(h0.core, chunk, page, oldPages, newPages), h0.counters,
                    Charge(h0.stats, (newPages - oldPages) * 0x1000), h0.hugeList);
          ResizedInChunk(h0, h, p, newPages * 0x1000);
          return InPlace, h;
        }
      }
    }
    r := MustMove;
  }

  lemma OneBin(size: nat, b: nat, c: nat)
    requires LeastBin(size, b)
    ensures LeastBin(size, c) <==> b == c
  {
    hide LeastBin;
    if LeastBin(size, c) {
      LeastBinUnique(size, b, c);
    }
  }

  lemma ShrunkStats(h: Heap, d: int)
    requires Valid(h) && d >= 0
    ensures Recounted(h.stats, Credit(h.stats, d), -d)
  {
    hide Sound, HugeOk, Sum;
  }

  // ---- by a new block -----------------------------------------------------------------------------------

  /** The program's block at p has become the block of n bytes at q; its other blocks are as they were. */
  ghost predicate Moved(h0: Heap, h: Heap, p: Address, q: Address, n: nat) {
    && Valid(h) && SameSettings(h0, h) && p in Users(h0) && (q == p || q !in h0.core.live)
    && Users(h) == (Users(h0) - {p})[q := n]
    && NothingLeaks(h0, h, n + NodeCost(q) - Users(h0)[p] - NodeCost(p)) && PeaksFollow(h0, h)
    && h.counters.peakChunks >= h0.counters.peakChunks
  }

  /** The first k bytes of p are those of q, and every other live block has the bytes it had. */
  ghost predicate BytesKept(m0: Bytes, m: Bytes, h: Heap, p: Address, q: Address, k: nat) {
    && SameBytes(m0, p, m, q, k)
    && forall r | r in h.core.live && r != q :: SameBytes(m0, r, m, r, h.core.live[r])
  }

  lemma ResizedIsMoved(h0: Heap, h: Heap, p: Address, n: nat)
    requires Resized(h0, h, p, n)
    ensures Moved(h0, h, p, p, n)
  {
    hide Valid, Users;
    assert (Users(h0) - {p})[p := n] == Users(h0)[p := n];
  }

  lemma NothingMoved(m: Bytes, h: Heap, p: Address, k: nat)
    ensures BytesKept(m, m, h, p, p, k)
  {
  }

  /** Peaks as if the old block had been freed before the new one was made. */
  function Repeaked(h: Heap, peak: int, realPeak: int): Heap {
    h.(stats := h.stats.(peak := Max(peak, h.stats.size), realPeak := Max(realPeak, h.core.realSize)))
  }

  lemma RepeakedValid(h: Heap, peak: int, realPeak: int)
    requires Valid(h)
    ensures Valid(Repeaked(h, peak, realPeak)) && Users(Repeaked(h, peak, realPeak)) == Users(h)
  {
    hide LayoutOk, CoreOk, HugeOk, Sum, IsNode;
  }

  lemma CopyIsMoved(h0: Heap, h1: Heap, h2: Heap, p: Address, q: Address, n: nat, peak: int, realPeak: int)
    requires Valid(h0) && p in Users(h0) && Granted(h0, h1, q, n) && Freed(h1, h2, p)
    requires peak == h0.stats.peak && realPeak == h0.stats.realPeak
    ensures Moved(h0, Repeaked(h2, peak, realPeak), p, q, n)
  {
    hide Valid, Users;
    RepeakedValid(h2, peak, realPeak);
    UserIsLive(h0, p);
    assert Users(h0)[q := n] - {p} == (Users(h0) - {p})[q := n];
  }

  lemma CopyKeepsBytes(h0: Heap, h1: Heap, h2: Heap, m0: Bytes, m: Bytes, p: Address, q: Address, n: nat, k: nat)
    requires Valid(h0) && p in Users(h0) && Granted(h0, h1, q, n) && Freed(h1, h2, p)
    requires k <= n && k <= h0.core.live[p] && Memory.Elsewhere(m0, m, q, k)
    requires Apart(q, k, p, k) ==> SameBytes(m0, p, m, q, k)
    ensures BytesKept(m0, m, h2, p, q, k)
  {
    hide Sound, LayoutOk, CoreOk, Accounts, HugeOk, SameBytes, Memory.Elsewhere, IsNode;
    ValidSound(h1);
    UserIsLive(h0, p);
    UserIsLive(h1, q);
    assert q in Users(h1);
    LiveApart(h1.core, q, p);
    forall r | r in h2.core.live && r != q ensures SameBytes(m0, r, m, r, h2.core.live[r]) {
      LiveApart(h1.core, q, r);
      ApartKept(m0, m, q, k, r, h2.core.live[r]);
    }
  }

  function Min(x: nat, y: nat): nat {
    if x < y then x else y
  }

  /** The old block may still be freed once the new one is there. */
  lemma MayFree(h0: Heap, h1: Heap, p: Address, q: Address, n: nat)
    requires Valid(h0) && p in Users(h0) && Granted(h0, h1, q, n)
    ensures Valid(h1) && p in Users(h1)
  {
    hide Valid, IsNode;
  }

  lemma InMainAnchors(h: Heap, p: Address)
    requires p in Users(h)
    ensures InMain(h.core, p) ==> Anchored(h.core)
  {
    hide IsNode;
    assert Anchor(h.core, p);
  }

  lemma NotInMain(h0: Heap, h: Heap, p: Address, q: Address, n: nat)
    requires Granted(h0, h, q, n) && !InMain(h0.core, p)
    ensures !EmptiesMain(h.core, p)
  {
    hide Valid, Users;
  }

  lemma TakenStays(h: Heap, p: Address, size: nat, refused: bool)
    ensures TakesMain(h, size) ==> !MayEmpty(h, p, size, refused)
  {
    hide TakesMain, Users;
  }

  lemma AnchorsStay(h0: Heap, h: Heap, p: Address)
    requires StillLive(h0, h) && ZerosKept(h0, h) && h.core.main == h0.core.main && AnchoredWithout(h0.core, p)
    ensures AnchoredWithout(h.core, p)
  {
    var q :| q != p && Offset(q) != 0 && Base(q) == h0.core.main && Anchor(h0.core, q);
    assert Anchor(h.core, q);
  }

  /** The block that p moves to is not taken from the main chunk, or p leaves no room there for its node. */
  ghost predicate MovesAway(h: Heap, p: Address, size: nat) {
    if size <= MAX_LARGE then !TakesMain(h, size) else p in Users(h) && Users(h)[p] == (PAGES - 1) * 0x1000
  }

  /** Once its block has moved, the main chunk will be empty: p is its last run, or a collection takes the others. */
  ghost predicate MustEmpty(h: Heap, p: Address, size: nat, refused: bool) {
    && p in Users(h) && Users(h)[p] > MAX_SMALL && MovesAway(h, p, size)
    && (EmptiesMain(h.core, p) || (!AnchoredWithout(h.core, p) && size <= MAX_LARGE && MustCollect(h, size, refused)))
  }

  /** It may be: nothing else keeps it in use, no new block joins it, and the other runs, if any, go in a collection. */
  ghost predicate MayEmpty(h: Heap, p: Address, size: nat, refused: bool) {
    && p in Users(h) && Users(h)[p] > MAX_SMALL && !TakesMain(h, size) && !AnchoredWithout(h.core, p)
    && (EmptiesMain(h.core, p) || size > MAX_LARGE || MustCollect(h, size, refused))
  }

  lemma NewAnchors(h0: Heap, h: Heap, p: Address)
    requires NewInMain(h0, h) && p in h0.core.live && h.core.main == h0.core.main
    ensures AnchoredWithout(h.core, p)
  {
    var q :| q in h.core.live && q !in h0.core.live && Offset(q) != 0 && Base(q) == h0.core.main;
    assert Anchor(h.core, q);
  }

  /** When giving back the old block, once the new one is there, empties the main chunk. */
  lemma MoveEmpties(h0: Heap, h: Heap, p: Address, q: Address, n: nat, size: nat, refused: bool)
    requires Valid(h0) && p in Users(h0) && Granted(h0, h, q, n) && MainAfter(h0, h, size, refused)
    requires Offset(p) != 0 && Base(p) == h0.core.main
    ensures EmptiesMain(h.core, p) ==> MayEmpty(h0, p, size, refused)
    ensures MustEmpty(h0, p, size, refused) ==> EmptiesMain(h.core, p)
  {
    hide Sound, CoreOk, Accounts, HugeOk, EmptiesMain, NewInMain, NoNewRuns;
    hide RunsStay, DeadGone, TakesMain, MayCollect, MustCollect;
    hide MainOwn, AnchoredWithout, IsNode;
    ValidSound(h0);
    ValidSound(h);
    UserIsLive(h0, p);
    if NewInMain(h0, h) {
      NewAnchors(h0, h, p);
      OthersAnchor(h, p);
    }
    if EmptiesMain(h.core, p) {
      NotASlot(h.core, p);
      if AnchoredWithout(h0.core, p) {
        AnchorsStay(h0, h, p);
        OthersAnchor(h, p);
      }
    }
    if h0.core.live[p] > MAX_SMALL {
      OnlyRun(h0, p);
      OnlyRun(h, p);
      RunsCompared(h0.core, h.core, PageNum(p));
      OwnPage(h0.core, p);
      if !AnchoredWithout(h0.core, p) {
        OthersDead(h0.core, p);
        DeadCompared(h0.core, h.core, PageNum(p));
      }
    }
  }

  lemma OwnPage(s: State, p: Address)
    requires CoreOk(s) && p in s.live && Offset(p) != 0 && Base(p) == s.main && s.live[p] > MAX_SMALL
    ensures PageNum(p) < |MainOwn(s)| && MainOwn(s)[PageNum(p)] == PageNum(p)
  {
    hide CoreOk, LargeOf, IsSrun, LrunPages;
    var n := LargeRunAt(s, p);
    MainTable(s);
    LargeHead(s, Base(p), PageNum(p), n);
  }

  ghost predicate OnlyOf(s: State, k: int) {
    forall i | 0 <= i < |MainOwn(s)| && MainOwn(s)[i] > 0 :: MainOwn(s)[i] == k
  }

  lemma RunsCompared(s0: State, s: State, k: int)
    ensures NoNewRuns(s0, s) && OnlyOf(s0, k) ==> OnlyOf(s, k)
    ensures RunsStay(s0, s) && OnlyOf(s, k) ==> OnlyOf(s0, k)
  {
    hide MainOwn;
  }

  lemma DeadCompared(s0: State, s: State, k: int)
    requires forall i | 0 <= i < |MainOwn(s0)| && MainOwn(s0)[i] > 0 ::
               MainOwn(s0)[i] == k || Dead(T(s0), s0.free, s0.main, MainOwn(s0)[i])
    ensures NoNewRuns(s0, s) && DeadGone(s0, s) ==> OnlyOf(s, k)
  {
    hide MainOwn, Dead;
  }

  /** "Naive reallocation": a new block, a copy, and the old block goes back. */
  method MoveBlock(h0: Heap, m0: Bytes, p: Address, oldSize: nat, size: nat, copySize: nat)
      returns (ok: bool, h: Heap, m: Bytes, q: Address, ruined: bool, ghost refused: bool)
    requires Valid(h0) && p in Users(h0) && oldSize == Users(h0)[p]
    ensures ruined ==> !ok && Ruined(h)
    ensures if InMain(h0.core, p) then
              (ruined ==> MayEmpty(h0, p, size, refused)) && (MustEmpty(h0, p, size, refused) ==> !ok)
            else ruined <==> !Anchored(h0.core) && MustCollect(h0, size, refused)
    ensures size <= MAX_LARGE && TakesMain(h0, size) ==> ok
    ensures !ruined && !ok ==> Refused(h0, h, size) && m == m0 && MustCollect(h0, size, refused)
    ensures !ruined && !ok ==> NoneLeft(h, size, refused)
    ensures !ruined && !ok && !refused ==> h.core.leaked == h0.core.leaked
    ensures !ruined && ok ==> q != p && (Offset(q) == 0 <==> size > MAX_LARGE)
    ensures !ruined && ok ==> exists n: nat :: RoundsTo(size, n) && Moved(h0, h, p, q, n)
                                && (Min(oldSize, copySize) <= n ==> BytesKept(m0, m, h, p, q, Min(oldSize, copySize)))
  {
    hide Valid, Users, AnchoredWithout, Anchored, Refused, Granted, Freed, Moved, BytesKept, RoundsTo, EmptiesMain, Min;
    hide SameBytes, Memory.Elsewhere, Ruined, MayCollect, MustCollect, MayEmpty, MustEmpty, TakesMain, MainAfter;
    var origPeak, origRealPeak := h0.stats.peak, h0.stats.realPeak;
    m := m0;
    InMainAnchors(h0, p);
    ok, h, q, ruined, refused := Alloc(h0, size);
    if ruined || !ok {
      return false, h, m, 0, ruined, refused;
    }
    ghost var n: nat :| RoundsTo(size, n) && Granted(h0, h, q, n);
    ghost var h1 := h;
    m := Copy(m0, q, p, Min(oldSize, copySize));
    MayFree(h0, h, p, q, n);
    UserNotNull(h0, p);
    if InMain(h0.core, p) {
      MoveEmpties(h0, h, p, q, n, size, refused);
      TakenStays(h0, p, size, refused);
    } else {
      NotInMain(h0, h, p, q, n);
    }
    ruined := EmptiesMain(h.core, p);
    h := Free(h, p);
    if ruined {
      return false, h, m, 0, true, refused;
    }
    if Min(oldSize, copySize) <= n {
      MinBound(oldSize, copySize);
      UserIsLive(h0, p);
      CopyKeepsBytes(h0, h1, h, m0, m, p, q, n, Min(oldSize, copySize));
      RepeakedBytes(m0, m, h, p, q, Min(oldSize, copySize), origPeak, origRealPeak);
    }
    CopyIsMoved(h0, h1, h, p, q, n, origPeak, origRealPeak);
    NewIsOther(h0, h1, p, q, n);
    h := Repeaked(h, origPeak, origRealPeak);
  }

  lemma NewIsOther(h0: Heap, h: Heap, p: Address, q: Address, n: nat)
    requires p in Users(h0) && Granted(h0, h, q, n)
    ensures q != p
  {
    hide Valid, IsNode;
  }

  lemma MinBound(x: nat, y: nat)
    ensures Min(x, y) <= x
  {
  }

  lemma RepeakedBytes(m0: Bytes, m: Bytes, h: Heap, p: Address, q: Address, k: nat, peak: int, realPeak: int)
    requires BytesKept(m0, m, h, p, q, k)
    ensures BytesKept(m0, m, Repeaked(h, peak, realPeak), p, q, k)
  {
  }

  lemma UserNotNull(h: Heap, p: Address)
    requires Valid(h) && p in Users(h)
    ensures p != 0
  {
    hide RealSizeOk, SpaceOk, BlocksOk, CountersZero, Accounts, HugeOk;
    if Offset(p) == 0 {
      HugeUser(h, p);
    }
  }

  /**
   * The request reaches a collection: it needs a new block, and that needs one; or a huge block grows
   * beyond the limit, or cannot be extended where it is and needs a new region.
   */
  ghost predicate CollectsFor(h: Heap, p: Address, size: nat, refused: bool, stuck: bool) {
    if p != 0 && Offset(p) == 0 && size > MAX_LARGE then
      Grows(h, p, size) && (GrowsTooFar(h, p, size) || (stuck && MustCollect(h, size, refused)))
    else MustCollect(h, size, refused) && !(Offset(p) != 0 && FitsInPlace(h.core, p, size))
  }

  /**
   * A block of the main chunk that has to move may cost that chunk by leaving nothing behind; any
   * other request costs it when a collection finds nothing there.
   */
  ghost predicate MayLose(h: Heap, p: Address, size: nat, refused: bool, stuck: bool) {
    if InMain(h.core, p) then !FitsInPlace(h.core, p, size) && MayEmpty(h, p, size, refused)
    else !Anchored(h.core) && CollectsFor(h, p, size, refused, stuck)
  }

  ghost predicate MustLose(h: Heap, p: Address, size: nat, refused: bool, stuck: bool) {
    if InMain(h.core, p) then !FitsInPlace(h.core, p, size) && MustEmpty(h, p, size, refused)
    else !Anchored(h.core) && CollectsFor(h, p, size, refused, stuck)
  }

  /** The two differ only for a block of the main chunk and a huge request. */
  lemma LosesExactly(h: Heap, p: Address, size: nat, refused: bool, stuck: bool)
    requires Valid(h) && (p == 0 || p in Users(h))
    ensures size <= MAX_LARGE || !InMain(h.core, p) ==>
              (MayLose(h, p, size, refused, stuck) <==> MustLose(h, p, size, refused, stuck))
  {
    hide Sound, CoreOk, LayoutOk, Accounts, HugeOk, EmptiesMain, TakesMain, MustCollect, AnchoredWithout, IsNode;
    hide FitsInPlace, CollectsFor, Anchored;
    if InMain(h.core, p) {
      ValidSound(h);
      UserIsLive(h, p);
      if AnchoredWithout(h.core, p) {
        OthersAnchor(h, p);
      }
    }
  }

  ghost predicate Grows(h: Heap, p: Address, size: nat) {
    p in Users(h) && PagesFor(size) * 0x1000 > Users(h)[p]
  }

  ghost predicate GrowsTooFar(h: Heap, p: Address, size: nat) {
    Grows(h, p, size) && h.core.realSize + PagesFor(size) * 0x1000 - Users(h)[p] > h.stats.limit
  }

  /**
   * What is left when the block at p could not be resized: nothing to collect; and what the request
   * needs is beyond the limit, unless the system has refused to map it.  A huge block that stays
   * huge needs no more than its growth, unless the system has refused to extend it.
   */
  ghost predicate NoneLeftFor(h: Heap, p: Address, size: nat, refused: bool, stuck: bool) {
    if p != 0 && Offset(p) == 0 && size > MAX_LARGE && !stuck then
      NothingDead(h) && p in Users(h) && BeyondLimit(h, PagesFor(size) * 0x1000 - Users(h)[p])
    else NoneLeft(h, size, refused)
  }

  /**
   * zend_mm_realloc_heap.  The result holds at least the requested size; the program's other
   * blocks keep their places, sizes and bytes; and of the old block the first copySize bytes are
   * preserved, or all of it if it is shorter, whenever they fit the new one.  The main chunk is
   * lost only under MayLose, and under MustLose, unless the block lies in it and the request is
   * denied.  What the system has refused is told in refused, for mapping, and stuck, for extending.
   */
  method Realloc(h0: Heap, m0: Bytes, p: Address, size: nat, copySize: nat)
      returns (ok: bool, h: Heap, m: Bytes, q: Address, ruined: bool, ghost refused: bool, ghost stuck: bool)
    requires Valid(h0) && (p == 0 || p in Users(h0))
    ensures ruined ==> !ok && Ruined(h) && MayLose(h0, p, size, refused, stuck)
    ensures MustLose(h0, p, size, refused, stuck) ==> !ok && (ruined || InMain(h0.core, p))
    ensures InMain(h0.core, p) && size <= MAX_LARGE && TakesMain(h0, size) ==> ok
    ensures !ruined && !ok ==> Refused(h0, h, size) && m == m0 && CollectsFor(h0, p, size, refused, stuck)
    ensures !ruined && !ok ==> NoneLeftFor(h, p, size, refused, stuck)
    ensures !ruined && !ok && !refused ==> h.core.leaked == h0.core.leaked
    ensures !ruined && ok && p == 0 ==> m == m0 && exists n: nat :: RoundsTo(size, n) && Granted(h0, h, q, n)
    ensures !ruined && ok && p != 0 ==>
              exists n: nat :: RoundsTo(size, n) && Moved(h0, h, p, q, n)
                && (Min(Users(h0)[p], copySize) <= n ==> BytesKept(m0, m, h, p, q, Min(Users(h0)[p], copySize)))
    ensures !ruined && ok && q == p ==> m == m0
    ensures p != 0 && Offset(p) != 0 ==> (!ruined && ok && q == p <==> FitsInPlace(h0.core, p, size))
    ensures p != 0 && Offset(p) == 0 && size > MAX_LARGE && !Grows(h0, p, size) ==> !ruined && ok && q == p
    ensures !ruined && ok ==> (Offset(q) == 0 <==> size > MAX_LARGE)
  {
    hide Valid, Users, AnchoredWithout, Anchored, AsBefore, Refused, Granted, Freed, Moved, BytesKept, RoundsTo, Min;
    hide SameBytes, Resized, PagesFor, FitsInPlace, Ruined, MayCollect;
    hide MustCollect, MayEmpty, MustEmpty, TakesMain, MainAfter;
    hide NothingDead, GaveUp;
    m, ruined, refused, stuck := m0, false, false, false;
    if p == 0 {
      ok, h, q, ruined, refused := Alloc(h0, size);
      NullNotLive(h0);
      if !ruined && ok {
        ghost var n: nat :| RoundsTo(size, n) && Granted(h0, h, q, n);
      }
      ok := ok && !ruined;
      return;
    }
    var r := MustMove;
    h := h0;
    AsBeforeRefl(h0);
    if Offset(p) == 0 {
      if size > MAX_LARGE {
        r, h := ResizeHuge(h0, p, size);
        stuck := r.MustMove?;
        PageRounds(size);
      }
    } else {
      r, h := ResizeInChunk(h0, p, size);
    }
    if r.InPlace? {
      ghost var n: nat :| RoundsTo(size, n) && Resized(h0, h, p, n);
      ResizedIsMoved(h0, h, p, n);
      NothingMoved(m, h, p, Min(Users(h0)[p], copySize));
      return true, h, m, p, false, false, false;
    } else if r.Aborted? {
      AsBeforeIsRefused(h0, h, size);
      return false, h, m, 0, false, false, false;
    } else if r.Ruin? {
      return false, h, m, 0, true, false, false;
    }
    ghost var before := h;
    MustMoveAsBefore(h0, h, p);
    var oldSize := Size(h, p);
    ok, h, m, q, ruined, refused := MoveBlock(h, m, p, oldSize, size, copySize);
    if ruined {
    } else if ok {
      ghost var n: nat :| RoundsTo(size, n) && Moved(before, h, p, q, n)
                          && (Min(oldSize, copySize) <= n ==> BytesKept(m0, m, h, p, q, Min(oldSize, copySize)));
      MovedLater(h0, before, h, p, q, n);
    } else {
      RefusedLater(h0, before, h, size);
    }
  }

  lemma NullNotLive(h: Heap)
    requires Valid(h)
    ensures 0 !in Users(h)
  {
    hide Valid, IsNode;
    if 0 in Users(h) {
      UserNotNull(h, 0);
    }
  }

  lemma AsBeforeRefl(h: Heap)
    requires Valid(h)
    ensures AsBefore(h, h)
  {
    ValidSound(h);
    hide LayoutOk, CoreOk;
    SoundLists(h);
    hide Valid;
  }

  lemma AsBeforeIsRefused(h0: Heap, h: Heap, size: nat)
    requires AsBefore(h0, h) && size > MAX_SMALL
    ensures Refused(h0, h, size) && Users(h) == Users(h0) && h.core.leaked == h0.core.leaked
  {
    hide Valid, IsNode, ChargedClass, ZerosKept, PagesFor;
    PeaksDominate(h);
  }

  /** After a failed attempt in place the block is still there, and may be moved. */
  lemma MustMoveAsBefore(h0: Heap, h: Heap, p: Address)
    requires AsBefore(h0, h) && p in Users(h0)
    ensures Valid(h) && Users(h) == Users(h0) && (Anchored(h0.core) ==> Anchored(h.core))
  {
    hide Valid, IsNode;
    if Anchored(h0.core) {
      var q :| Offset(q) != 0 && Base(q) == h0.core.main && Anchor(h0.core, q);
      assert Anchor(h.core, q);
    }
  }

  lemma MovedLater(h0: Heap, h1: Heap, h: Heap, p: Address, q: Address, n: nat)
    requires AsBefore(h0, h1) && Moved(h1, h, p, q, n)
    ensures Moved(h0, h, p, q, n)
  {
    hide Valid, IsNode;
    assert Users(h1) == Users(h0);
  }

  lemma RefusedLater(h0: Heap, h1: Heap, h: Heap, size: nat)
    requires AsBefore(h0, h1) && Refused(h1, h, size)
    ensures Refused(h0, h, size) && h1.core.leaked == h0.core.leaked
  {
    hide Valid, LeastBin;
  }
}
