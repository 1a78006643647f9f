// Small blocks: carving a run into slots, and the free list of each bin.
module HeapSlots {
  import opened Sizes
  import opened PageInfo
  import opened Addresses
  import opened ChunkPages
  import opened Blocks
  import opened BlockSteps
  import opened GcCount
  import opened HeapInv
  import opened HeapChunks
  import opened GcRing
  import opened HeapPages
  import opened HeapBlocks

  // ---- carving -----------------------------------------------------------------------------------------

  /** The map entries of a new small run, page by page. */
  method CarveEntries(info: seq<nat>, p: nat, b: nat) returns (r: seq<nat>)
    requires b < BINS && p + BinPages(b) <= |info|
    ensures r == CarveInfo(info, p, b)
  {
    hide BinPages, Srun, Nrun;
    BinFacts(b);
    r := info[p := Srun(b)];
    if BinPages(b) > 1 {
      var i := 1;
      while i < BinPages(b)
        invariant 1 <= i <= BinPages(b) && |r| == |info|
        invariant forall j | 0 <= j < |info| ::
                    r[j] == if j == p then Srun(b) else if p < j < p + i then Nrun(b, j - p) else info[j]
      {
        r := r[p + i := Nrun(b, i)];
        i := i + 1;
      }
    }
  }

  /** The linked list of the elements from 1 to the last. */
  method LinkSlots(a: Address, p: nat, b: nat) returns (list: seq<Address>)
    requires b < BINS
    ensures BinElements(b) >= 1 && list == SlotsFrom(a, p, b, 1)
  {
    hide BinSize, BinElements, SlotOffset, SlotAddress, PageAddress, SlotsFrom;
    BinFacts(b);
    var bin := PageAddress(a, p);
    var end := bin + BinSize(b) * (BinElements(b) - 1);
    var slot := bin + BinSize(b);
    list := [slot];
    ghost var k := 1;
    SlotPlace(a, p, b, 1);
    SlotPlace(a, p, b, BinElements(b) - 1);
    while true
      invariant 1 <= k < BinElements(b) - 1 && |list| == k && slot == SlotAddress(a, p, b, k)
      invariant forall i | 0 <= i < k :: list[i] == SlotAddress(a, p, b, i + 1)
      decreases BinElements(b) - k
    {
      SlotPlace(a, p, b, k);
      SlotPlace(a, p, b, k + 1);
      slot := slot + BinSize(b);
      list := list + [slot];
      k := k + 1;
      if k < BinElements(b) - 1 {
        SlotsDiffer(a, p, b, k, BinElements(b) - 1);
      }
      if slot == end {
        break;
      }
    }
    SlotsListed(a, p, b, list);
  }

  lemma SlotsListed(a: Address, p: nat, b: nat, list: seq<Address>)
    requires b < BINS && |list| + 1 == BinElements(b)
    requires forall i | 0 <= i < |list| :: list[i] == SlotAddress(a, p, b, i + 1)
    ensures list == SlotsFrom(a, p, b, 1)
  {
    hide BinElements, SlotAddress;
  }

  lemma SlotPlace(a: Address, p: nat, b: nat, k: nat)
    requires b < BINS
    ensures SlotAddress(a, p, b, k) == PageAddress(a, p) + BinSize(b) * k
    ensures BinSize(b) * (k + 1) == BinSize(b) * k + BinSize(b)
    ensures BinSize(b) * 1 == BinSize(b)
  {
  }

  /** The slots of run p that the program links, and the first one. */
  function CarvedState(s: State, a: Address, p: nat, b: nat): State
    requires a in s.chunks && a in s.own && b < BINS && b < |s.free| && 1 <= BinElements(b)
  {
    WithChunk(s, a, s.chunks[a].(info := CarveInfo(s.chunks[a].info, p, b)), s.own[a])
      .(free := s.free[b := SlotsFrom(a, p, b, 1)], live := s.live[PageAddress(a, p) := BinSize(b)])
  }

  lemma CarvedChunk(c: Chunk, own: Owners, L: nat, p: nat, b: nat)
    requires ChunkOk(c, own, L) && 0 < p && Head(own, p) && b < BINS && |own| == |c.info| == PAGES
    requires !IsSrun(c.info[p]) && RunLen(c.info[p]) == BinPages(b)
    ensures var info := CarveInfo(c.info, p, b);
            && ChunkOk(c.(info := info), own, L) && |info| == PAGES && (NoCounters(own, c.info) ==> NoCounters(own, info))
            && IsSrun(info[p]) && SrunBin(info[p]) == b
  {
    hide Partition, SameBits, FreeCount, HeadsBefore, NoCounters, IsSrun, SrunBin, RunLen, BinPages, Lrun;
    CarvePartition(own, c.info, p, b);
    hide Srun, Nrun;
  }

  lemma CoreCarve(s: State, a: Address, p: nat, b: nat)
    requires CoreOk(s) && a in s.ring && 0 < p < PAGES && b < BINS && |s.free| == BINS && s.free[b] == []
    requires Offset(a) == 0 && LargeOf(T(s), PageAddress(a, p), BinPages(b))
    ensures a in s.chunks && a in s.own && BinElements(b) >= 1
    ensures |s.chunks[a].info| == PAGES && p + BinPages(b) <= PAGES
    ensures CoreOk(CarvedState(s, a, p, b))
  {
    hide LayoutOk, BlocksOk, CountersZero, ChunkOk, NoCounters, TableOk;
    hide LargeOf, IsSrun, SrunBin, BinPages, BinElements;
    hide CarveInfo, SlotsFrom, BinSize;
    BinFacts(b);
    ChunkOfRing(s, a);
    var c, own := s.chunks[a], s.own[a];
    LargeHead(s, a, p, BinPages(b));
    CarvedChunk(c, own, s.L, p, b);
    var c' := c.(info := CarveInfo(c.info, p, b));
    LayoutWith(s, a, c', own);
    TakenTable(s, a, c', own);
    PutCounters(T(s), a, Table(own, c'.info));
    CarveOutside(c.info, p, b);
    Carve(T(s), a, Table(own, c'.info), p, b, s.free, s.huge, s.live);
    var s1 := WithChunk(s, a, c', own);
    LayoutFree(s1, s.free[b := SlotsFrom(a, p, b, 1)]);
    LayoutLive(s1.(free := s.free[b := SlotsFrom(a, p, b, 1)]), s.live[PageAddress(a, p) := BinSize(b)]);
  }

  lemma CarveOutside(info: seq<nat>, p: nat, b: nat)
    requires b < BINS && |info| == PAGES && p < PAGES && BinPages(b) >= 1
    ensures |CarveInfo(info, p, b)| == PAGES
    ensures forall i | 0 <= i < PAGES && !(p <= i < p + BinPages(b)) :: CarveInfo(info, p, b)[i] == info[i]
  {
    hide BinPages, Srun, Nrun;
  }

  /** A slot of bin b was handed out; the charge for it is made by the caller. */
  ghost predicate GotSlot(h0: Heap, h: Heap, p: Address, b: nat) {
    && b < BINS && Sound(h) && SameHuge(h0, h) && Offset(p) != 0 && ZerosKept(h0, h)
    && p !in h0.core.live && h.core.live == h0.core.live[p := BinSize(b)]
    && (Base(p) != h0.core.main ==> NoNewRuns(h0.core, h.core)) && ChunkPeakFollows(h0, h)
    && h.stats == h0.stats.(realPeak := h.stats.realPeak) && RealPeakFollows(h0, h)
  }

  /** The free list of the bin is the run's other slots, in order. */
  ghost predicate OthersFree(h: Heap, p: Address, b: nat) {
    b < BINS && |h.core.free| == BINS && 1 <= BinElements(b) && h.core.free[b] == SlotsFrom(Base(p), PageNum(p), b, 1)
  }

  /** zend_mm_alloc_small_slow: a fresh run is carved for a bin whose list is empty. */
  method AllocSmallSlow(h0: Heap, b: nat)
      returns (ok: bool, h: Heap, ptr: Address, ruined: bool, ghost refused: bool)
    requires Sound(h0) && b < BINS && |h0.core.free| == BINS && h0.core.free[b] == []
    ensures ruined <==> !Anchored(h0.core) && NoChunkHasRoom(h0, BinPages(b)) && Collects(h0, refused)
    ensures ruined ==> Ruined(h)
    ensures refused ==> NoChunkHasRoom(h0, BinPages(b))
    ensures !ruined && ok ==> GotSlot(h0, h, ptr, b)
    ensures !ruined && !ok ==> Steady(h0, h) && NoChunkHasRoom(h0, BinPages(b))
    ensures !ruined && !ok ==> h.core.realSize <= h0.core.realSize && GaveUp(h, refused) && Collects(h0, refused)
    ensures !ruined ==> WithinLimit(h0, h)
    ensures !NoRoom(h0.core, h0.core.main, BinPages(b)) ==> ok && !ruined
    ensures !ruined && ok ==> MainShare(h0, h, Base(ptr), BinPages(b), refused)
    ensures !ruined && ok ==> RingTaken(h0, h, Base(ptr), BinPages(b), refused)
    ensures !ruined && ok ==> OthersFree(h, ptr, b)
  {
    hide NoRoom, NoNewRuns, DeadGone, RunsStay, GaveUp, RingLeft, Reordered;
    hide LayoutOk, CoreOk, Sound, Steady, Anchored, Got, GotPages, BinPages, BinElements, BinSize, CarveInfo;
    hide WithChunk, SlotsFrom, LargeOf, TablesOf, Ruined, NoChunkHasRoom, Collects, NoneBefore, Placed, GotSlot;
    BinFacts(b);
    var a, p;
    ok, h, a, p, ruined, refused := AllocPages(h0, BinPages(b));
    ptr := PageAddress(a, p);
    if !ruined && ok {
      RunToCarve(h0, h, a, p, b);
      CoreCarve(h.core, a, p, b);
      var info := CarveEntries(h.core.chunks[a].info, p, b);
      var list := LinkSlots(a, p, b);
      CarvedIsGot(h0, h, a, p, b);
      ShareKept(h0, h, h.(core := CarvedState(h.core, a, p, b)), a, BinPages(b), refused);
      var s := WithChunk(h.core, a, h.core.chunks[a].(info := info), h.core.own[a]);
      s := s.(free := h.core.free[b := list], live := h.core.live[ptr := BinSize(b)]);
      h := h.(core := s);
    }
  }

  lemma ShareKept(h0: Heap, h1: Heap, h: Heap, a: Address, n: nat, refused: bool)
    requires MainShare(h0, h1, a, n, refused) && MainOwn(h.core) == MainOwn(h1.core)
    ensures MainShare(h0, h, a, n, refused)
  {
    hide NoRoom, NoChunkHasRoom, Collects, DeadGone, RunsStay;
    SameRuns(h0.core, h1.core, h.core);
  }

  lemma RunToCarve(h0: Heap, h: Heap, a: Address, p: nat, b: nat)
    requires b < BINS && |h0.core.free| == BINS && h0.core.free[b] == [] && GotPages(h0, h, a, p, BinPages(b))
    ensures CoreOk(h.core) && a in h.core.ring && 0 < p < PAGES && |h.core.free| == BINS && h.core.free[b] == []
    ensures Offset(a) == 0 && LargeOf(T(h.core), PageAddress(a, p), BinPages(b))
  {
    hide LayoutOk, CoreOk, LargeOf;
  }

  lemma CarvedOwn(s: State, a: Address, p: nat, b: nat)
    requires a in s.chunks && a in s.own && b < BINS && b < |s.free| && 1 <= BinElements(b)
    ensures MainOwn(CarvedState(s, a, p, b)) == MainOwn(s)
  {
    hide BinElements, CarveInfo, SlotsFrom;
  }

  lemma CarvedIsGot(h0: Heap, h: Heap, a: Address, p: nat, b: nat)
    requires b < BINS && GotPages(h0, h, a, p, BinPages(b)) && b < |h.core.free| && h.core.free[b] == []
    requires a in h.core.chunks && a in h.core.own && BinElements(b) >= 1 && CoreOk(CarvedState(h.core, a, p, b))
    ensures GotSlot(h0, h.(core := CarvedState(h.core, a, p, b)), PageAddress(a, p), b)
    ensures CarvedState(h.core, a, p, b).realSize == h.core.realSize
    ensures Base(PageAddress(a, p)) == a && MainOwn(CarvedState(h.core, a, p, b)) == MainOwn(h.core)
    ensures PageNum(PageAddress(a, p)) == p && CarvedState(h.core, a, p, b).ring == h.core.ring
  {
    hide LayoutOk, BlocksOk, CountersZero, LargeOf, BinPages, BinElements, BinSize;
    hide CarveInfo, SlotsFrom, NoNewRuns, RunsStay, DeadGone;
    hide MainOwn, BusyBut;
    CoreIsTidy(CarvedState(h.core, a, p, b));
    LocatePage(a, p);
    CarvedOwn(h.core, a, p, b);
    SameBusy(h.core, CarvedState(h.core, a, p, b));
    SameRuns(h0.core, h.core, CarvedState(h.core, a, p, b));
  }

  // ---- the free lists --------------------------------------------------------------------------------

  /** The first free slot of the bin is handed out. */
  function Popped(h: Heap, b: nat): Heap
    requires b < |h.core.free| && h.core.free[b] != [] && b < BINS
  {
    h.(core := h.core.(free := h.core.free[b := h.core.free[b][1..]], live := h.core.live[h.core.free[b][0] := BinSize(b)]))
  }

  lemma PopIsGot(h: Heap, b: nat)
    requires Sound(h) && b < BINS && |h.core.free| == BINS && h.core.free[b] != []
    ensures GotSlot(h, Popped(h, b), h.core.free[b][0], b) && RunsStay(h.core, Popped(h, b).core)
  {
    hide LayoutOk, BlocksOk, CountersZero, BinSize;
    var s := h.core;
    PopSlot(T(s), s.free, s.huge, s.live, b);
    LayoutTables(s);
    SlotNotHuge(T(s), s.free[b][0], b);
    LayoutFree(s, s.free[b := s.free[b][1..]]);
    LayoutLive(s.(free := s.free[b := s.free[b][1..]]), s.live[s.free[b][0] := BinSize(b)]);
    CoreIsTidy(Popped(h, b).core);
  }

  lemma SoundFree(h: Heap)
    requires Sound(h)
    ensures |h.core.free| == BINS
  {
    hide LayoutOk;
    BlocksLength(h.core);
  }

  /** A slot is charged for before it is found; a request that is then aborted leaves the charge. */
  method AllocSmall(h0: Heap, b: nat)
      returns (ok: bool, h: Heap, ptr: Address, ruined: bool, ghost refused: bool)
    requires Sound(h0) && b < BINS
    ensures |h0.core.free| == BINS
    ensures h0.core.free[b] != [] ==> ok && ptr == h0.core.free[b][0] && h.core == Popped(h0, b).core
    ensures ruined <==> !Anchored(h0.core) && NoSlotLeft(h0, b) && Collects(h0, refused)
    ensures ruined ==> Ruined(h)
    ensures refused ==> NoSlotLeft(h0, b)
    ensures !ruined && ok ==> Got(h0, h, ptr, BinSize(b))
    ensures !ruined && !ok ==> Steady(h0.(stats := Charge(h0.stats, BinSize(b)).(lost := h0.stats.lost + BinSize(b))), h)
    ensures !ruined ==> WithinLimit(h0, h)
    ensures !ruined && !ok ==> NoSlotLeft(h0, b) && Collects(h0, refused) && GaveUp(h, refused)
    ensures !ruined && !ok ==> h.core.realSize <= h0.core.realSize
    ensures !ruined && ok && h0.core.free[b] == [] ==>
              OthersFree(h, ptr, b) && RingTaken(h0, h, Base(ptr), BinPages(b), refused)
    ensures FromMain(h0, b) ==> ok && !ruined
    ensures !ruined && ok ==> (Base(ptr) == h0.core.main <==> FromMain(h0, b))
    ensures !ruined && ok ==>
              if NoSlotLeft(h0, b) && Collects(h0, refused) then DeadGone(h0.core, h.core) else RunsStay(h0.core, h.core)
  {
    hide LayoutOk, CoreOk, Sound, Steady, Anchored, Got, GotSlot, BinSize, MainGone, Tidy, NoneBefore;
    hide NoRoom, NoNewRuns, DeadGone, RunsStay, BinPages, RingLeft, Reordered, OthersFree, NothingDead;
    SoundFree(h0);
    h := h0.(stats := Charge(h0.stats, BinSize(b)));
    ghost var charged := h;
    SoundStats(h0, h.stats);
    ruined, refused := false, false;
    if h.core.free[b] != [] {
      ok, ptr := true, h.core.free[b][0];
      PopIsGot(h, b);
      h := Popped(h, b);
    } else {
      ok, h, ptr, ruined, refused := AllocSmallSlow(h, b);
      SameTaken(charged, h0, h, h, Base(ptr), BinPages(b), refused);
    }
    if !ruined && ok {
      SlotIsGot(h0, charged, h, ptr, b);
    } else if !ruined {
      LostCharge(charged, h, BinSize(b));
      SameGaveUp(h, h.(stats := h.stats.(lost := h.stats.lost + BinSize(b))), refused);
      h := h.(stats := h.stats.(lost := h.stats.lost + BinSize(b)));
    }
  }

  /** The next slot of the bin lies in the main chunk: it is free there, or its run has room there. */
  ghost predicate FromMain(h: Heap, b: nat)
    requires b < BINS && |h.core.free| == BINS
  {
    if h.core.free[b] != [] then Base(h.core.free[b][0]) == h.core.main
    else !NoRoom(h.core, h.core.main, BinPages(b))
  }

  /** The bin has no free slot, and a run for it needs a new chunk. */
  ghost predicate NoSlotLeft(h: Heap, b: nat)
    requires b < BINS && |h.core.free| == BINS
  {
    h.core.free[b] == [] && NoChunkHasRoom(h, BinPages(b))
  }

  lemma SlotIsGot(h0: Heap, h1: Heap, h: Heap, p: Address, b: nat)
    requires b < BINS && h1 == h0.(stats := Charge(h0.stats, BinSize(b))) && GotSlot(h1, h, p, b)
    ensures Got(h0, h, p, BinSize(b))
  {
    hide LayoutOk, CoreOk, BinSize;
  }

  lemma LostCharge(h0: Heap, h: Heap, n: nat)
    requires Steady(h0, h)
    ensures Steady(h0.(stats := h0.stats.(lost := h0.stats.lost + n)), h.(stats := h.stats.(lost := h.stats.lost + n)))
  {
    hide LayoutOk, CoreOk;
    SoundStats(h, h.stats.(lost := h.stats.lost + n));
  }

  /** zend_mm_free_small: the slot goes to the front of its bin's list. */
  method FreeSmall(h0: Heap, p: Address, b: nat) returns (h: Heap)
    requires Sound(h0) && b < BINS && SlotOf(T(h0.core), p, b) && p in h0.core.live
    ensures Gave(h0, h, p) && h0.core.live[p] == BinSize(b)
    ensures |h0.core.free| == BINS && h.core.free == h0.core.free[b := [p] + h0.core.free[b]]
    ensures h.core == h0.core.(free := h.core.free, live := h.core.live)
  {
    hide LayoutOk, BlocksOk, CountersZero, BinSize;
    SoundFree(h0);
    var s := h0.core;
    PushSlot(T(s), s.free, s.huge, s.live, p, b);
    LayoutFree(s, s.free[b := [p] + s.free[b]]);
    LayoutLive(s.(free := s.free[b := [p] + s.free[b]]), s.live - {p});
    s := s.(free := s.free[b := [p] + s.free[b]], live := s.live - {p});
    CoreIsTidy(s);
    h := h0.(core := s, stats := Credit(h0.stats, BinSize(b)));
  }
}
