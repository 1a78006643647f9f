// zend_mm_gc as a whole: count, filter, sweep every chunk of the ring and drop the empty ones.
module GcRing {
  import opened Sizes
  import opened PageInfo
  import opened Addresses
  import opened Ring
  import opened ChunkPages
  import opened Blocks
  import opened BlockSteps
  import opened GcSpec
  import opened GcCount
  import opened GcSweep
  import opened Regions
  import opened HeapInv
  import opened HeapChunks

  // ---- pages in use -------------------------------------------------------------------------------------

  /** Pages of the chunks in the list that are in use, their headers apart. */
  ghost function UsedPages(chunks: Chunks, q: seq<Address>): int {
    if q == [] then 0
    else UsedPages(chunks, q[..|q| - 1])
         + if q[|q| - 1] in chunks then PAGES - 1 - chunks[q[|q| - 1]].freePages else 0
  }

  lemma {:induction false} UsedSplit(chunks: Chunks, x: seq<Address>, y: seq<Address>)
    ensures UsedPages(chunks, x + y) == UsedPages(chunks, x) + UsedPages(chunks, y)
  {
    if y == [] {
      assert x + y == x;
    } else {
      UsedSplit(chunks, x, y[..|y| - 1]);
      assert (x + y)[..|x + y| - 1] == x + y[..|y| - 1];
    }
  }

  lemma {:induction false} UsedSame(chunks: Chunks, chunks': Chunks, q: seq<Address>)
    requires forall a | a in q :: (a in chunks <==> a in chunks') && (a in chunks ==> chunks'[a].freePages == chunks[a].freePages)
    ensures UsedPages(chunks', q) == UsedPages(chunks, q)
  {
    if q != [] {
      UsedSame(chunks, chunks', q[..|q| - 1]);
      assert q[|q| - 1] in q;
    }
  }

  /** The count of one chunk, at place k, taken out of the sum. */
  lemma UsedAt(chunks: Chunks, q: seq<Address>, k: nat)
    requires k < |q| && q[k] in chunks
    ensures UsedPages(chunks, q) == UsedPages(chunks, Without(q, k)) + (PAGES - 1 - chunks[q[k]].freePages)
  {
    assert q == q[..k] + [q[k]] + q[k + 1..];
    UsedSplit(chunks, q[..k] + [q[k]], q[k + 1..]);
    UsedSplit(chunks, q[..k], [q[k]]);
    UsedSplit(chunks, q[..k], q[k + 1..]);
    assert [q[k]][..0] == [];
  }

  lemma UsedChange(chunks: Chunks, q: seq<Address>, k: nat, c: Chunk)
    requires k < |q| && Distinct(q) && q[k] in chunks
    ensures UsedPages(chunks[q[k] := c], q) == UsedPages(chunks, q) + chunks[q[k]].freePages - c.freePages
  {
    UsedAt(chunks, q, k);
    UsedAt(chunks[q[k] := c], q, k);
    WithoutMembers(q, k);
    UsedSame(chunks, chunks[q[k] := c], Without(q, k));
  }

  // ---- pages of dead runs ------------------------------------------------------------------------------

  /** Number of pages below n, in chunk a, that belong to dead runs. */
  ghost function DeadBelow(t: Tables, free: Lists, a: Address, n: nat): nat {
    if n == 0 then 0
    else DeadBelow(t, free, a, n - 1)
         + if a in t && n <= |t[a].own| && t[a].own[n - 1] > 0 && Dead(t, free, a, t[a].own[n - 1]) then 1 else 0
  }

  /** Number of pages of dead runs in the chunks of the list. */
  ghost function DeadPages(t: Tables, free: Lists, q: seq<Address>): nat {
    if q == [] then 0 else DeadPages(t, free, q[..|q| - 1]) + DeadBelow(t, free, q[|q| - 1], PAGES)
  }

  lemma {:induction false} NoDeadBelow(t: Tables, free: Lists, a: Address, n: nat)
    requires forall s: nat :: !Dead(t, free, a, s)
    ensures DeadBelow(t, free, a, n) == 0
  {
    hide Dead;
    if n > 0 {
      NoDeadBelow(t, free, a, n - 1);
    }
  }

  lemma {:induction false} NoDeadPages(t: Tables, free: Lists, q: seq<Address>)
    requires forall a: Address, s: nat :: !Dead(t, free, a, s)
    ensures DeadPages(t, free, q) == 0
  {
    hide Dead;
    if q != [] {
      NoDeadPages(t, free, q[..|q| - 1]);
      NoDeadBelow(t, free, q[|q| - 1], PAGES);
    }
  }

  /** Sweeping a chunk frees exactly the pages of its dead runs. */
  lemma {:induction false} SweptCount(t: Tables, free: Lists, a: Address, y: Table, n: nat)
    requires a in t && Swept(t, free, a, y) && n <= PAGES
    ensures FreeCount(y.own[..n]) == FreeCount(t[a].own[..n]) + DeadBelow(t, free, a, n)
  {
    hide Dead;
    if n > 0 {
      SweptCount(t, free, a, y, n - 1);
      assert y.own[..n][..n - 1] == y.own[..n - 1];
      assert t[a].own[..n][..n - 1] == t[a].own[..n - 1];
    }
  }

  lemma SweptFreePages(t: Tables, free: Lists, a: Address, y: Table)
    requires a in t && Swept(t, free, a, y)
    ensures FreeCount(y.own) == FreeCount(t[a].own) + DeadBelow(t, free, a, PAGES)
  {
    hide Dead, FreeCount, DeadBelow;
    SweptCount(t, free, a, y, PAGES);
    assert y.own[..PAGES] == y.own && t[a].own[..PAGES] == t[a].own;
  }

  // ---- the progress of the sweep around the ring ---------------------------------------------------------

  /** Chunk a is as the collector leaves it. */
  ghost predicate ChunkSwept(t0: Tables, free: Lists, t: Tables, a: Address)
    requires a in t
  {
    && a in t0 && Swept(t0, free, a, t[a])
    && |t[a].own| == |t[a].info| == PAGES && NoCounters(t[a].own, t[a].info)
  }

  /** The chunks from place k on are as the counting loops left them. */
  ghost predicate Ahead(t0: Tables, s1: State, s: State, k: nat)
    requires k <= |s.ring|
  {
    forall a | a in s.ring[k..] :: a in s.chunks && a in s1.chunks && s.chunks[a] == s1.chunks[a]
                                   && a in s.own && a in t0 && s.own[a] == t0[a].own
  }

  /** The other chunks are swept. */
  ghost predicate Behind(t0: Tables, free: Lists, s: State, k: nat)
    requires k <= |s.ring|
  {
    forall a | a in T(s) && a !in s.ring[k..] :: ChunkSwept(t0, free, T(s), a)
  }

  /** The chunks that have left the heap had dead runs only. */
  ghost predicate Gone(t0: Tables, free: Lists, t: Tables) {
    forall a | a in t0 && a !in t :: AllDead(t0, free, a)
  }

  ghost predicate Sweeping(t0: Tables, free: Lists, s1: State, s: State, k: nat) {
    k <= |s.ring| && Ahead(t0, s1, s, k) && Behind(t0, free, s, k) && Gone(t0, free, T(s))
  }

  lemma SweepingStarts(t0: Tables, free: Lists, s1: State)
    requires LayoutOk(s1) && TablesOk(t0) && CountersZero(t0) && |free| == BINS
    requires T(s1).Keys == t0.Keys && Counted(t0, free, BINS, 0, T(s1))
    requires forall a | a in s1.cached :: a in t0 && Unused(t0[a])
    ensures Sweeping(t0, free, s1, s1, 0)
  {
    hide RegionsExact, RealSizeOk, ChunkOk, RingOk, CountersZero, TablesOk, CacheUnused, Unused;
    assert s1.ring[0..] == s1.ring;
    forall a | a in T(s1) && a !in s1.ring ensures ChunkSwept(t0, free, T(s1), a) {
      assert a in s1.cached;
      UnusedSwept(t0, free, T(s1), a);
    }
    forall a | a in s1.ring ensures s1.own[a] == t0[a].own {
      assert a in T(s1);
    }
  }

  lemma UnusedSwept(t0: Tables, free: Lists, t: Tables, a: Address)
    requires CountersZero(t0) && |free| == BINS && a in t0 && a in t && Unused(t0[a]) && Counted(t0, free, BINS, 0, t)
    ensures ChunkSwept(t0, free, t, a)
  {
    hide IsSrun, SrunBin, Hits, Dead;
    forall i | 0 <= i < PAGES ensures t[a].info[i] == t0[a].info[i] {
      assert t[a].info[i] == Expected(t0, free, BINS, 0, a, i);
    }
  }

  lemma SweepingEnds(t0: Tables, free: Lists, s1: State, s: State)
    requires Sweeping(t0, free, s1, s, |s.ring|)
    ensures Collected(t0, free, T(s)) && CountersZero(T(s))
  {
    hide Swept, AllDead, NoCounters;
    assert s.ring[|s.ring|..] == [];
  }

  /** The chunk at place k has been swept and stays. */
  lemma SweepingNext(t0: Tables, free: Lists, s1: State, s: State, k: nat, c: Chunk, own: Owners)
    requires T(s).Keys == s.chunks.Keys == s.own.Keys && Distinct(s.ring) && k < |s.ring| && s.ring[k] in s.chunks
    requires Sweeping(t0, free, s1, s, k) && Swept(t0, free, s.ring[k], Table(own, c.info))
    requires |own| == |c.info| == PAGES && NoCounters(own, c.info)
    requires T(WithChunk(s, s.ring[k], c, own)) == T(s)[s.ring[k] := Table(own, c.info)]
    ensures Sweeping(t0, free, s1, WithChunk(s, s.ring[k], c, own), k + 1)
  {
    hide NoCounters, Swept, AllDead, TablesOf, Distinct, Ahead, ChunkSwept;
    var a, s' := s.ring[k], WithChunk(s, s.ring[k], c, own);
    Tail(s.ring, k);
    AheadNext(t0, s1, s, k, c, own);
    hide T;
    assert ChunkSwept(t0, free, T(s'), a) by { JustSwept(t0, free, T(s'), a); }
    forall b | b in T(s') && b !in s.ring[k + 1..] ensures ChunkSwept(t0, free, T(s'), b) {
      if b != a {
        assert ChunkSwept(t0, free, T(s), b);
        SameTableSwept(t0, free, T(s), T(s'), b);
      }
    }
  }

  lemma JustSwept(t0: Tables, free: Lists, t: Tables, a: Address)
    requires a in t && a in t0 && Swept(t0, free, a, t[a]) && |t[a].own| == |t[a].info| == PAGES
    requires NoCounters(t[a].own, t[a].info)
    ensures ChunkSwept(t0, free, t, a)
  {
    hide Swept, NoCounters;
  }

  lemma AheadNext(t0: Tables, s1: State, s: State, k: nat, c: Chunk, own: Owners)
    requires k < |s.ring| && Distinct(s.ring) && Ahead(t0, s1, s, k)
    ensures s.ring[k] in t0 && Ahead(t0, s1, WithChunk(s, s.ring[k], c, own), k + 1)
  {
    Tail(s.ring, k);
    hide Distinct;
    assert s.ring[k] in s.ring[k..];
  }

  lemma Tail(ring: seq<Address>, k: nat)
    requires k < |ring| && Distinct(ring)
    ensures forall a :: a in ring[k..] <==> a == ring[k] || a in ring[k + 1..]
    ensures ring[k] !in ring[k + 1..]
  {
    assert ring[k..] == [ring[k]] + ring[k + 1..];
  }

  lemma AheadDelete(t0: Tables, s1: State, s: State, s': State, k: nat)
    requires LayoutOk(s') && k < |s.ring| && Ahead(t0, s1, s, k + 1) && SameChunks(s, s')
    requires k <= |s'.ring| && s'.ring[k..] == s.ring[k + 1..]
    ensures Ahead(t0, s1, s', k)
  {
    hide LayoutOk;
    RingInChunks(s');
    hide T;
    forall a | a in s'.ring[k..] ensures a in s'.chunks && a in s'.own {
      assert a in s'.ring;
    }
  }

  lemma BehindDelete(t0: Tables, free: Lists, s: State, s': State, k: nat)
    requires k < |s.ring| && Behind(t0, free, s, k + 1) && OnlyUnusedGone(T(s), T(s'))
    requires k <= |s'.ring| && s'.ring[k..] == s.ring[k + 1..]
    ensures Behind(t0, free, s', k)
  {
    hide T, ChunkSwept, Unused;
    forall a | a in T(s') && a !in s'.ring[k..] ensures ChunkSwept(t0, free, T(s'), a) {
      SameTableSwept(t0, free, T(s), T(s'), a);
    }
  }

  lemma GoneDelete(t0: Tables, free: Lists, s: State, s': State, k: nat)
    requires LayoutOk(s') && k < |s.ring| && Behind(t0, free, s, k + 1) && OnlyUnusedGone(T(s), T(s')) && Gone(t0, free, T(s))
    requires k <= |s'.ring| && s'.ring[k..] == s.ring[k + 1..]
    ensures Gone(t0, free, T(s'))
  {
    hide LayoutOk, ChunkSwept, Unused, AllDead, TablesOf;
    RingInChunks(s');
    hide T;
    forall a | a in t0 && a !in T(s') ensures AllDead(t0, free, a) {
      if a in T(s) {
        StillAhead(s', k, a);
        SweptAway(t0, free, T(s), a);
      }
    }
  }

  lemma StillAhead(s: State, k: nat, a: Address)
    requires k <= |s.ring| && forall b | b in s.ring :: b in T(s)
    ensures a !in T(s) ==> a !in s.ring[k..]
  {
    hide T;
    if a in s.ring[k..] {
      assert a in s.ring;
    }
  }

  /** The chunk at place k was swept, turned out to be without runs, and left the ring. */
  lemma SweepingDelete(t0: Tables, free: Lists, s1: State, s: State, s': State, k: nat)
    requires LayoutOk(s) && LayoutOk(s') && k < |s.ring| && Sweeping(t0, free, s1, s, k + 1)
    requires s'.ring == Without(s.ring, k) && OnlyUnusedGone(T(s), T(s')) && SameChunks(s, s')
    ensures Sweeping(t0, free, s1, s', k)
  {
    hide LayoutOk, Ahead, Behind, Gone, OnlyUnusedGone, SameChunks, T;
    assert s'.ring[k..] == s.ring[k + 1..];
    AheadDelete(t0, s1, s, s', k);
    BehindDelete(t0, free, s, s', k);
    GoneDelete(t0, free, s, s', k);
  }

  lemma SameTableSwept(t0: Tables, free: Lists, t: Tables, t': Tables, a: Address)
    requires a in t && a in t' && t'[a] == t[a] && ChunkSwept(t0, free, t, a)
    ensures ChunkSwept(t0, free, t', a)
  {
    hide Swept, NoCounters;
  }

  lemma SweptAway(t0: Tables, free: Lists, t: Tables, a: Address)
    requires a in t && ChunkSwept(t0, free, t, a) && Unused(t[a])
    ensures AllDead(t0, free, a)
  {
    hide Dead;
  }

  lemma LargeNotDead(t: Tables, free: Lists, p: Address, n: nat)
    requires LargeOf(t, p, n)
    ensures !Dead(t, free, Base(p), PageNum(p))
  {
  }

  // ---- the collector --------------------------------------------------------------------------------------

  /** The lists below bin b are filtered, the others as they were. */
  ghost predicate Filtered(t0: Tables, free: Lists, free': Lists, b: nat) {
    && |free'| == |free| == BINS
    && forall c | 0 <= c < BINS :: free'[c] == if c < b then Survivors(t0, free, free[c]) else free[c]
  }

  lemma SameButInfoTrans(x: Chunks, y: Chunks, z: Chunks)
    requires SameButInfo(x, y) && SameButInfo(y, z)
    ensures SameButInfo(x, z)
  {
  }

  /** The loop over the bins. */
  method CountAndFilter(s: State) returns (chunks: Chunks, free: Lists)
    requires CoreOk(s)
    ensures ChunksOk(chunks, s.own, s.L) && SameButInfo(s.chunks, chunks) && |s.free| == BINS
    ensures Counted(T(s), s.free, BINS, 0, TablesOf(chunks, s.own))
    ensures Filtered(T(s), s.free, free, BINS)
  {
    hide SpaceOk, RegionsExact, RealSizeOk, TablesOk, NothingLost, LiveOk, CountersZero, Counted, ChunksOk;
    hide Survivors, NoneFull, SlotOf, Distinct, BinElements, Filtered, SameButInfo;
    chunks, free := s.chunks, s.free;
    CountingStarts(s);
    var i := 0;
    while i < BINS
      invariant i <= BINS && |free| == BINS
      invariant ChunksOk(chunks, s.own, s.L) && SameButInfo(s.chunks, chunks)
      invariant Counted(T(s), s.free, i, 0, TablesOf(chunks, s.own))
      invariant Filtered(T(s), s.free, free, i)
    {
      FilteredHere(T(s), s.free, free, i);
      ghost var before := chunks;
      var hasFree;
      chunks, hasFree := CountBin(chunks, free[i], i, s.own, s.L, T(s), s.free, s.live);
      SameButInfoTrans(s.chunks, before, chunks);
      if hasFree {
        var kept := FilterBin(chunks, free[i], i, s.own, s.L, T(s), s.free, s.live);
        FilteredNext(T(s), s.free, free, i);
        free := free[i := kept];
      } else {
        NothingToFilter(T(s), s.free, s.live, i);
        FilteredNext(T(s), s.free, free, i);
        assert free[i := free[i]] == free;
      }
      NextBin(T(s), s.free, i, TablesOf(chunks, s.own));
      i := i + 1;
    }
  }

  lemma CountingStarts(s: State)
    requires CoreOk(s)
    ensures ChunksOk(s.chunks, s.own, s.L) && SameButInfo(s.chunks, s.chunks)
    ensures |s.free| == BINS && Counted(T(s), s.free, 0, 0, T(s)) && Filtered(T(s), s.free, s.free, 0)
    ensures TablesOk(T(s)) && ListsOk(T(s), s.free, s.live) && CountersZero(T(s))
  {
    hide RegionsExact, RealSizeOk, TablesOk, NothingLost, LiveOk, CountersZero, Counted, ChunkOk, SlotOf, Distinct;
    NothingCounted(T(s), s.free);
  }

  lemma FilteredHere(t0: Tables, free: Lists, free': Lists, i: nat)
    requires Filtered(t0, free, free', i) && i < BINS
    ensures |free| == BINS && free'[i] == free[i]
  {
    hide Survivors;
  }

  lemma FilteredNext(t0: Tables, free: Lists, free': Lists, i: nat)
    requires Filtered(t0, free, free', i) && i < BINS
    ensures Filtered(t0, free, free'[i := Survivors(t0, free, free[i])], i + 1)
  {
    hide Survivors;
  }

  /** Counting changes neither the layout of the chunks nor the pages in use. */
  lemma CountedLayout(s: State, chunks: Chunks, free: Lists)
    requires LayoutOk(s) && ChunksOk(chunks, s.own, s.L) && SameButInfo(s.chunks, chunks)
    ensures LayoutOk(s.(chunks := chunks, free := free))
    ensures UsedPages(chunks, s.ring) == UsedPages(s.chunks, s.ring)
    ensures T(s.(chunks := chunks, free := free)) == TablesOf(chunks, s.own)
    ensures TablesOf(chunks, s.own).Keys == T(s).Keys
    ensures forall a | a in s.cached :: a in T(s) && Unused(T(s)[a])
  {
    hide RegionsExact, RealSizeOk, ChunkOk, RingOk, Places;
    Lengths(s);
    SameLengthsInfo(chunks, s.own, s.L);
    UsedSame(s.chunks, chunks, s.ring);
  }

  lemma SameLengthsInfo(chunks: Chunks, own: OwnerMap, L: nat)
    requires ChunksOk(chunks, own, L)
    ensures forall a | a in chunks :: |own[a]| == |chunks[a].info| == PAGES
  {
    forall a | a in chunks ensures |own[a]| == |chunks[a].info| == PAGES {
      OwnersLength(chunks[a], own[a], L);
    }
  }

  /** Some block of the main chunk is live, or is a slot on the list of bin 0. */
  ghost predicate Anchored(s: State) {
    exists p :: Offset(p) != 0 && Base(p) == s.main && Anchor(s, p)
  }

  ghost predicate Anchor(s: State, p: Address) {
    p in s.live || (|s.free| > 0 && p in s.free[0])
  }

  /** Run h of the main chunk holds a live block or a slot of bin 0. */
  ghost predicate RunAnchored(s: State, h: int) {
    exists p :: Offset(p) != 0 && Base(p) == s.main && Anchor(s, p)
                && s.main in T(s) && PageNum(p) < |T(s)[s.main].own| && T(s)[s.main].own[PageNum(p)] == h
  }

  /** The runs of the main chunk are all dead. */
  ghost predicate MainDead(s: State) {
    s.main in T(s) && AllDead(T(s), s.free, s.main)
  }

  /** The collection leaves the chunk without a run. */
  ghost predicate Empties(t: Tables, free: Lists, a: Address) {
    a in t && AllDead(t, free, a)
  }

  /** The chunks of a ring that have a run which is not dead, in order. */
  ghost function Remaining(t: Tables, free: Lists, ring: seq<Address>): seq<Address> {
    if ring == [] then []
    else Remaining(t, free, ring[..|ring| - 1]) + if Empties(t, free, ring[|ring| - 1]) then [] else [ring[|ring| - 1]]
  }

  /** The chunks behind the sweep are those that remain. */
  ghost predicate Settled(t0: Tables, free: Lists, ring1: seq<Address>, ring: seq<Address>, k: nat) {
    k <= |ring| && |ring| - k <= |ring1| && ring[..k] == Remaining(t0, free, ring1[..|ring1| - (|ring| - k)])
  }

  /** Chunks only leave, and as long as none has left the cache is as it was. */
  ghost predicate Fewer(h1: Heap, h: Heap) {
    && |h.core.ring| <= |h1.core.ring|
    && h.counters.avg == h1.counters.avg && h.counters.peakChunks == h1.counters.peakChunks
    && (|h.core.ring| == |h1.core.ring| ==> h.core.cached == h1.core.cached && h.core.realSize == h1.core.realSize)
  }

  lemma SettledStart(t0: Tables, free: Lists, ring1: seq<Address>)
    ensures Settled(t0, free, ring1, ring1, 0)
  {
    assert ring1[..0] == [];
  }

  lemma SettledNext(t0: Tables, free: Lists, ring1: seq<Address>, ring: seq<Address>, k: nat, collected: nat)
    requires Settled(t0, free, ring1, ring, k) && Progress(t0, free, ring1, ring, k, collected) && k < |ring|
    ensures if Empties(t0, free, ring[k]) then Settled(t0, free, ring1, Without(ring, k), k)
            else Settled(t0, free, ring1, ring, k + 1)
  {
    hide Empties;
    var j := |ring1| - (|ring| - k);
    assert ring1[j] == ring1[j..][0] == ring[k..][0] == ring[k];
    assert ring1[..j + 1][..j] == ring1[..j] && ring1[..j + 1][j] == ring[k];
    assert ring[..k + 1] == ring[..k] + [ring[k]];
    assert Without(ring, k)[..k] == ring[..k];
  }

  lemma {:induction false} RemainingHas(t: Tables, free: Lists, ring: seq<Address>, a: Address)
    ensures a in Remaining(t, free, ring) <==> a in ring && !Empties(t, free, a)
  {
    hide Empties;
    if ring != [] {
      RemainingHas(t, free, ring[..|ring| - 1], a);
      assert ring == ring[..|ring| - 1] + [ring[|ring| - 1]];
    }
  }

  /** What the sweep around the ring knows at each chunk. */
  ghost predicate SweepState(h0: Heap, h1: Heap, h: Heap, k: nat, collected: nat) {
    && Tidy(h) && SameBlocks(h1, h) && h.core.realSize <= h1.core.realSize
    && Sweeping(T(h0.core), h0.core.free, h1.core, h.core, k)
    && collected + UsedPages(h.core.chunks, h.core.ring) == UsedPages(h1.core.chunks, h1.core.ring)
    && Progress(T(h0.core), h0.core.free, h1.core.ring, h.core.ring, k, collected)
  }

  /** The chunks still ahead are the last of the old ring; the dead pages of the others are counted. */
  ghost predicate Progress(t0: Tables, free: Lists, ring1: seq<Address>, ring: seq<Address>, k: nat, collected: nat) {
    && k <= |ring| && |ring| - k <= |ring1|
    && ring[k..] == ring1[|ring1| - (|ring| - k)..]
    && collected == DeadPages(t0, free, ring1[..|ring1| - (|ring| - k)])
  }

  lemma ProgressNext(t0: Tables, free: Lists, ring1: seq<Address>, ring: seq<Address>, k: nat, collected: nat)
    requires Progress(t0, free, ring1, ring, k, collected) && k < |ring|
    ensures Progress(t0, free, ring1, ring, k + 1, collected + DeadBelow(t0, free, ring[k], PAGES))
  {
    hide DeadBelow;
    var j := |ring1| - (|ring| - k);
    assert ring1[j] == ring1[j..][0] == ring[k..][0] == ring[k];
    assert ring1[..j + 1][..j] == ring1[..j];
    assert ring[k..][1..] == ring[k + 1..] && ring1[j..][1..] == ring1[j + 1..];
  }

  lemma ProgressDelete(t0: Tables, free: Lists, ring1: seq<Address>, ring: seq<Address>, k: nat, collected: nat)
    requires k < |ring| && Progress(t0, free, ring1, ring, k + 1, collected)
    ensures Progress(t0, free, ring1, Without(ring, k), k, collected)
  {
    hide DeadPages;
    assert Without(ring, k)[k..] == ring[k + 1..];
  }

  /** The start of the sweep: everything that the counting left. */
  ghost predicate SweepReady(h0: Heap, h1: Heap) {
    && Sound(h0) && Tidy(h1)
    && h1 == h0.(core := h0.core.(chunks := h1.core.chunks, free := h1.core.free))
    && |h0.core.free| == BINS && Counted(T(h0.core), h0.core.free, BINS, 0, T(h1.core))
  }

  /** The chunk at place k can be swept. */
  lemma ReadyToSweep(h0: Heap, h1: Heap, h: Heap, k: nat, collected: nat)
    requires SweepReady(h0, h1) && SweepState(h0, h1, h, k, collected) && k < |h.core.ring|
    ensures var a := h.core.ring[k]; var t0 := T(h0.core);
            && a in h.core.chunks && a in t0 && TablesOk(t0) && ListsOk(t0, h0.core.free, h0.core.live)
            && CountersZero(t0) && h.core.L > 0 && |h0.core.free| == BINS
            && EntriesCounted(t0, h0.core.free, a, h.core.chunks[a])
            && a in h.core.own && h.core.own[a] == t0[a].own
            && ChunkOk(h.core.chunks[a], t0[a].own, h.core.L)
  {
    hide RegionsExact, RealSizeOk, ChunkOk, RingOk, Places, CacheUnused, TableOk, NothingLost, LiveOk, SlotOf, Distinct;
    hide NoCounters, ChunkSwept, AllDead, Expected, UsedPages;
    var a := h.core.ring[k];
    assert a in h.core.ring[k..];
    assert a in T(h0.core) && a in T(h1.core);
  }

  /** The record of the chunk at place k, after its sweep, is written back. */
  lemma SweptBack(h0: Heap, h1: Heap, h: Heap, k: nat, collected: nat, c: Chunk, own: Owners, n: nat)
    requires SweepReady(h0, h1) && SweepState(h0, h1, h, k, collected) && k < |h.core.ring|
    requires ChunkOk(c, own, h.core.L) && h.core.ring[k] in T(h0.core) && h.core.ring[k] in h.core.chunks
    requires Swept(T(h0.core), h0.core.free, h.core.ring[k], Table(own, c.info))
    requires |own| == |c.info| && NoCounters(own, c.info)
    requires c.freePages == h.core.chunks[h.core.ring[k]].freePages + n
    ensures var a := h.core.ring[k]; var h' := h.(core := WithChunk(h.core, a, c, own));
            && SweepState(h0, h1, h', k + 1, collected + n)
            && a in T(h'.core) && (c.freePages == PAGES - 1 <==> Unused(T(h'.core)[a]))
            && (k == 0 ==> a == h0.core.main && (Unused(T(h'.core)[a]) <==> MainDead(h0.core)))
  {
    hide LayoutOk, CoreOk, Counted, Swept, NoCounters, ChunkOk, Sweeping, Unused, TablesOf, UsedPages, Progress;
    var a, s := h.core.ring[k], h.core;
    var s' := WithChunk(s, a, c, own);
    SweptLength(T(h0.core), h0.core.free, a, Table(own, c.info));
    RingInChunks(s);
    assert a in s.ring;
    LayoutWith(s, a, c, own);
    SweepingNext(T(h0.core), h0.core.free, h1.core, s, k, c, own);
    UsedChange(s.chunks, s.ring, k, c);
    UnusedCount(s', a);
    FreedPages(h0, h1, h, k, collected, c, own);
    ProgressNext(T(h0.core), h0.core.free, h1.core.ring, s.ring, k, collected);
    if k == 0 {
      SweptMain(h0, h1, h, collected, c, own);
    }
  }

  lemma SweptMain(h0: Heap, h1: Heap, h: Heap, collected: nat, c: Chunk, own: Owners)
    requires SweepReady(h0, h1) && SweepState(h0, h1, h, 0, collected) && 0 < |h.core.ring|
    requires h.core.ring[0] in T(h0.core) && Swept(T(h0.core), h0.core.free, h.core.ring[0], Table(own, c.info))
    ensures h.core.ring[0] == h0.core.main && (Unused(Table(own, c.info)) <==> MainDead(h0.core))
  {
    hide LayoutOk, CoreOk, Counted, Swept, Sweeping, Unused, TablesOf, UsedPages, Progress, AllDead;
    FirstIsMain(h.core);
    ReadyToSweep(h0, h1, h, 0, collected);
    EmptiedBySweep(T(h0.core), h0.core.free, h0.core.main, Table(own, c.info));
  }

  /** The chunk stays just when a run of it stays. */
  lemma SettledHere(h0: Heap, h1: Heap, h: Heap, k: nat, collected: nat, c: Chunk, own: Owners)
    requires SweepReady(h0, h1) && SweepState(h0, h1, h, k, collected) && k < |h.core.ring|
    requires h.core.ring[k] in T(h0.core) && h.core.ring[k] in h.core.chunks
    requires Swept(T(h0.core), h0.core.free, h.core.ring[k], Table(own, c.info))
    requires Settled(T(h0.core), h0.core.free, h1.core.ring, h.core.ring, k)
    ensures if Unused(Table(own, c.info)) then Settled(T(h0.core), h0.core.free, h1.core.ring, Without(h.core.ring, k), k)
            else Settled(T(h0.core), h0.core.free, h1.core.ring, h.core.ring, k + 1)
  {
    hide LayoutOk, CoreOk, Counted, Swept, Sweeping, Unused, TablesOf, UsedPages, AllDead, Settled;
    ReadyToSweep(h0, h1, h, k, collected);
    EmptiedBySweep(T(h0.core), h0.core.free, h.core.ring[k], Table(own, c.info));
    hide Progress;
    SettledNext(T(h0.core), h0.core.free, h1.core.ring, h.core.ring, k, collected);
  }

  lemma FreedPages(h0: Heap, h1: Heap, h: Heap, k: nat, collected: nat, c: Chunk, own: Owners)
    requires SweepReady(h0, h1) && SweepState(h0, h1, h, k, collected) && k < |h.core.ring|
    requires ChunkOk(c, own, h.core.L) && h.core.ring[k] in T(h0.core)
    requires Swept(T(h0.core), h0.core.free, h.core.ring[k], Table(own, c.info))
    ensures h.core.ring[k] in h.core.chunks
    ensures c.freePages == h.core.chunks[h.core.ring[k]].freePages
                           + DeadBelow(T(h0.core), h0.core.free, h.core.ring[k], PAGES)
  {
    hide LayoutOk, CoreOk, Counted, Swept, Partition, SameBits, HeadsBefore, Sweeping, TablesOf, Progress;
    hide DeadBelow, FreeCount, SweepReady, SweepState;
    ReadyToSweep(h0, h1, h, k, collected);
    SweptFreePages(T(h0.core), h0.core.free, h.core.ring[k], Table(own, c.info));
  }

  lemma SweptLength(t: Tables, free: Lists, a: Address, y: Table)
    requires a in t && Swept(t, free, a, y)
    ensures |y.own| == |y.info| == PAGES
  {
  }

  lemma UnusedCount(s: State, a: Address)
    requires LayoutOk(s) && a in s.chunks
    ensures a in T(s) && (s.chunks[a].freePages == PAGES - 1 <==> Unused(T(s)[a]))
  {
    hide RegionsExact, RealSizeOk, ChunkOk, RingOk, Places, CacheUnused, Unused;
    CountTellsUnused(s.chunks, s.own, s.L, a);
  }

  lemma FirstIsMain(s: State)
    requires LayoutOk(s)
    ensures |s.ring| > 0 && s.ring[0] == s.main
  {
    hide RegionsExact, RealSizeOk, ChunksOk, Places, CacheUnused;
  }

  /** A sweep leaves a chunk without runs exactly when all its runs are dead. */
  lemma EmptiedBySweep(t: Tables, free: Lists, a: Address, y: Table)
    requires TablesOk(t) && a in t && Swept(t, free, a, y)
    ensures Unused(y) <==> AllDead(t, free, a)
  {
    hide Dead;
    HeaderAlone(a, t[a]);
    hide TablesOk;
    if Unused(y) {
      forall i | 0 <= i < PAGES && t[a].own[i] > 0 ensures Dead(t, free, a, t[a].own[i]) {
        assert y.own[i] < 0;
      }
    }
  }

  /** The header owns the first page only. */
  lemma HeaderAlone(a: Address, x: Table)
    requires TableOk(a, x)
    ensures |x.own| == PAGES && forall i | 0 < i < PAGES :: x.own[i] != 0
  {
    LrunFields(1);
    hide IsSrun, LrunPages, Lrun;
    assert RunAt(x.own, x.info, 0);
  }

  lemma SweepStateStarts(h0: Heap, h1: Heap)
    requires SweepReady(h0, h1) && Sweeping(T(h0.core), h0.core.free, h1.core, h1.core, 0)
    ensures SweepState(h0, h1, h1, 0, 0) && |h1.core.ring| > 0 && h1.core.main == Nth(h1.core.ring, 0)
  {
    hide LayoutOk, CoreOk, Counted, Sweeping;
    FirstIsMain(h1.core);
    assert h1.core.ring[..0] == [] && h1.core.ring[0..] == h1.core.ring;
  }

  /** The loop test: the walk is back at the main chunk just when the ring is done. */
  lemma RingPlace(h0: Heap, h1: Heap, h: Heap, k: nat, collected: nat)
    requires SweepState(h0, h1, h, k, collected) && k <= |h.core.ring| && |h.core.ring| > 0
    ensures h.core.main == h.core.ring[0]
    ensures k < |h.core.ring| <==> k == 0 || Nth(h.core.ring, k) != h.core.main
    ensures h.core.L > 0
  {
    hide RegionsExact, RealSizeOk, ChunksOk, Places, CacheUnused, Sweeping, UsedPages, SameBlocks, Progress;
  }

  lemma NextPlace(h0: Heap, h1: Heap, h: Heap, k: nat, collected: nat)
    requires SweepState(h0, h1, h, k + 1, collected) && k < |h.core.ring|
    ensures h.core.ring[k] in h.core.links.next && h.core.links.next[h.core.ring[k]] == Nth(h.core.ring, k + 1)
    ensures Tidy(h) && h.core.ring[0] == h.core.main
    ensures k > 0 ==> Nth(Without(h.core.ring, k), k) == Nth(h.core.ring, k + 1)
  {
    hide RegionsExact, RealSizeOk, ChunksOk, Places, CacheUnused, Sweeping, UsedPages, SameBlocks, Progress;
    assert Joined(h.core.links, h.core.ring[k], Nth(h.core.ring, k + 1));
  }

  lemma SweepDeleted(h0: Heap, h1: Heap, h: Heap, h': Heap, k: nat, collected: nat)
    requires SweepState(h0, h1, h, k + 1, collected) && 0 < k < |h.core.ring|
    requires Tidy(h') && SameBlocks(h, h') && OnlyUnusedGone(T(h.core), T(h'.core)) && SameChunks(h.core, h'.core)
    requires h'.core.ring == Without(h.core.ring, k) && h'.core.realSize <= h.core.realSize
    requires h.core.ring[k] in h.core.chunks && h.core.chunks[h.core.ring[k]].freePages == PAGES - 1
    ensures SweepState(h0, h1, h', k, collected)
  {
    hide LayoutOk, Sweeping, OnlyUnusedGone, Without, Progress;
    ProgressDelete(T(h0.core), h0.core.free, h1.core.ring, h.core.ring, k, collected);
    SweepingDelete(T(h0.core), h0.core.free, h1.core, h.core, h'.core, k);
    UsedAt(h.core.chunks, h.core.ring, k);
    RingInChunks(h'.core);
    UsedSame(h.core.chunks, h'.core.chunks, h'.core.ring);
  }

  lemma RingEnd(h0: Heap, h1: Heap, h: Heap, k: nat, collected: nat)
    requires SweepState(h0, h1, h, k, collected) && k <= |h.core.ring| && |h.core.ring| > 0
    requires k > 0 && Nth(h.core.ring, k) == h.core.main
    ensures k == |h.core.ring|
  {
    RingPlace(h0, h1, h, k, collected);
  }

  /**
   * The do-while loop around the ring.  The main chunk comes first.  If all its runs are dead it is
   * deleted, and the walk, which is to end where it began, has lost its end: the model stops here.
   */
  method SweepRing(ghost h0: Heap, h1: Heap) returns (h: Heap, collected: nat, ruined: bool)
    requires SweepReady(h0, h1) && Sweeping(T(h0.core), h0.core.free, h1.core, h1.core, 0)
    ensures ruined <==> MainDead(h0.core)
    ensures if ruined then MainGone(h.core) && !Tidy(h) else SweepState(h0, h1, h, |h.core.ring|, collected)
    ensures !ruined ==> Settled(T(h0.core), h0.core.free, h1.core.ring, h.core.ring, |h.core.ring|) && Fewer(h1, h)
  {
    hide LayoutOk, CoreOk, Counted, Swept, NoCounters, ChunkOk, Unused, TablesOf, Sound, TablesOk, ListsOk, MainDead;
    hide CountersZero, EntriesCounted, SweepReady, SweepState, Sweeping, Tidy, SameBlocks, MainGone, Fate;
    hide Settled, Progress, AllDead, KeepsChunk, OlderStays, Without;
    h, collected := h1, 0;
    var chunk, k, first := h.core.main, 0, true;
    SweepStateStarts(h0, h1);
    SettledStart(T(h0.core), h0.core.free, h1.core.ring);
    while first || chunk != h.core.main
      invariant SweepState(h0, h1, h, k, collected) && k <= |h.core.ring| && |h.core.ring| > 0
      invariant chunk == Nth(h.core.ring, k) && first == (k == 0)
      invariant k > 0 ==> !MainDead(h0.core)
      invariant Settled(T(h0.core), h0.core.free, h1.core.ring, h.core.ring, k) && Fewer(h1, h)
      decreases |h.core.ring| - k
    {
      RingPlace(h0, h1, h, k, collected);
      ReadyToSweep(h0, h1, h, k, collected);
      var c, own, n := SweepChunk(h.core.chunks[chunk], h.core.own[chunk], h.core.L, T(h0.core), h0.core.free, h0.core.live, chunk);
      SweptBack(h0, h1, h, k, collected, c, own, n);
      SettledHere(h0, h1, h, k, collected, c, own);
      h := h.(core := WithChunk(h.core, chunk, c, own));
      collected := collected + n;
      NextPlace(h0, h1, h, k, collected);
      if c.freePages == PAGES - 1 {
        var nextChunk := h.core.links.next[chunk];
        ghost var before := h;
        h := DeleteChunk(h, chunk, k);
        if k == 0 {
          return h, collected, true;
        }
        SweepDeleted(h0, h1, before, h, k, collected);
        chunk := nextChunk;
      } else {
        chunk := h.core.links.next[chunk];
        k := k + 1;
      }
      first := false;
    }
    RingEnd(h0, h1, h, k, collected);
    ruined := false;
  }

  /** What a collection does: dead runs are gone from pages and lists, everything live is as it was. */
  ghost predicate GcDone(h0: Heap, h: Heap) {
    && Sound(h) && h.stats == h0.stats && h.hugeList == h0.hugeList
    && h.core.L == h0.core.L && h.core.main == h0.core.main
    && h.core.huge == h0.core.huge && h.core.live == h0.core.live && h.core.leaked == h0.core.leaked
    && h.core.realSize <= h0.core.realSize && Fewer(h0, h)
    && h.core.ring == Remaining(T(h0.core), h0.core.free, h0.core.ring)
    && Collected(T(h0.core), h0.core.free, T(h.core)) && Filtered(T(h0.core), h0.core.free, h.core.free, BINS)
  }

  /**
   * zend_mm_gc.  It does what it should if and only if some block of the main chunk is live or is a
   * slot of bin 0; otherwise it deletes the main chunk, and the heap is broken.
   */
  method Gc(h0: Heap) returns (h: Heap, bytes: nat, ruined: bool)
    requires Sound(h0)
    ensures ruined <==> !Anchored(h0.core)
    ensures ruined ==> MainGone(h.core) && !Tidy(h)
    ensures !ruined ==> GcDone(h0, h)
    ensures !ruined ==> bytes == PAGE * DeadPages(T(h0.core), h0.core.free, h0.core.ring)
    ensures !ruined ==> bytes == PAGE * (UsedPages(h0.core.chunks, h0.core.ring) - UsedPages(h.core.chunks, h.core.ring))
  {
    hide LayoutOk, CoreOk, Counted, TablesOf, Sweeping, Filtered, ChunksOk, SameButInfo, Collected, Anchored, MainDead;
    hide UsedPages, DeadPages, SweepReady, SweepState, GcDone, BlocksOk, MainGone, Tidy;
    SoundCore(h0);
    MainDeadExactly(h0.core);
    var chunks, free := CountAndFilter(h0.core);
    var h1 := h0.(core := h0.core.(chunks := chunks, free := free));
    CountingDone(h0, h1);
    var collected;
    h, collected, ruined := SweepRing(h0, h1);
    if !ruined {
      CollectionDone(h0, h1, h, collected);
    }
    bytes := collected * PAGE;
  }

  lemma SoundCore(h: Heap)
    requires Sound(h)
    ensures CoreOk(h.core) && Tidy(h) && LayoutOk(h.core)
  {
    hide LayoutOk, BlocksOk, CountersZero;
  }

  /** The runs of the main chunk are all dead just when nothing there is live or a slot of bin 0. */
  lemma MainDeadExactly(s: State)
    requires CoreOk(s)
    ensures MainDead(s) <==> !Anchored(s)
  {
    hide LayoutOk, BlocksOk, CountersZero, AllDead, Anchored, TablesOf;
    MainTable(s);
    if Anchored(s) {
      AnchorKeepsRun(s);
    }
    if !AllDead(T(s), s.free, s.main) {
      RunHasAnchor(s);
    }
  }

  lemma MainTable(s: State)
    requires CoreOk(s)
    ensures s.main in T(s) && |T(s)[s.main].own| == |T(s)[s.main].info| == PAGES && TablesOk(T(s)) && |s.free| == BINS
    ensures Offset(s.main) == 0 && TableOk(s.main, T(s)[s.main])
  {
    hide RegionsExact, RealSizeOk, ChunksOk, CacheUnused, ListsOk, NothingLost, LiveOk, CountersZero, TableOk;
    LayoutTables(s);
    RingInChunks(s);
    FirstIsMain(s);
    BlocksLength(s);
    assert s.ring[0] in s.ring;
    assert TableOk(s.main, T(s)[s.main]);
    TableLength(s.main, T(s)[s.main]);
  }

  lemma TableLength(a: Address, x: Table)
    requires TableOk(a, x)
    ensures |x.own| == |x.info| == PAGES && Offset(a) == 0
  {
  }

  lemma AnchorKeepsRun(s: State)
    requires CoreOk(s) && Anchored(s)
    ensures !AllDead(T(s), s.free, s.main)
  {
    hide LayoutOk, CountersZero, TablesOf, Dead, TablesOk, OnGrid;
    MainTable(s);
    var p :| Offset(p) != 0 && Base(p) == s.main && Anchor(s, p);
    var i := PageNum(p);
    if p in s.live {
      hide ListsOk, NothingLost;
      assert BlockOf(T(s), s.huge, p, s.live[p]);
      if b: nat :| SlotOf(T(s), p, b) {
        LiveNotDead(T(s), s.free, s.huge, s.live, p);
        var h: nat :| SlotIn(T(s), p, h, b);
        SlotEntry(T(s), p, h, b);
      } else {
        var m: nat :| LargeOf(T(s), p, m);
        LargeEntry(T(s), p, m);
        LargeNotDead(T(s), s.free, p, m);
      }
    } else {
      assert SlotOf(T(s), p, 0);
      var h: nat :| SlotIn(T(s), p, h, 0);
      ZeroNotDead(T(s), s.free, p, h);
    }
    assert T(s)[s.main].own[i] > 0 && !Dead(T(s), s.free, s.main, T(s)[s.main].own[i]);
  }

  lemma ZeroNotDead(t: Tables, free: Lists, p: Address, h: nat)
    requires SlotIn(t, p, h, 0)
    ensures !Dead(t, free, Base(p), h)
  {
    hide OnGrid;
  }

  lemma RunHasAnchor(s: State)
    requires CoreOk(s) && !AllDead(T(s), s.free, s.main)
    ensures Anchored(s)
  {
    hide LayoutOk, BlocksOk, CountersZero, TablesOf, Dead;
    MainTable(s);
    hide TableOk;
    var i :| 0 <= i < PAGES && T(s)[s.main].own[i] > 0 && !Dead(T(s), s.free, s.main, T(s)[s.main].own[i]);
    RunAnchor(s, i);
    assert Anchored(s);
  }

  lemma RunAnchor(s: State, i: nat)
    requires CoreOk(s) && s.main in T(s) && i < |T(s)[s.main].own| == PAGES && T(s)[s.main].own[i] > 0
    requires !Dead(T(s), s.free, s.main, T(s)[s.main].own[i])
    ensures RunAnchored(s, T(s)[s.main].own[i])
  {
    hide LayoutOk, BlocksOk, CountersZero, TablesOf, Dead, RunAnchored;
    MainTable(s);
    var x := T(s)[s.main];
    OwnerIsHead(x.own, x.info, i);
    var h: nat := x.own[i];
    RunsLength(x, h);
    if !IsSrun(x.info[h]) {
      LargeAnchor(s, h);
    } else if SrunBin(x.info[h]) == 0 {
      ZeroAnchor(s, h);
    } else {
      SmallAnchor(s, h);
    }
  }

  lemma RunsLength(x: Table, h: nat)
    requires Partition(x.own, x.info) && Head(x.own, h) && h > 0
    ensures RunAt(x.own, x.info, h)
  {
  }

  lemma LargeAnchor(s: State, h: nat)
    requires CoreOk(s) && s.main in T(s) && 0 < h < PAGES
    requires |T(s)[s.main].own| == |T(s)[s.main].info| == PAGES
    requires RunAt(T(s)[s.main].own, T(s)[s.main].info, h) && !IsSrun(T(s)[s.main].info[h])
    ensures RunAnchored(s, h)
  {
    hide LayoutOk, CountersZero, TablesOf, LiveOk, ListsOk, TablesOk, SlotOf, RunInfo;
    MainTable(s);
    LocatePage(s.main, h);
    var p := PageAddress(s.main, h);
    assert LargeOf(T(s), p, LrunPages(T(s)[s.main].info[h]));
    assert Anchor(s, p);
  }

  lemma ZeroAnchor(s: State, h: nat)
    requires CoreOk(s) && s.main in T(s) && 0 < h < PAGES
    requires |T(s)[s.main].own| == |T(s)[s.main].info| == PAGES && T(s)[s.main].own[h] == h
    requires IsSrun(T(s)[s.main].info[h]) && SrunBin(T(s)[s.main].info[h]) == 0
    ensures RunAnchored(s, h)
  {
    hide LayoutOk, CountersZero, TablesOf, LiveOk, ListsOk, TablesOk, SlotOf, LargeOf, SlotIn, SmallRunAt;
    MainTable(s);
    HeadIsRun(T(s), s.main, h);
    BinFacts(0);
    SlotIsSlot(T(s), s.main, h, 0, 0);
    var p := SlotAddress(s.main, h, 0, 0);
    SlotNotHuge(T(s), p, 0);
    SlotsRun(T(s), p, h, 0);
    assert Anchor(s, p);
  }

  lemma SlotsRun(t: Tables, p: Address, h: nat, b: nat)
    requires SlotIn(t, p, h, b)
    ensures Base(p) in t && PageNum(p) < |t[Base(p)].own| && t[Base(p)].own[PageNum(p)] == h
  {
    hide OnGrid;
  }

  lemma SmallAnchor(s: State, h: nat)
    requires CoreOk(s) && s.main in T(s) && 0 < h < PAGES && !Dead(T(s), s.free, s.main, h)
    requires |T(s)[s.main].own| == |T(s)[s.main].info| == PAGES && T(s)[s.main].own[h] == h
    requires IsSrun(T(s)[s.main].info[h]) && SrunBin(T(s)[s.main].info[h]) > 0
    ensures RunAnchored(s, h)
  {
    hide LayoutOk, CountersZero, TablesOf, LiveOk, ListsOk, NothingLost, TablesOk, SlotIn, Dead;
    MainTable(s);
    DeadMeansNoneLive(T(s), s.free, s.huge, s.live, s.main, h);
    var p: Address, b: nat :| SlotIn(T(s), p, h, b) && Base(p) == s.main && p in s.live;
    assert SlotOf(T(s), p, b);
    SlotNotHuge(T(s), p, b);
    SlotsRun(T(s), p, h, b);
    assert Anchor(s, p);
  }

  lemma CountingDone(h0: Heap, h1: Heap)
    requires Sound(h0)
    requires h1 == h0.(core := h0.core.(chunks := h1.core.chunks, free := h1.core.free))
    requires ChunksOk(h1.core.chunks, h0.core.own, h0.core.L) && SameButInfo(h0.core.chunks, h1.core.chunks)
    requires |h0.core.free| == BINS
    requires Counted(T(h0.core), h0.core.free, BINS, 0, TablesOf(h1.core.chunks, h0.core.own))
    ensures SweepReady(h0, h1) && Sweeping(T(h0.core), h0.core.free, h1.core, h1.core, 0)
    ensures UsedPages(h1.core.chunks, h1.core.ring) == UsedPages(h0.core.chunks, h0.core.ring)
  {
    hide LayoutOk, Counted, TablesOf, Sweeping, ChunksOk, SameButInfo, UsedPages;
    CountedLayout(h0.core, h1.core.chunks, h1.core.free);
    CountingStarts(h0.core);
    SweepingStarts(T(h0.core), h0.core.free, h1.core);
  }

  /** A chunk that remains has a run. */
  lemma RemainingBusy(t0: Tables, free: Lists, ring0: seq<Address>, s: State)
    requires LayoutOk(s) && Collected(t0, free, T(s)) && s.ring == Remaining(t0, free, ring0)
    ensures BusyBut(s, s.main)
  {
    hide LayoutOk, TablesOf, Collected, Remaining, HasRun;
    forall c | c in s.ring ensures c in s.own && HasRun(s.own[c]) {
      RemainingHas(t0, free, ring0, c);
      RunStays(t0, free, s, c);
    }
  }

  lemma RunStays(t0: Tables, free: Lists, s: State, c: Address)
    requires LayoutOk(s) && Collected(t0, free, T(s)) && c in s.ring && !Empties(t0, free, c)
    ensures c in s.own && HasRun(s.own[c])
  {
    hide RegionsExact, RealSizeOk, RingOk, Places, CacheUnused, ChunkOk, Dead;
    RingInChunks(s);
    ChunkHeader(s.chunks[c], s.own[c], s.L);
    assert c in T(s) && Swept(t0, free, c, T(s)[c]);
    var i :| 0 <= i < PAGES && t0[c].own[i] > 0 && !Dead(t0, free, c, t0[c].own[i]);
    assert s.own[c][i] == t0[c].own[i];
  }

  lemma CollectionDone(h0: Heap, h1: Heap, h: Heap, collected: nat)
    requires SweepReady(h0, h1) && SweepState(h0, h1, h, |h.core.ring|, collected)
    requires Settled(T(h0.core), h0.core.free, h1.core.ring, h.core.ring, |h.core.ring|) && Fewer(h1, h)
    requires Filtered(T(h0.core), h0.core.free, h1.core.free, BINS)
    ensures GcDone(h0, h)
    ensures collected == DeadPages(T(h0.core), h0.core.free, h0.core.ring)
    ensures collected + UsedPages(h.core.chunks, h.core.ring) == UsedPages(h1.core.chunks, h1.core.ring)
  {
    hide Counted, TablesOf, Sweeping, ChunksOk, SpaceOf, RegionsExact, RealSizeOk, Collected, CountersZero;
    hide UsedPages, Survivors, ListsOk, LiveOk, NothingLost, TablesOk;
    SweepingEnds(T(h0.core), h0.core.free, h1.core, h.core);
    LayoutTables(h.core);
    CollectBlocks(T(h0.core), h0.core.free, T(h.core), h.core.free, h0.core.huge, h0.core.live);
    assert h1.core.ring[..|h1.core.ring|] == h1.core.ring && h.core.ring[..|h.core.ring|] == h.core.ring;
    RemainingBusy(T(h0.core), h0.core.free, h0.core.ring, h.core);
    hide Remaining, BusyBut;
  }

  lemma LayoutTables(s: State)
    requires LayoutOk(s)
    ensures TablesOk(T(s))
  {
    hide RegionsExact, RealSizeOk, TablesOk;
    ChunksTables(s.chunks, s.own, s.L);
  }

  lemma RingAfter(h0: Heap, h: Heap)
    requires GcDone(h0, h)
    ensures h.core.ring == Remaining(T(h0.core), h0.core.free, h0.core.ring) && Sound(h)
  {
    hide Sound, Collected, Filtered, Remaining;
  }

  lemma {:induction false} AllRemain(t: Tables, free: Lists, ring: seq<Address>)
    requires forall a | a in ring :: !Empties(t, free, a)
    ensures Remaining(t, free, ring) == ring
  {
    hide Empties;
    if ring != [] {
      assert ring == ring[..|ring| - 1] + [ring[|ring| - 1]];
      AllRemain(t, free, ring[..|ring| - 1]);
    }
  }

  lemma {:induction false} DeadPagesOf(t: Tables, free: Lists, ring: seq<Address>, a: Address)
    requires DeadPages(t, free, ring) == 0 && a in ring
    ensures DeadBelow(t, free, a, PAGES) == 0
  {
    hide DeadBelow;
    if ring[|ring| - 1] != a {
      assert ring == ring[..|ring| - 1] + [ring[|ring| - 1]];
      DeadPagesOf(t, free, ring[..|ring| - 1], a);
    }
  }

  lemma {:induction false} NoDeadPage(t: Tables, free: Lists, a: Address, n: nat, i: nat)
    requires DeadBelow(t, free, a, n) == 0 && a in t && i < n <= |t[a].own| && t[a].own[i] > 0
    ensures !Dead(t, free, a, t[a].own[i])
  {
    hide Dead;
    if i < n - 1 {
      NoDeadPage(t, free, a, n - 1, i);
    }
  }

  /** A collection that finds no page to give back takes no chunk out of the ring. */
  lemma NothingCollected(h0: Heap, h: Heap)
    requires Sound(h0) && GcDone(h0, h) && DeadPages(T(h0.core), h0.core.free, h0.core.ring) == 0
    ensures h.core.ring == h0.core.ring && h.core.cached == h0.core.cached && h.core.realSize == h0.core.realSize
  {
    hide LayoutOk, CoreOk, TablesOf, Collected, Filtered, Remaining, DeadPages, Empties, HasRun;
    var t, free := T(h0.core), h0.core.free;
    FirstIsMain(h.core);
    RemainingHas(t, free, h0.core.ring, h0.core.main);
    forall a | a in h0.core.ring ensures !Empties(t, free, a) {
      if a != h0.core.main {
        DeadPagesOf(t, free, h0.core.ring, a);
        BusyStays(t, free, h0.core, a);
      }
    }
    AllRemain(t, free, h0.core.ring);
  }

  lemma BusyStays(t: Tables, free: Lists, s: State, a: Address)
    requires CoreOk(s) && t == T(s) && a in s.ring && a in s.own && HasRun(s.own[a]) && DeadBelow(t, free, a, PAGES) == 0
    ensures !Empties(t, free, a)
  {
    hide RegionsExact, RealSizeOk, RingOk, Places, CacheUnused, ChunkOk, Dead, DeadBelow, BlocksOk, CountersZero;
    RingInChunks(s);
    LayoutFacts(s);
    var i :| 0 < i < |s.own[a]| && s.own[a][i] > 0;
    NoDeadPage(t, free, a, PAGES, i);
    assert t[a].own[i] == s.own[a][i];
  }

  /** A second collection finds nothing. */
  lemma SecondGcFindsNothing(h0: Heap, h: Heap)
    requires Sound(h0) && GcDone(h0, h)
    ensures DeadPages(T(h.core), h.core.free, h.core.ring) == 0
  {
    hide LayoutOk, TablesOf, Collected, Filtered, CountersZero, BlocksOk, Dead;
    forall a: Address, s: nat ensures !Dead(T(h.core), h.core.free, a, s) {
      NoneDeadAfter(T(h0.core), h0.core.free, T(h.core), h.core.free, h.core.huge, h.core.live, a, s);
    }
    NoDeadPages(T(h.core), h.core.free, h.core.ring);
  }

  /** A collection takes a small run away just when its bin is not the first and no slot of it is live. */
  lemma RunGoneExactly(h0: Heap, h: Heap, a: Address, s: nat)
    requires Sound(h0) && GcDone(h0, h) && a in T(h0.core) && 0 < s < PAGES
    requires |T(h0.core)[a].own| == |T(h0.core)[a].info| == PAGES
    requires T(h0.core)[a].own[s] == s && IsSrun(T(h0.core)[a].info[s])
    ensures a in T(h.core) ==> |T(h.core)[a].own| == PAGES
    ensures (a in T(h.core) ==> T(h.core)[a].own[s] != s) <==>
              SrunBin(T(h0.core)[a].info[s]) != 0
              && forall p, b: nat | SlotIn(T(h0.core), p, s, b) && Base(p) == a :: p !in h0.core.live
  {
    hide LayoutOk, BlocksOk, CountersZero, TablesOf, Dead, SlotIn, Filtered;
    SoundCore(h0);
    if SrunBin(T(h0.core)[a].info[s]) > 0 {
      DeadMeansNoneLive(T(h0.core), h0.core.free, h0.core.huge, h0.core.live, a, s);
    } else {
      BinZeroAlive(T(h0.core), h0.core.free, a, s);
    }
    hide Sound;
  }

  lemma BinZeroAlive(t: Tables, free: Lists, a: Address, s: nat)
    requires a in t && s < |t[a].info| && SrunBin(t[a].info[s]) == 0
    ensures !Dead(t, free, a, s)
  {
  }
}
