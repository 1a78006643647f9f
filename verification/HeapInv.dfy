// The parts of the heap's invariant, and how they survive the comings and goings of chunks.
module HeapInv {
  import opened Sizes
  import opened Addresses
  import opened Ring
  import opened ChunkPages
  import opened PageBitset
  import opened Blocks
  import opened BlockSteps
  import opened GcCount
  import opened Regions

  function ChunkBytes(n: int): int {
    n * 0x20_0000
  }

  /** Chunks in the cache carry no run but their header. */
  ghost predicate CacheUnused(cached: seq<Address>, t: Tables) {
    forall a | a in cached :: a in t && Unused(t[a])
  }

  /** All chunks, in the ring or in the cache, are well formed. */
  ghost predicate SpaceOk(L: nat, chunks: Chunks, own: OwnerMap, links: Links, ring: seq<Address>,
                          main: Address, cached: seq<Address>) {
    && L > 0 && ChunksOk(chunks, own, L)
    && RingOk(links, ring) && ring[0] == main
    && Places(ring, cached, chunks.Keys) && CacheUnused(cached, TablesOf(chunks, own))
  }

  ghost predicate RealSizeOk(realSize: int, ring: seq<Address>, cached: seq<Address>, huge: Ledger) {
    realSize == ChunkBytes(|ring| + |cached|) + Sum(huge)
  }

  lemma TablesWithout(chunks: Chunks, own: OwnerMap, a: Address)
    ensures TablesOf(chunks - {a}, own - {a}) == TablesOf(chunks, own) - {a}
  {
  }

  /** Giving one chunk back to the system. */
  lemma DropChunk(chunks: Chunks, own: OwnerMap, L: nat, a: Address)
    requires ChunksOk(chunks, own, L)
    ensures ChunksOk(chunks - {a}, own - {a}, L)
  {
    hide ChunkOk;
  }

  /** 511 free pages are the sign of a chunk without runs. */
  lemma CountTellsUnused(chunks: Chunks, own: OwnerMap, L: nat, a: Address)
    requires ChunksOk(chunks, own, L) && a in chunks
    ensures chunks[a].freePages == PAGES - 1 <==> Unused(TablesOf(chunks, own)[a])
  {
    hide Partition, SameBits;
    OwnersLength(chunks[a], own[a], L);
    OnlyHeader(own[a]);
    ChunkHeader(chunks[a], own[a], L);
  }

  lemma ChunkHeader(c: Chunk, own: Owners, L: nat)
    requires ChunkOk(c, own, L)
    ensures own[0] == 0
  {
  }

  // ---- zend_mm_delete_chunk --------------------------------------------------------------------------

  lemma SpaceToCache(L: nat, chunks: Chunks, own: OwnerMap, links: Links, ring: seq<Address>,
                     main: Address, cached: seq<Address>, k: nat)
    requires SpaceOk(L, chunks, own, links, ring, main, cached) && 0 < k < |ring|
    requires ring[k] in chunks && Unused(TablesOf(chunks, own)[ring[k]])
    ensures ring[k] in links.next && ring[k] in links.prev
    ensures SpaceOk(L, chunks, own, Unlink(links, ring[k]), Without(ring, k), main, [ring[k]] + cached)
  {
    hide ChunkOk, RingOk, Places, Unused;
    UnlinkOk(links, ring, k);
    PlaceToCache(ring, cached, chunks.Keys, k);
    CacheFront(ring[k], cached, TablesOf(chunks, own));
  }

  lemma CacheFront(a: Address, cached: seq<Address>, t: Tables)
    requires CacheUnused(cached, t) && a in t && Unused(t[a])
    ensures CacheUnused([a] + cached, t)
  {
    hide Unused;
  }

  lemma SpaceToSystem(L: nat, chunks: Chunks, own: OwnerMap, links: Links, ring: seq<Address>,
                      main: Address, cached: seq<Address>, k: nat)
    requires SpaceOk(L, chunks, own, links, ring, main, cached) && 0 < k < |ring|
    ensures ring[k] in links.next && ring[k] in links.prev
    ensures SpaceOk(L, chunks - {ring[k]}, own - {ring[k]}, Unlink(links, ring[k]), Without(ring, k), main, cached)
  {
    hide ChunkOk, RingOk, Unused;
    UnlinkOk(links, ring, k);
    DropChunk(chunks, own, L, ring[k]);
    TablesWithout(chunks, own, ring[k]);
    assert ring[k] in ring;
    PlaceNowhere(ring, cached, chunks.Keys, k);
    assert (chunks - {ring[k]}).Keys == chunks.Keys - {ring[k]};
  }

  lemma SpaceSwap(L: nat, chunks: Chunks, own: OwnerMap, links: Links, ring: seq<Address>,
                  main: Address, cached: seq<Address>, k: nat)
    requires SpaceOk(L, chunks, own, links, ring, main, cached) && 0 < k < |ring| && cached != []
    requires ring[k] in chunks && Unused(TablesOf(chunks, own)[ring[k]])
    ensures ring[k] in links.next && ring[k] in links.prev
    ensures SpaceOk(L, chunks - {cached[0]}, own - {cached[0]}, Unlink(links, ring[k]), Without(ring, k), main,
                    [ring[k]] + cached[1..])
  {
    hide ChunkOk, RingOk, Unused;
    UnlinkOk(links, ring, k);
    DropChunk(chunks, own, L, cached[0]);
    TablesWithout(chunks, own, cached[0]);
    assert ring[k] in ring && cached[0] in cached;
    RestMembers(cached);
    PlaceSwap(ring, cached, chunks.Keys, k);
    CacheFront(ring[k], cached[1..], TablesOf(chunks, own) - {cached[0]});
    assert (chunks - {cached[0]}).Keys == chunks.Keys - {cached[0]};
  }

  // ---- the get_chunk: label ---------------------------------------------------------------------------

  /** The zeroed header of a chunk that the system has just mapped. */
  ghost predicate Zeroed(c: Chunk, L: nat)
    requires L > 0
  {
    && Wellformed(c.freeMap, L) && Pages(c.freeMap, L) == PAGES && |c.info| == PAGES
    && forall i | 0 < i < PAGES :: !Used(c.freeMap, L, i)
  }

  lemma UnusedIsZeroed(c: Chunk, own: Owners, L: nat)
    requires ChunkOk(c, own, L) && L > 0 && Unused(Table(own, c.info))
    ensures Zeroed(c, L)
  {
    hide Partition, Used, Pages;
  }

  /** Writing a well-formed record for chunk a. */
  lemma PutChunk(L: nat, chunks: Chunks, own: OwnerMap, a: Address, c: Chunk, o: Owners)
    requires ChunksOk(chunks, own, L) && a > 0 && Offset(a) == 0 && ChunkOk(c, o, L)
    ensures ChunksOk(chunks[a := c], own[a := o], L)
    ensures TablesOf(chunks, own).Keys == chunks.Keys
    ensures TablesOf(chunks[a := c], own[a := o]) == TablesOf(chunks, own)[a := Table(o, c.info)]
  {
    hide ChunkOk, Offset;
    TablesUpdate(chunks, own, a, c, o);
  }

  lemma PutCounters(t: Tables, a: Address, x: Table)
    requires CountersZero(t) && |x.own| == |x.info| == PAGES && NoCounters(x.own, x.info)
    ensures CountersZero(t[a := x])
  {
    hide NoCounters;
  }

  lemma CacheElsewhere(cached: seq<Address>, cached': seq<Address>, t: Tables, a: Address, x: Table)
    requires CacheUnused(cached, t) && a !in cached' && forall p | p in cached' :: p in cached
    ensures CacheUnused(cached', t[a := x])
  {
    hide Unused;
  }

  /** A chunk initialised and linked in, whether new or from the cache. */
  lemma SpaceInit(L: nat, chunks: Chunks, own: OwnerMap, links: Links, ring: seq<Address>, main: Address,
                  cached: seq<Address>, cached': seq<Address>, a: Address, num: nat, c: Chunk)
    requires SpaceOk(L, chunks, own, links, ring, main, cached) && Zeroed(c, L)
    requires (a !in chunks && cached' == cached) || (cached != [] && a == cached[0] && cached' == cached[1..])
    requires a > 0 && Offset(a) == 0
    ensures |c.freeMap| > 0 && main in links.prev && |c.info| > 0
    ensures SpaceOk(L, chunks[a := InitChunk(num, c.freeMap, c.info)], own[a := NoOwners()],
                    LinkLast(links, main, a), ring + [a], main, cached')
  {
    hide ChunksOk, RingOk, Unused, Places, Pages, ChunkOk, NoCounters, CacheUnused;
    InitOk(num, c.freeMap, c.info, L);
    var c' := InitChunk(num, c.freeMap, c.info);
    PutChunk(L, chunks, own, a, c', NoOwners());
    NotCached(ring, cached, chunks.Keys, a);
    CacheElsewhere(cached, cached', TablesOf(chunks, own), a, Table(NoOwners(), c'.info));
    if a !in chunks {
      PlaceLast(ring, cached, chunks.Keys, a);
    } else {
      PlaceCached(ring, cached, chunks.Keys);
      assert chunks.Keys + {a} == chunks.Keys;
    }
    LinkLastOk(links, ring, a);
    assert chunks[a := c'].Keys == chunks.Keys + {a};
  }

  lemma NotCached(ring: seq<Address>, cached: seq<Address>, chunks: set<Address>, a: Address)
    requires Places(ring, cached, chunks)
    ensures a !in chunks ==> a !in cached
    ensures cached != [] && a == cached[0] ==> a !in cached[1..] && forall p | p in cached[1..] :: p in cached
  {
    if cached != [] {
      RestMembers(cached);
    }
  }

  /** The new chunk has no runs, so the blocks are as before. */
  lemma InitBlocks(L: nat, chunks: Chunks, own: OwnerMap, a: Address, c: Chunk,
                   free: Lists, huge: Ledger, live: Ledger)
    requires BlocksOk(TablesOf(chunks, own), free, huge, live)
    requires ChunkOk(c, NoOwners(), L) && a > 0 && Offset(a) == 0
    requires a in TablesOf(chunks, own) ==> Unused(TablesOf(chunks, own)[a])
    ensures BlocksOk(TablesOf(chunks[a := c], own[a := NoOwners()]), free, huge, live)
  {
    hide Partition, ListsOk, NothingLost, LiveOk, SameBits, FreeCount, HeadsBefore;
    TablesUpdate(chunks, own, a, c, NoOwners());
    OwnersLength(c, NoOwners(), L);
    var t := TablesOf(chunks, own);
    UnusedChunks(t, t[a := Table(NoOwners(), c.info)], free, huge, live);
  }

  // ---- changing one chunk -----------------------------------------------------------------------------

  /** A chunk of the ring is replaced by a well-formed one: its runs change, its place does not. */
  lemma SpaceChange(L: nat, chunks: Chunks, own: OwnerMap, links: Links, ring: seq<Address>, main: Address,
                    cached: seq<Address>, a: Address, c: Chunk, o: Owners)
    requires SpaceOk(L, chunks, own, links, ring, main, cached) && a in ring
    requires ChunkOk(c, o, L)
    ensures a in chunks && SpaceOk(L, chunks[a := c], own[a := o], links, ring, main, cached)
  {
    hide ChunkOk, RingOk, Unused;
    PutChunk(L, chunks, own, a, c, o);
    hide ChunksOk;
    assert chunks[a := c].Keys == chunks.Keys;
  }

  // ---- the whole structure ------------------------------------------------------------------------------

  /** A snapshot of the fields that the structural invariant is about. */
  datatype State = State(
    L: nat, chunks: Chunks, own: OwnerMap, links: Links, ring: seq<Address>, main: Address,
    cached: seq<Address>, free: Lists, huge: Ledger, live: Ledger, mapped: Ledger, leaked: Ledger, realSize: int)

  ghost function T(s: State): Tables {
    TablesOf(s.chunks, s.own)
  }

  ghost predicate SpaceOf(s: State) {
    SpaceOk(s.L, s.chunks, s.own, s.links, s.ring, s.main, s.cached)
  }

  /** Chunks, regions and the byte count of the regions agree. */
  ghost predicate LayoutOk(s: State) {
    && SpaceOf(s)
    && RegionsExact(s.mapped, s.chunks.Keys, s.huge, s.leaked)
    && RealSizeOk(s.realSize, s.ring, s.cached, s.huge)
  }

  ghost predicate CoreOk(s: State) {
    && LayoutOk(s) && CountersZero(T(s))
    && BlocksOk(T(s), s.free, s.huge, s.live)
  }

  /** What every caller may read off the structure. */
  lemma LayoutFacts(s: State)
    requires LayoutOk(s)
    ensures s.L > 0 && |s.ring| > 0 && s.ring[0] == s.main && T(s).Keys == s.chunks.Keys == s.own.Keys
    ensures forall a | a in s.ring || a in s.cached :: a in s.chunks
    ensures TablesOk(T(s))
    ensures forall a | a in s.chunks :: |s.own[a]| == |s.chunks[a].info| == PAGES && Offset(a) == 0 && a > 0
    ensures forall i | 0 <= i < |s.ring| :: s.ring[i] in s.links.next && s.links.next[s.ring[i]] == Nth(s.ring, i + 1)
    ensures forall i | 0 < i < |s.ring| :: s.ring[i] != s.main
    ensures s.main in s.links.prev && s.links.prev[s.main] in s.ring
  {
    hide RegionsExact, RealSizeOk, Unused, ChunkOk, CacheUnused, TablesOk;
    ChunksTables(s.chunks, s.own, s.L);
    Lengths(s);
    assert Joined(s.links, s.ring[|s.ring| - 1], Nth(s.ring, |s.ring|));
    forall i | 0 <= i < |s.ring| ensures Joined(s.links, s.ring[i], Nth(s.ring, i + 1)) {
    }
  }

  lemma Lengths(s: State)
    requires ChunksOk(s.chunks, s.own, s.L)
    ensures forall a | a in s.chunks :: |s.own[a]| == |s.chunks[a].info| == PAGES
  {
    forall a | a in s.chunks ensures |s.own[a]| == |s.chunks[a].info| == PAGES {
      OwnersLength(s.chunks[a], s.own[a], s.L);
    }
  }

  lemma BlocksLength(s: State)
    requires CoreOk(s)
    ensures |s.free| == BINS
  {
    hide LayoutOk, TablesOk, LiveOk, NothingLost;
  }

  /** The record of chunk a is replaced; what it owns may change too. */
  function WithChunk(s: State, a: Address, c: Chunk, own: Owners): State {
    s.(chunks := s.chunks[a := c], own := s.own[a := own])
  }

  lemma LayoutWith(s: State, a: Address, c: Chunk, own: Owners)
    requires LayoutOk(s) && a in s.ring && ChunkOk(c, own, s.L)
    ensures LayoutOk(WithChunk(s, a, c, own)) && T(WithChunk(s, a, c, own)) == T(s)[a := Table(own, c.info)]
    ensures a in s.chunks
  {
    hide RegionsExact, RealSizeOk, ChunkOk;
    SpaceChange(s.L, s.chunks, s.own, s.links, s.ring, s.main, s.cached, a, c, own);
    TablesUpdate(s.chunks, s.own, a, c, own);
    assert s.chunks[a := c].Keys == s.chunks.Keys;
    hide SpaceOk;
  }

  function Cached(s: State, k: nat): State
    requires k < |s.ring| && s.ring[k] in s.links.next && s.ring[k] in s.links.prev
  {
    s.(links := Unlink(s.links, s.ring[k]), ring := Without(s.ring, k), cached := [s.ring[k]] + s.cached)
  }

  function Dropped(s: State, a: Address): State {
    s.(chunks := s.chunks - {a}, own := s.own - {a}, mapped := s.mapped - {a},
       realSize := s.realSize - 0x20_0000)
  }

  function Released(s: State, k: nat): State
    requires k < |s.ring| && s.ring[k] in s.links.next && s.ring[k] in s.links.prev
  {
    Dropped(s, s.ring[k]).(links := Unlink(s.links, s.ring[k]), ring := Without(s.ring, k))
  }

  function Swapped(s: State, k: nat): State
    requires k < |s.ring| && s.ring[k] in s.links.next && s.ring[k] in s.links.prev && s.cached != []
  {
    Dropped(s, s.cached[0]).(links := Unlink(s.links, s.ring[k]), ring := Without(s.ring, k),
                             cached := [s.ring[k]] + s.cached[1..])
  }

  /** Only chunks without runs are gone. */
  ghost predicate OnlyUnusedGone(t: Tables, t': Tables) {
    && (forall c | c in t' :: c in t && t'[c] == t[c])
    && (forall c | c in t && c !in t' :: Unused(t[c]))
  }

  /** The chunks that remain are as they were. */
  ghost predicate SameChunks(s: State, s': State) {
    && s'.chunks.Keys <= s.chunks.Keys && s'.own.Keys <= s.own.Keys
    && (forall c | c in s'.chunks :: s'.chunks[c] == s.chunks[c])
    && (forall c | c in s'.own :: s'.own[c] == s.own[c])
  }

  lemma NoneGone(t: Tables)
    ensures OnlyUnusedGone(t, t)
  {
  }

  /** Losing chunks without runs takes no block away. */
  lemma GoneKeepsBlocks(t: Tables, t': Tables, free: Lists, huge: Ledger, live: Ledger)
    requires OnlyUnusedGone(t, t') && BlocksOk(t, free, huge, live) && CountersZero(t)
    ensures BlocksOk(t', free, huge, live) && CountersZero(t')
  {
    hide Unused, ListsOk, NothingLost, LiveOk, TableOk, NoCounters;
    assert TablesOk(t');
    UnusedChunks(t, t', free, huge, live);
  }

  lemma LayoutDelete(s: State, k: nat)
    requires LayoutOk(s) && 0 < k < |s.ring| && s.ring[k] in T(s) && Unused(T(s)[s.ring[k]])
    ensures s.ring[k] in s.links.next && s.ring[k] in s.links.prev && s.ring[k] in s.chunks
    ensures LayoutOk(Cached(s, k)) && T(Cached(s, k)) == T(s) && SameChunks(s, Cached(s, k))
    ensures LayoutOk(Released(s, k)) && OnlyUnusedGone(T(s), T(Released(s, k))) && SameChunks(s, Released(s, k))
    ensures s.cached != [] ==>
              && s.cached[0] in s.chunks && LayoutOk(Swapped(s, k))
              && OnlyUnusedGone(T(s), T(Swapped(s, k))) && SameChunks(s, Swapped(s, k))
  {
    hide SpaceOk, RegionsExact, RealSizeOk, Unused, TablesOf, OnlyUnusedGone, SameChunks;
    var a := s.ring[k];
    SameChunksAfter(s, k);
    SpaceToCache(s.L, s.chunks, s.own, s.links, s.ring, s.main, s.cached, k);
    SpaceToSystem(s.L, s.chunks, s.own, s.links, s.ring, s.main, s.cached, k);
    DropOne(s, a);
    if s.cached != [] {
      SpaceSwap(s.L, s.chunks, s.own, s.links, s.ring, s.main, s.cached, k);
      CacheHead(s);
      DropOne(s, s.cached[0]);
    }
    RealSizes(s, k);
  }

  lemma SameChunksAfter(s: State, k: nat)
    requires k < |s.ring|
    ensures s.ring[k] in s.links.next && s.ring[k] in s.links.prev ==>
              && SameChunks(s, Cached(s, k)) && SameChunks(s, Released(s, k))
              && (s.cached != [] ==> SameChunks(s, Swapped(s, k)))
  {
    hide Unlink, Without;
  }

  lemma RingInChunks(s: State)
    requires LayoutOk(s)
    ensures T(s).Keys == s.chunks.Keys == s.own.Keys && Distinct(s.ring)
    ensures forall a | a in s.ring :: a in s.chunks
  {
    hide RegionsExact, RealSizeOk, Unused, ChunkOk, CacheUnused;
  }

  lemma CacheHead(s: State)
    requires LayoutOk(s) && s.cached != []
    ensures s.cached[0] in T(s) && Unused(T(s)[s.cached[0]])
  {
    hide RegionsExact, RealSizeOk, Unused, ChunksOk, RingOk;
  }

  lemma DropOne(s: State, a: Address)
    requires LayoutOk(s) && a in T(s) && Unused(T(s)[a])
    ensures RegionsExact(s.mapped - {a}, (s.chunks - {a}).Keys, s.huge, s.leaked)
    ensures OnlyUnusedGone(T(s), TablesOf(s.chunks - {a}, s.own - {a}))
  {
    hide RegionsExact, RealSizeOk, Unused, ChunkOk, RingOk, Places, CacheUnused;
    UnmapChunk(s.mapped, s.chunks.Keys, s.huge, s.leaked, a);
    assert (s.chunks - {a}).Keys == s.chunks.Keys - {a};
    TablesWithout(s.chunks, s.own, a);
  }

  lemma RealSizes(s: State, k: nat)
    requires RealSizeOk(s.realSize, s.ring, s.cached, s.huge) && k < |s.ring|
    ensures RealSizeOk(s.realSize, Without(s.ring, k), [s.ring[k]] + s.cached, s.huge)
    ensures RealSizeOk(s.realSize - 0x20_0000, Without(s.ring, k), s.cached, s.huge)
    ensures s.cached != [] ==> RealSizeOk(s.realSize - 0x20_0000, Without(s.ring, k), [s.ring[k]] + s.cached[1..], s.huge)
  {
  }
}
