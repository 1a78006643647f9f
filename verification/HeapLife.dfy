// The life of a heap from zend_mm_init to zend_mm_shutdown.
module HeapLife {
  import opened Sizes
  import opened PageBitset
  import opened Addresses
  import opened Ring
  import opened ChunkPages
  import opened Blocks
  import opened BlockSteps
  import opened GcCount
  import opened Regions
  import opened HeapInv
  import opened HeapChunks
  import opened GcRing
  import opened HeapPages
  import opened HeapBlocks
  import opened HeapRequests
  import Words

  // ---- the first chunk ------------------------------------------------------------------------------------

  function NoSlots(): (free: Lists)
    ensures |free| == BINS && forall b | 0 <= b < BINS :: free[b] == []
  {
    seq<seq<Address>>(BINS, _ => [])
  }

  /** A heap with one chunk, newly initialised, in the mapped memory that is left. */
  function Single(L: nat, words: nat, a: Address, mapped: Ledger, leaked: Ledger): State
    requires words > 0
  {
    State(L, map[a := InitChunk(0, NewHeader(words).freeMap, NewHeader(words).info)], map[a := NoOwners()],
          Links(map[a := a], map[a := a]), [a], a, [], NoSlots(), map[], map[], mapped, leaked, CHUNK)
  }

  /**
   * One chunk is in use, its header newly written, nothing is handed out, and all counts are those
   * of that chunk.  Which chunks stand in the cache, which regions are mapped, the average, the
   * limit and the overflow flag are left open.
   */
  ghost predicate AsNewIn(h: Heap, words: nat) {
    && words > 0 && words * h.core.L == PAGES && h.hugeList == [] && h.core.main in h.core.chunks
    && h.stats == Stats(0, 0, CHUNK, h.stats.limit, h.stats.overflow, 0)
    && h.counters == Counters(1, 1, |h.core.cached|, h.counters.avg, 0, 0)
    && var one := Single(h.core.L, words, h.core.main, h.core.mapped, h.core.leaked);
       && h.core == one.(chunks := h.core.chunks, cached := h.core.cached)
       && h.core.chunks[h.core.main] == one.chunks[h.core.main]
  }

  /** The heap is in the state in which a program first finds it. */
  ghost predicate AsNew(h: Heap) {
    exists words: nat :: AsNewIn(h, words)
  }

  lemma HeaderZeroed(words: nat, L: nat)
    requires Words.WordLength(L) && words * L == PAGES
    ensures L > 0 && words > 0 && Zeroed(NewHeader(words), L)
  {
    hide Words.Bit, Words.Fits;
    Positive(L);
    var c := NewHeader(words);
    Words.FitsZero(L);
    forall i | 0 < i < PAGES ensures !Used(c.freeMap, L, i) {
      Words.FitsBit(0, 0, BitOf(i, L));
    }
  }

  lemma SingleChunk(L: nat, words: nat, a: Address)
    requires Words.WordLength(L) && words * L == PAGES && a > 0 && Offset(a) == 0
    ensures words > 0 && L > 0
    ensures var c := InitChunk(0, NewHeader(words).freeMap, NewHeader(words).info);
            && ChunkOk(c, NoOwners(), L) && |c.info| == PAGES && NoCounters(NoOwners(), c.info)
            && ChunksOk(map[a := c], map[a := NoOwners()], L)
            && TablesOf(map[a := c], map[a := NoOwners()]) == map[a := Table(NoOwners(), c.info)]
  {
    hide ChunkOk, NoCounters;
    HeaderZeroed(words, L);
    InitOk(0, NewHeader(words).freeMap, NewHeader(words).info, L);
    var c := InitChunk(0, NewHeader(words).freeMap, NewHeader(words).info);
    PutChunk(L, map[], map[], a, c, NoOwners());
    OwnersLength(c, NoOwners(), L);
    assert map[][a := c] == map[a := c];
  }

  lemma SingleBlocks(L: nat, words: nat, a: Address)
    requires Words.WordLength(L) && words * L == PAGES && a > 0 && Offset(a) == 0
    ensures words > 0
    ensures var c := InitChunk(0, NewHeader(words).freeMap, NewHeader(words).info);
            && CountersZero(TablesOf(map[a := c], map[a := NoOwners()]))
            && BlocksOk(TablesOf(map[a := c], map[a := NoOwners()]), NoSlots(), map[], map[])
  {
    hide ChunkOk, NoCounters, InitChunk, NewHeader;
    SingleChunk(L, words, a);
    var c := InitChunk(0, NewHeader(words).freeMap, NewHeader(words).info);
    NoBlocks();
    InitBlocks(L, map[], map[], a, c, NoSlots(), map[], map[]);
    PutCounters(map[], a, Table(NoOwners(), c.info));
    assert map[][a := c] == map[a := c];
  }

  lemma NoBlocks()
    ensures BlocksOk(TablesOf(map[], map[]), NoSlots(), map[], map[])
  {
    forall p, b: nat ensures !SlotOf(map[], p, b) {
    }
    forall p, n: nat ensures !LargeOf(map[], p, n) {
    }
  }

  lemma SingleSpace(L: nat, words: nat, a: Address)
    requires Words.WordLength(L) && words * L == PAGES && a > 0 && Offset(a) == 0
    ensures words > 0
    ensures var c := InitChunk(0, NewHeader(words).freeMap, NewHeader(words).info);
            SpaceOk(L, map[a := c], map[a := NoOwners()], Links(map[a := a], map[a := a]), [a], a, [])
  {
    hide ChunksOk, InitChunk, NewHeader;
    SingleChunk(L, words, a);
  }

  /** The single chunk makes a sound heap if nothing else is mapped but what was leaked. */
  lemma SingleOk(L: nat, words: nat, a: Address, mapped: Ledger, leaked: Ledger)
    requires Words.WordLength(L) && words * L == PAGES && a > 0 && Offset(a) == 0
    requires RegionsExact(mapped, {a}, map[], leaked)
    ensures words > 0 && CoreOk(Single(L, words, a, mapped, leaked))
    ensures !Anchored(Single(L, words, a, mapped, leaked))
  {
    hide SpaceOk, RegionsExact, BlocksOk, CountersZero;
    SingleSpace(L, words, a);
    SingleBlocks(L, words, a);
    var s := Single(L, words, a, mapped, leaked);
    assert s.chunks.Keys == {a};
  }

  /**
   * zend_mm_init, for a heap whose limit is then set and stays.  A collection at this point would
   * delete the main chunk: nothing is in it yet.
   */
  method Init(L: nat, words: nat, limit: int) returns (ok: bool, h: Heap)
    requires Words.WordLength(L) && words * L == PAGES
    ensures ok ==> Valid(h) && Users(h) == map[] && !Anchored(h.core)
    ensures ok ==> AsNew(h) && h.core.cached == [] && h.counters.avg == 1.0
    ensures ok ==> h.stats.limit == Max(limit, CHUNK) && !h.stats.overflow && h.core.L == L
    ensures ok ==> h.core.mapped == map[h.core.main := CHUNK] && h.core.leaked == map[]
  {
    hide CoreOk, LayoutOk, Anchored;
    HeaderZeroed(words, L);
    var nothing := State(L, map[], map[], Links(map[], map[]), [], 0, [], NoSlots(), map[], map[], map[], map[], 0);
    var s, a := ChunkAlloc(nothing, CHUNK);
    h := Heap(Single(L, words, a, s.mapped, map[]), Counters(1, 1, 0, 1.0, 0, 0),
              Stats(0, 0, CHUNK, Max(limit, CHUNK), false, 0), []);
    ok := a != 0;
    if ok {
      FirstRegion(a);
      SingleOk(L, words, a, s.mapped, map[]);
      CoreIsTidy(h.core);
      assert AsNewIn(h, words);
    }
  }

  lemma FirstRegion(a: Address)
    requires Fresh(map[], a, CHUNK)
    ensures RegionsExact(map[a := CHUNK], {a}, map[], map[])
  {
  }

  // ---- zend_mm_shutdown -----------------------------------------------------------------------------------

  /** munmap of one whole region: it must be mapped, with exactly this size. */
  function UnmapRegion(mapped: Ledger, p: Address, n: nat): Ledger
    requires p in mapped && mapped[p] == n
  {
    mapped - {p}
  }

  /** The regions that the list describes up to place i are gone. */
  ghost predicate UnmappedHuge(h: Heap, mapped: Ledger, i: nat)
    requires i <= |h.hugeList|
  {
    && (forall q | q in mapped :: q in h.core.mapped && mapped[q] == h.core.mapped[q] && !Listed(h.hugeList[..i], q))
    && (forall q | q in h.core.mapped && q !in mapped :: Listed(h.hugeList[..i], q))
  }

  lemma ListedNext(list: seq<HugeBlock>, i: nat, q: Address)
    requires i < |list|
    ensures Listed(list[..i + 1], q) <==> Listed(list[..i], q) || q == list[i].ptr
  {
    assert list[..i + 1] == list[..i] + [list[i]];
    if Listed(list[..i], q) {
      var j :| 0 <= j < i && list[..i][j].ptr == q;
      assert list[..i + 1][j].ptr == q;
    }
    assert list[..i + 1][i].ptr == list[i].ptr;
    if Listed(list[..i + 1], q) && q != list[i].ptr {
      var j :| 0 <= j < i + 1 && list[..i + 1][j].ptr == q;
      assert list[..i][j].ptr == q;
    }
  }

  lemma NotListedYet(list: seq<HugeBlock>, i: nat)
    requires EntriesDiffer(list) && i < |list|
    ensures !Listed(list[..i], list[i].ptr)
  {
  }

  lemma EntryMapped(h: Heap, mapped: Ledger, i: nat)
    requires HugeOk(h.hugeList, h.core.huge, h.core.live) && i < |h.hugeList|
    requires RegionsExact(h.core.mapped, h.core.chunks.Keys, h.core.huge, h.core.leaked) && UnmappedHuge(h, mapped, i)
    ensures h.hugeList[i].ptr in mapped && mapped[h.hugeList[i].ptr] == h.hugeList[i].size
  {
    hide RegionsApart, Listed;
    NotListedYet(h.hugeList, i);
  }

  /** The first loop of zend_mm_shutdown: each huge block is unmapped, once. */
  method UnmapHugeBlocks(h: Heap) returns (mapped: Ledger)
    requires HugeOk(h.hugeList, h.core.huge, h.core.live)
    requires RegionsExact(h.core.mapped, h.core.chunks.Keys, h.core.huge, h.core.leaked)
    ensures mapped == h.core.mapped - h.core.huge.Keys
  {
    hide Listed, RegionsExact, HugeOk;
    mapped := h.core.mapped;
    var i := 0;
    NoneListed(h);
    while i < |h.hugeList|
      invariant i <= |h.hugeList| && UnmappedHuge(h, mapped, i)
    {
      EntryMapped(h, mapped, i);
      forall q ensures Listed(h.hugeList[..i + 1], q) <==> Listed(h.hugeList[..i], q) || q == h.hugeList[i].ptr {
        ListedNext(h.hugeList, i, q);
      }
      mapped := UnmapRegion(mapped, h.hugeList[i].ptr, h.hugeList[i].size);
      i := i + 1;
    }
    AllListed(h, mapped);
  }

  lemma NoneListed(h: Heap)
    ensures UnmappedHuge(h, h.core.mapped, 0)
  {
  }

  lemma AllListed(h: Heap, mapped: Ledger)
    requires HugeOk(h.hugeList, h.core.huge, h.core.live) && UnmappedHuge(h, mapped, |h.hugeList|)
    ensures mapped == h.core.mapped - h.core.huge.Keys
  {
    assert h.hugeList[..|h.hugeList|] == h.hugeList;
    hide EntriesDiffer, NodesLive;
  }

  lemma RingStep(s: State, rest: seq<Address>, k: nat)
    requires LayoutOk(s) && 1 <= k <= |s.ring| && rest == [s.ring[0]] + s.ring[k..]
    ensures s.ring[0] == s.main
    ensures Nth(s.ring, k) != s.main ==>
              && k < |s.ring| && |rest| > 1 && rest[1] == s.ring[k] && s.ring[k] in s.links.next
              && s.links.next[s.ring[k]] == Nth(s.ring, k + 1)
              && Without(rest, 1) == [s.ring[0]] + s.ring[k + 1..]
    ensures Nth(s.ring, k) == s.main ==> k == |s.ring| && rest == [s.main]
  {
    hide ChunksOk, RegionsExact, RealSizeOk, CacheUnused;
    if k < |s.ring| {
      assert Joined(s.links, s.ring[k], Nth(s.ring, k + 1));
    }
  }

  lemma RingStarts(s: State)
    requires LayoutOk(s)
    ensures |s.ring| > 0 && s.ring[0] == s.main && s.main in s.links.next && s.links.next[s.main] == Nth(s.ring, 1)
    ensures s.ring == [s.ring[0]] + s.ring[1..] && Places(s.ring, s.cached, s.chunks.Keys)
  {
    hide ChunksOk, RegionsExact, RealSizeOk, CacheUnused;
    assert Joined(s.links, s.ring[0], Nth(s.ring, 1));
  }

  /** All chunks but the main one move from the ring to the front of the cache. */
  method EmptyRing(s: State) returns (cached: seq<Address>, n: nat)
    requires LayoutOk(s)
    ensures Places([s.main], cached, s.chunks.Keys) && n == |s.ring| - 1 && |cached| == |s.cached| + n
  {
    hide LayoutOk, Places, Without;
    RingStarts(s);
    cached, n := s.cached, 0;
    var p := s.links.next[s.main];
    ghost var rest, k := s.ring, 1;
    while p != s.main
      invariant 1 <= k <= |s.ring| && p == Nth(s.ring, k) && rest == [s.ring[0]] + s.ring[k..]
      invariant Places(rest, cached, s.chunks.Keys) && n == k - 1 && |cached| == |s.cached| + n
      decreases |s.ring| - k
    {
      RingStep(s, rest, k);
      PlaceToCache(rest, cached, s.chunks.Keys, 1);
      var q := s.links.next[p];
      cached := [p] + cached;
      p := q;
      n := n + 1;
      rest := Without(rest, 1);
      k := k + 1;
    }
    RingStep(s, rest, k);
  }

  /** The chunks of the cache are mapped, each with a chunk's size. */
  ghost predicate CacheMapped(mapped: Ledger, cached: seq<Address>) {
    Distinct(cached) && forall a | a in cached :: a in mapped && mapped[a] == CHUNK
  }

  lemma CacheNext(mapped: Ledger, cached: seq<Address>)
    requires CacheMapped(mapped, cached) && cached != []
    ensures cached[0] in mapped && mapped[cached[0]] == CHUNK
    ensures CacheMapped(mapped - {cached[0]}, cached[1..])
  {
    RestMembers(cached);
  }

  function Members(q: seq<Address>): set<Address> {
    set a | a in q
  }

  lemma MembersRest(q: seq<Address>)
    requires q != []
    ensures Members(q) == Members(q[1..]) + {q[0]}
  {
    assert q == [q[0]] + q[1..];
  }

  /** The cached chunks go back one by one while there are more than the average asks for. */
  method TrimCache(mapped0: Ledger, cached0: seq<Address>, count0: int, avg: real, all: bool)
      returns (mapped: Ledger, cached: seq<Address>)
    requires CacheMapped(mapped0, cached0) && count0 == |cached0|
    ensures CacheMapped(mapped, cached) && |cached| <= |cached0| && cached == cached0[|cached0| - |cached|..]
    ensures mapped == mapped0 - (Members(cached0) - Members(cached))
    ensures all ==> cached == []
    ensures !all ==> cached == [] || |cached| as real + 0.9 <= avg
    ensures !all && cached != cached0 ==> |cached| as real + 1.9 > avg
  {
    hide CacheMapped, Members;
    mapped, cached := mapped0, cached0;
    var count := count0;
    CacheSplit(mapped0, cached0, cached0);
    while cached != [] && (all || count as real + 0.9 > avg)
      invariant CacheMapped(mapped, cached) && |cached| <= |cached0| && cached == cached0[|cached0| - |cached|..]
      invariant mapped == mapped0 - (Members(cached0) - Members(cached)) && count == |cached|
      invariant !all && cached != cached0 ==> |cached| as real + 1.9 > avg
      decreases |cached|
    {
      CacheNext(mapped, cached);
      CacheSplit(mapped0, cached0, cached);
      var p := cached[0];
      assert cached[1..] == cached0[|cached0| - |cached| + 1..];
      cached := cached[1..];
      mapped := UnmapRegion(mapped, p, CHUNK);
      count := count - 1;
    }
  }

  lemma CacheSplit(mapped0: Ledger, cached0: seq<Address>, cached: seq<Address>)
    requires CacheMapped(mapped0, cached0) && |cached| <= |cached0| && cached == cached0[|cached0| - |cached|..]
    ensures mapped0 == mapped0 - (Members(cached0) - Members(cached0))
    ensures cached != [] ==>
              mapped0 - (Members(cached0) - Members(cached)) - {cached[0]} == mapped0 - (Members(cached0) - Members(cached[1..]))
  {
    if cached != [] {
      MembersRest(cached);
      RestDistinct(cached0, cached);
    }
  }

  lemma RestDistinct(cached0: seq<Address>, cached: seq<Address>)
    requires Distinct(cached0) && |cached| <= |cached0| && cached == cached0[|cached0| - |cached|..] && cached != []
    ensures cached[0] !in Members(cached[1..]) && cached[0] in Members(cached0)
  {
    assert cached[0] == cached0[|cached0| - |cached|];
  }

  lemma CacheIsMapped(h: Heap, mapped: Ledger, cached: seq<Address>)
    requires Valid(h) && mapped == h.core.mapped - h.core.huge.Keys && Places([h.core.main], cached, h.core.chunks.Keys)
    ensures CacheMapped(mapped, cached) && h.core.main in mapped && mapped[h.core.main] == CHUNK
    ensures h.core.main !in cached && forall a :: a in h.core.chunks <==> a == h.core.main || a in cached
  {
    hide SpaceOk, RealSizeOk, BlocksOk, CountersZero, Accounts, HugeOk, RegionsApart;
    assert h.core.main in [h.core.main];
  }

  lemma OnlyLeaked(h: Heap, mapped: Ledger, cached: seq<Address>)
    requires Valid(h) && forall a :: a in h.core.chunks <==> a == h.core.main || a in cached
    requires mapped == h.core.mapped - h.core.huge.Keys - Members(cached)
    ensures h.core.main in mapped ==> mapped - {h.core.main} == h.core.leaked
  {
    hide SpaceOk, RealSizeOk, BlocksOk, CountersZero, Accounts, HugeOk, RegionsApart;
  }

  /**
   * A full zend_mm_shutdown gives every region back exactly once: each munmap finds its region
   * mapped with the size it is given, and nothing is left but what aborted requests had leaked.
   */
  method Shutdown(h: Heap) returns (mapped: Ledger)
    requires Valid(h)
    ensures mapped == h.core.leaked
  {
    hide LayoutOk, CoreOk, Accounts, HugeOk, CacheMapped, Members, Places;
    ShutdownReady(h);
    mapped := UnmapHugeBlocks(h);
    var cached, n := EmptyRing(h.core);
    CacheIsMapped(h, mapped, cached);
    ghost var without := mapped;
    var rest;
    mapped, rest := TrimCache(mapped, cached, |cached|, 0.0, true);
    EmptyMembers();
    MainStays(without, cached, h.core.main);
    OnlyLeaked(h, mapped, cached);
    mapped := UnmapRegion(mapped, h.core.main, CHUNK);
  }

  lemma EmptyMembers()
    ensures Members([]) == {}
  {
  }

  lemma MainStays(mapped: Ledger, cached: seq<Address>, main: Address)
    requires main !in cached && main in mapped
    ensures main in mapped - Members(cached) && mapped - (Members(cached) - {}) == mapped - Members(cached)
  {
  }

  lemma ShutdownReady(h: Heap)
    requires Valid(h)
    ensures LayoutOk(h.core) && HugeOk(h.hugeList, h.core.huge, h.core.live)
    ensures RegionsExact(h.core.mapped, h.core.chunks.Keys, h.core.huge, h.core.leaked)
  {
    hide SpaceOk, RegionsExact, RealSizeOk, BlocksOk, CountersZero, Accounts, HugeOk;
  }

  // ---- between requests: the shutdown that keeps the heap -------------------------------------------------

  /** The mapped regions are the main chunk, the chunks kept in the cache, and what had been leaked. */
  lemma KeptRegions(h: Heap, mapped1: Ledger, cached1: seq<Address>, mapped: Ledger, cached: seq<Address>)
    requires Valid(h) && mapped1 == h.core.mapped - h.core.huge.Keys
    requires h.core.main !in cached1 && forall a :: a in h.core.chunks <==> a == h.core.main || a in cached1
    requires Members(cached) <= Members(cached1)
    requires mapped == mapped1 - (Members(cached1) - Members(cached))
    ensures RegionsExact(mapped, Members(cached) + {h.core.main}, map[], h.core.leaked)
  {
    hide SpaceOk, RealSizeOk, BlocksOk, CountersZero, Accounts, HugeOk, RegionsApart;
    FewerApart(h.core.mapped, mapped);
    forall p ensures p in cached ==> p in Members(cached) {
    }
  }

  lemma FewerApart(m: Ledger, m': Ledger)
    requires RegionsApart(m) && forall p | p in m' :: p in m && m'[p] == m[p]
    ensures RegionsApart(m')
  {
  }

  lemma TailMembers(q: seq<Address>, n: nat)
    requires n <= |q|
    ensures Members(q[n..]) <= Members(q)
  {
  }

  lemma LimitPositive(h: Heap)
    requires Valid(h)
    ensures h.stats.overflow || h.stats.limit >= 0
    ensures h.core.main in h.core.chunks && h.core.main in h.core.own && h.core.main > 0 && Offset(h.core.main) == 0
    ensures ChunkOk(h.core.chunks[h.core.main], h.core.own[h.core.main], h.core.L) && h.core.L > 0
  {
    hide SpaceOk, RegionsExact, BlocksOk, CountersZero, Accounts, HugeOk, ChunkOk;
    LastInRing(h.core);
    LayoutFacts(h.core);
  }

  lemma SameWords(c: Chunk, own: Owners, L: nat)
    requires ChunkOk(c, own, L)
    ensures Words.WordLength(L) && |c.freeMap| * L == PAGES
  {
    hide Partition, HeadsBefore, FreeCount, Wellformed, Used;
  }

  /** memset over the headers of the chunks that stay cached. */
  method ClearHeaders(cached: seq<Address>, words: nat) returns (chunks: Chunks)
    ensures chunks.Keys == Members(cached) && forall a | a in cached :: a in chunks && chunks[a] == NewHeader(words)
  {
    chunks := map[];
    var i := 0;
    while i < |cached|
      invariant i <= |cached| && chunks.Keys == Members(cached[..i])
      invariant forall a | a in cached[..i] :: a in chunks && chunks[a] == NewHeader(words)
    {
      assert cached[..i + 1] == cached[..i] + [cached[i]];
      chunks := chunks[cached[i] := NewHeader(words)];
      i := i + 1;
    }
    assert cached[..|cached|] == cached;
  }

  /**
   * The heap after a shutdown that is not full: as new, with the same limit; mapped are its chunk,
   * the cached ones, whose headers are zeroed, and what had been leaked.  The average has moved
   * half the way to the peak, and no more chunks were given back than it asks for.
   */
  ghost predicate Restarted(h0: Heap, h: Heap) {
    && AsNew(h) && h.core.main == h0.core.main && h.core.L == h0.core.L > 0 && h.core.leaked == h0.core.leaked
    && h.stats.limit == h0.stats.limit && h.stats.overflow == h0.stats.overflow
    && RegionsExact(h.core.mapped, h.core.chunks.Keys, map[], h.core.leaked)
    && h.core.chunks.Keys == Members(h.core.cached) + {h.core.main}
    && (forall a | a in h.core.cached :: Zeroed(h.core.chunks[a], h.core.L))
    && h.counters.avg == (h0.counters.avg + h0.counters.peakChunks as real) / 2.0
    && (h.core.cached == [] || |h.core.cached| as real + 0.9 <= h.counters.avg)
    && (|h.core.cached| == |h0.core.ring| + |h0.core.cached| - 1 || |h.core.cached| as real + 1.9 > h.counters.avg)
  }

  /** No chunk will stay cached: there is only the main one, or the new average allows for no other. */
  ghost predicate NoneStays(h: Heap) {
    || |h.core.ring| + |h.core.cached| == 1
    || (h.counters.avg + h.counters.peakChunks as real) / 2.0 < 1.9
  }

  /**
   * A zend_mm_shutdown that is not full.  The main chunk is as new and nothing is live; real_size
   * is one chunk, so it agrees with what is mapped if and only if no chunk stays in the cache.
   * Then, and only then, the heap is as good as one that has just been made.
   */
  method Restart(h0: Heap) returns (h: Heap)
    requires Valid(h0)
    ensures Restarted(h0, h)
    ensures RealSizeOk(h.core.realSize, h.core.ring, h.core.cached, h.core.huge) <==> NoneStays(h0)
    ensures Valid(h) <==> NoneStays(h0)
    ensures h.core.cached == [] <==> NoneStays(h0)
    ensures Users(h) == map[]
  {
    hide LayoutOk, CoreOk, Accounts, HugeOk, CacheMapped, Members, Places;
    hide RegionsExact, ChunkOk, Anchored, Zeroed, Restarted;
    hide NewHeader, InitChunk, Valid;
    ShutdownReady(h0);
    LimitPositive(h0);
    var s := h0.core;
    SameWords(s.chunks[s.main], s.own[s.main], s.L);
    var words := |s.chunks[s.main].freeMap|;
    HeaderZeroed(words, s.L);
    var mapped := UnmapHugeBlocks(h0);
    var cached, n := EmptyRing(s);
    CacheIsMapped(h0, mapped, cached);
    var avg := (h0.counters.avg + h0.counters.peakChunks as real) / 2.0;
    ghost var mapped1, cached1 := mapped, cached;
    mapped, cached := TrimCache(mapped, cached, |cached|, avg, false);
    TailMembers(cached1, |cached1| - |cached|);
    KeptRegions(h0, mapped1, cached1, mapped, cached);
    var headers := ClearHeaders(cached, words);
    var own: OwnerMap := map[s.main := NoOwners()];
    var chunks := headers[s.main := InitChunk(0, NewHeader(words).freeMap, NewHeader(words).info)];
    s := State(s.L, chunks, own, Links(map[s.main := s.main], map[s.main := s.main]), [s.main], s.main, cached,
               NoSlots(), map[], map[], mapped, s.leaked, CHUNK);
    h := Heap(s, Counters(1, 1, |cached|, avg, 0, 0),
              Stats(0, 0, CHUNK, h0.stats.limit, h0.stats.overflow, 0), []);
    RestartedHolds(h0, h, headers, words, cached1);
    RestartedCount(h);
    if cached == [] {
      EmptyMembers();
      assert RegionsExact(h.core.mapped, {h0.core.main}, map[], h.core.leaked) by { assert {} + {s.main} == {s.main}; }
      assert chunks == map[s.main := chunks[s.main]];
      NothingCached(h0, h, words);
    }
  }

  lemma RestartedHolds(h0: Heap, h: Heap, headers: Chunks, words: nat, cached1: seq<Address>)
    requires AsNewIn(h, words) && h.core.leaked == h0.core.leaked && h.stats.overflow == h0.stats.overflow
    requires h.counters.avg == (h0.counters.avg + h0.counters.peakChunks as real) / 2.0
    requires h.core.cached == [] || |h.core.cached| as real + 0.9 <= h.counters.avg
    requires |h.core.cached| == |h0.core.ring| + |h0.core.cached| - 1 || |h.core.cached| as real + 1.9 > h.counters.avg
    requires headers.Keys == Members(h.core.cached) && h.core.L == h0.core.L > 0 && h.core.main == h0.core.main
    requires forall a | a in h.core.cached :: a in headers && headers[a] == NewHeader(words)
    requires Zeroed(NewHeader(words), h.core.L)
    requires h.core.chunks == headers[h.core.main := h.core.chunks[h.core.main]]
    requires h.core.main !in cached1 && Members(h.core.cached) <= Members(cached1)
    requires RegionsExact(h.core.mapped, Members(h.core.cached) + {h.core.main}, map[], h0.core.leaked)
    requires h.stats.limit == h0.stats.limit
    ensures Restarted(h0, h)
  {
    hide RegionsExact, Zeroed, NewHeader, Single, InitChunk;
    assert h.core.chunks.Keys == Members(h.core.cached) + {h.core.main};
    forall a | a in h.core.cached ensures Zeroed(h.core.chunks[a], h.core.L) {
      assert a in Members(h.core.cached);
    }
  }

  lemma RestartedCount(h: Heap)
    requires h.core.realSize == CHUNK && |h.core.ring| == 1 && h.core.huge == map[]
    ensures RealSizeOk(h.core.realSize, h.core.ring, h.core.cached, h.core.huge) <==> h.core.cached == []
    ensures h.core.cached != [] ==> !Valid(h)
  {
    hide SpaceOk, RegionsExact, BlocksOk, CountersZero, Accounts, HugeOk;
  }

  lemma NothingCached(h0: Heap, h: Heap, words: nat)
    requires Words.WordLength(h0.core.L) && words * h0.core.L == PAGES && words > 0
    requires h.core == Single(h0.core.L, words, h0.core.main, h.core.mapped, h.core.leaked)
    requires h0.core.main > 0 && Offset(h0.core.main) == 0
    requires RegionsExact(h.core.mapped, {h0.core.main}, map[], h.core.leaked)
    requires h.counters.chunks == h.counters.peakChunks == 1 && h.counters.cached == 0 && h.hugeList == []
    requires h.stats == Stats(0, 0, CHUNK, h.stats.limit, h.stats.overflow, 0) && (h.stats.overflow || h.stats.limit >= 0)
    ensures Valid(h)
  {
    hide LayoutOk, BlocksOk, CountersZero, RegionsExact, Anchored;
    SingleOk(h0.core.L, words, h0.core.main, h.core.mapped, h.core.leaked);
    CoreIsTidy(h.core);
  }
}
