// The heap as a record, and a chunk leaving its ring: zend_mm_delete_chunk.
module HeapChunks {
  import opened Sizes
  import opened Addresses
  import opened Ring
  import opened ChunkPages
  import opened BlockSteps
  import opened GcCount
  import opened Regions
  import opened HeapInv

  /** The chunk statistics of the heap structure. */
  datatype Counters = Counters(chunks: int, peakChunks: int, cached: int, avg: real, boundary: int, deletes: int)

  /**
   * The byte counters and the limit.  lost is ghost bookkeeping: the bytes that size was charged
   * for small requests that were then aborted.
   */
  datatype Stats = Stats(size: int, peak: int, realPeak: int, limit: int, overflow: bool, lost: int)

  /** A node of the huge list: its own address, and the block it describes. */
  datatype HugeBlock = HugeBlock(node: Address, ptr: Address, size: nat)

  datatype Heap = Heap(core: State, counters: Counters, stats: Stats, hugeList: seq<HugeBlock>)

  /** Chunks, regions and their counts. */
  ghost predicate Tidy(h: Heap) {
    && LayoutOk(h.core)
    && h.counters.chunks == |h.core.ring| && h.counters.cached == |h.core.cached|
    && h.counters.chunks <= h.counters.peakChunks
    && h.core.realSize <= h.stats.realPeak
    && (!h.stats.overflow ==> h.core.realSize <= h.stats.limit + 0x20_0000)
  }

  /** Some run but the header owns a page. */
  ghost predicate HasRun(own: Owners) {
    exists i :: 0 < i < |own| && own[i] > 0
  }

  /** Every chunk of the ring has a run, but for the main chunk and, as it may be, for chunk a. */
  ghost predicate BusyBut(s: State, a: Address) {
    forall c | c in s.ring && c != s.main && c != a :: c in s.own && HasRun(s.own[c])
  }

  /** Everything but the byte counters of the blocks and the huge list; chunk a may still be without a run. */
  ghost predicate SoundBut(h: Heap, a: Address) {
    Tidy(h) && CoreOk(h.core) && BusyBut(h.core, a)
  }

  ghost predicate Sound(h: Heap) {
    SoundBut(h, h.core.main)
  }

  /** Blocks, lists and limits are untouched. */
  ghost predicate SameBlocks(h0: Heap, h: Heap) {
    && h.stats == h0.stats && h.hugeList == h0.hugeList
    && h.core.L == h0.core.L && h.core.main == h0.core.main && h.core.free == h0.core.free
    && h.core.huge == h0.core.huge && h.core.live == h0.core.live && h.core.leaked == h0.core.leaked
  }

  /** What may become of chunk k of the ring: into the cache, to the system, or into the cache in place of its first. */
  ghost predicate Fate(s: State, k: nat, s': State) {
    && k < |s.ring| && s.ring[k] in s.links.next && s.ring[k] in s.links.prev
    && (s' == Cached(s, k) || s' == Released(s, k) || (s.cached != [] && s' == Swapped(s, k)))
  }

  /** The main chunk has been deleted: it heads the cache, or is unmapped. */
  ghost predicate MainGone(s: State) {
    (s.cached != [] && s.cached[0] == s.main) || s.main !in s.chunks
  }

  /** No ring, cache and chunks fit together without the main chunk. */
  lemma MainGoneBreaks(s: State)
    requires MainGone(s)
    ensures !LayoutOk(s)
  {
    hide RegionsExact, RealSizeOk, ChunksOk, CacheUnused;
    assert s.ring != [] ==> s.ring[0] in s.ring;
  }

  /** The deleted chunk is to be kept: there are fewer than on average, or the count was left a fifth time. */
  predicate KeepsChunk(c: Counters) {
    (c.chunks - 1 + c.cached) as real < c.avg + 0.1 || (c.chunks - 1 == c.boundary && c.deletes >= 4)
  }

  /** How often in a row a chunk went back to the system at the same count, with nothing cached. */
  ghost predicate DeletesCounted(c0: Counters, kept: bool, c: Counters) {
    && c.avg == c0.avg && c.peakChunks == c0.peakChunks
    && if kept || c0.cached != 0 then c.boundary == c0.boundary && c.deletes == c0.deletes
       else c.boundary == c0.chunks - 1 && c.deletes == if c0.boundary == c0.chunks - 1 then c0.deletes + 1 else 0
  }

  /** Of the deleted chunk and the first of the cache, the one with the lower number stays. */
  ghost predicate OlderStays(s: State, k: nat, s': State)
    requires k < |s.ring| && s.cached != []
  {
    && s.ring[k] in s.chunks && s.cached[0] in s.chunks && s'.cached != [] && s'.cached[1..] == s.cached[1..]
    && s'.cached[0] == if s.chunks[s.ring[k]].num <= s.chunks[s.cached[0]].num then s.ring[k] else s.cached[0]
  }

  lemma TidyCounts(h: Heap)
    requires Tidy(h)
    ensures LayoutOk(h.core) && h.counters.chunks == |h.core.ring| && h.counters.cached == |h.core.cached|
  {
    hide LayoutOk;
  }

  lemma MainDeleted(h0: Heap, h: Heap)
    requires Tidy(h0) && Fate(h0.core, 0, h.core)
    ensures MainGone(h.core) && !Tidy(h)
  {
    hide LayoutOk, MainGone, Fate;
    FateOfMain(h0.core, h.core);
    MainGoneBreaks(h.core);
  }

  lemma FateOfMain(s: State, s': State)
    requires LayoutOk(s) && Fate(s, 0, s')
    ensures MainGone(s')
  {
    hide ChunksOk, RegionsExact, RealSizeOk, CacheUnused, Places;
  }

  lemma LinkedChunk(s: State, k: nat)
    requires LayoutOk(s) && k < |s.ring|
    ensures s.ring[k] in s.links.next && s.ring[k] in s.links.prev && s.ring[k] in s.chunks
    ensures s.cached != [] ==> s.cached[0] in s.chunks
  {
    hide ChunksOk, RegionsExact, RealSizeOk, CacheUnused;
    assert Joined(s.links, s.ring[k], Nth(s.ring, k + 1));
    if k == 0 {
      assert Joined(s.links, s.ring[|s.ring| - 1], Nth(s.ring, |s.ring|));
    } else {
      assert Joined(s.links, s.ring[k - 1], Nth(s.ring, k));
    }
    assert s.ring[k] in s.ring;
  }

  lemma DeletedTidy(h0: Heap, h: Heap, k: nat)
    requires Tidy(h0) && 0 < k < |h0.core.ring| && h0.core.ring[k] in T(h0.core) && Unused(T(h0.core)[h0.core.ring[k]])
    requires Fate(h0.core, k, h.core) && SameBlocks(h0, h)
    requires h.counters.chunks == h0.counters.chunks - 1 && h.counters.cached == |h.core.cached|
    requires h.counters.peakChunks == h0.counters.peakChunks
    ensures Tidy(h) && OnlyUnusedGone(T(h0.core), T(h.core)) && SameChunks(h0.core, h.core)
  {
    hide LayoutOk, Unused, TablesOf, OnlyUnusedGone, SameChunks;
    LayoutDelete(h0.core, k);
    NoneGone(T(h0.core));
  }

  /** The chunk has been taken out of the ring. */
  function OutOfRing(s: State, k: nat): State
    requires k < |s.ring| && s.ring[k] in s.links.next && s.ring[k] in s.links.prev
  {
    s.(links := Unlink(s.links, s.ring[k]), ring := Without(s.ring, k))
  }

  /** What all three fates have in common. */
  ghost predicate Discarded(s: State, k: nat, s': State, kept: bool) {
    && Fate(s, k, s') && s'.ring == Without(s.ring, k) && s'.main == s.main
    && s'.L == s.L && s'.free == s.free && s'.huge == s.huge && s'.live == s.live && s'.leaked == s.leaked
    && s'.realSize == s.realSize - (if kept then 0 else CHUNK)
    && (if kept then s'.cached == [s.ring[k]] + s.cached else |s'.cached| == |s.cached|)
    && (!kept && s.cached != [] ==> OlderStays(s, k, s'))
  }

  lemma CachedIs(s: State, k: nat)
    requires k < |s.ring| && s.ring[k] in s.links.next && s.ring[k] in s.links.prev
    ensures Discarded(s, k, OutOfRing(s, k).(cached := [s.ring[k]] + s.cached), true)
  {
    hide Unlink, Without, OlderStays;
  }

  lemma ReleasedIs(s: State, k: nat)
    requires k < |s.ring| && s.ring[k] in s.links.next && s.ring[k] in s.links.prev && s.ring[k] in s.chunks
    requires s.cached != [] ==> s.cached[0] in s.chunks && s.chunks[s.ring[k]].num > s.chunks[s.cached[0]].num
    ensures Discarded(s, k, Unmap(OutOfRing(s, k).(realSize := s.realSize - CHUNK), s.ring[k]), false)
  {
    hide Unlink, Without;
  }

  lemma SwappedIs(s: State, k: nat)
    requires k < |s.ring| && s.ring[k] in s.links.next && s.ring[k] in s.links.prev && s.ring[k] in s.chunks
    requires s.cached != [] && s.cached[0] in s.chunks && s.chunks[s.ring[k]].num <= s.chunks[s.cached[0]].num
    ensures var s' := OutOfRing(s, k).(realSize := s.realSize - CHUNK, cached := [s.ring[k]] + s.cached[1..]);
            Discarded(s, k, Unmap(s', s.cached[0]), false)
  {
    hide Unlink, Without;
  }

  /** The chunk leaves the ring and goes into the cache or to the system, or the first of the cache does. */
  method Discard(s0: State, k: nat, kept: bool) returns (s: State)
    requires k < |s0.ring| && s0.ring[k] in s0.links.next && s0.ring[k] in s0.links.prev && s0.ring[k] in s0.chunks
    requires s0.cached != [] ==> s0.cached[0] in s0.chunks
    ensures Discarded(s0, k, s, kept)
  {
    hide Unlink, Without, Unmap, Discarded;
    var a := s0.ring[k];
    s := s0.(links := Unlink(s0.links, a), ring := Without(s0.ring, k));
    if kept {
      CachedIs(s0, k);
      s := s.(cached := [a] + s.cached);
    } else {
      s := s.(realSize := s.realSize - CHUNK);
      if s.cached == [] || s.chunks[a].num > s.chunks[s.cached[0]].num {
        ReleasedIs(s0, k);
        s := Unmap(s, a);
      } else {
        SwappedIs(s0, k);
        var first := s.cached[0];
        s := s.(cached := [a] + s.cached[1..]);
        s := Unmap(s, first);
      }
    }
  }

  /**
   * zend_mm_delete_chunk: chunk a, which is ring[k], leaves the ring for the cache or the system.
   * The counters decide between the two, and if the cache is not empty, the chunks' numbers which of
   * two chunks stays.  There is no guard for the main chunk: the heap stays tidy if and only if it
   * is another one.
   */
  method DeleteChunk(h0: Heap, a: Address, k: nat) returns (h: Heap)
    requires Tidy(h0) && k < |h0.core.ring| && h0.core.ring[k] == a
    requires a in T(h0.core) && Unused(T(h0.core)[a])
    ensures Fate(h0.core, k, h.core) && SameBlocks(h0, h)
    ensures h.core.ring == Without(h0.core.ring, k)
    ensures h.core.realSize == h0.core.realSize - (if KeepsChunk(h0.counters) then 0 else CHUNK)
    ensures KeepsChunk(h0.counters) ==> h.core.cached == [a] + h0.core.cached
    ensures !KeepsChunk(h0.counters) ==> |h.core.cached| == |h0.core.cached|
    ensures !KeepsChunk(h0.counters) && h0.core.cached != [] ==> OlderStays(h0.core, k, h.core)
    ensures DeletesCounted(h0.counters, KeepsChunk(h0.counters), h.counters)
    ensures if k > 0 then Tidy(h) && OnlyUnusedGone(T(h0.core), T(h.core)) && SameChunks(h0.core, h.core)
            else MainGone(h.core) && !Tidy(h)
  {
    hide LayoutOk, Unused, TablesOf, OnlyUnusedGone, SameChunks, MainGone, Tidy, Unlink, Without, Fate, OlderStays;
    TidyCounts(h0);
    LinkedChunk(h0.core, k);
    var c := h0.counters.(chunks := h0.counters.chunks - 1);
    var kept := (c.chunks + c.cached) as real < c.avg + 0.1 || (c.chunks == c.boundary && c.deletes >= 4);
    if kept {
      c := c.(cached := c.cached + 1);
    } else if h0.core.cached == [] {
      if c.chunks != c.boundary {
        c := c.(boundary := c.chunks, deletes := 0);
      } else {
        c := c.(deletes := c.deletes + 1);
      }
    }
    var s := Discard(h0.core, k, kept);
    h := h0.(core := s, counters := c);
    if k > 0 {
      DeletedTidy(h0, h, k);
    } else {
      MainDeleted(h0, h);
    }
  }

  /** zend_mm_chunk_free for a whole chunk: region and header are gone. */
  function Unmap(s: State, a: Address): State {
    s.(chunks := s.chunks - {a}, own := s.own - {a}, mapped := s.mapped - {a})
  }
}
