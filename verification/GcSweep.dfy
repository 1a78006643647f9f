// The last loop of zend_mm_gc inside one chunk: it walks the page map run by run, gives back the
// runs whose counter is full and resets the other counters.
module GcSweep {
  import opened Sizes
  import opened PageInfo
  import opened PageBitset
  import opened Addresses
  import opened ChunkPages
  import opened Blocks
  import opened BlockSteps
  import opened GcSpec
  import opened GcCount

  /** A walk that stands at page i is not inside a run. */
  ghost predicate Boundary(own: Owners, i: nat) {
    |own| == PAGES && i <= PAGES && (i < PAGES ==> own[i] < 0 || own[i] == i)
  }

  /** Stepping over a free page or a whole run leads to the next boundary. */
  lemma NextBoundary(own: Owners, info: seq<nat>, i: nat)
    requires Partition(own, info) && Boundary(own, i) && i < PAGES
    ensures own[i] < 0 ==> Boundary(own, i + 1)
    ensures own[i] >= 0 ==> 0 < RunLen(info[i]) && Boundary(own, i + RunLen(info[i]))
  {
    hide RunLen, RunInfo;
    if own[i] == i {
      assert RunAt(own, info, i);
    }
    var j := if own[i] < 0 then i + 1 else i + RunLen(info[i]);
    if j < PAGES && own[j] >= 0 && own[j] != j {
      OwnedBetween(own, info, j, j - 1);
    }
  }

  /** Pages below i are swept, the others as they were. */
  ghost predicate SweptTo(t0: Tables, free: Lists, a: Address, c0: Chunk, c: Chunk, own: Owners, i: nat)
    requires a in t0
  {
    var own0 := t0[a].own;
    && |own0| == |own| == |c0.info| == |c.info| == |t0[a].info| == PAGES
    && (forall j | 0 <= j < PAGES ::
          own[j] == if j < i && own0[j] > 0 && Dead(t0, free, a, own0[j]) then -1 else own0[j])
    && (forall s | 0 <= s < PAGES && own[s] == s ::
          c.info[s] == if s < i then t0[a].info[s] else c0.info[s])
  }

  /** The entries that the counting loops leave in the chunk. */
  ghost predicate EntriesCounted(t0: Tables, free: Lists, a: Address, c: Chunk)
    requires a in t0 && |free| == BINS
  {
    && |c.info| == |t0[a].info| == |t0[a].own| == PAGES
    && forall i | 0 <= i < PAGES :: c.info[i] == Expected(t0, free, BINS, 0, a, i)
  }

  /** What the sweep reads at the head of a run. */
  lemma HeadEntry(t0: Tables, free: Lists, live: Ledger, a: Address, c0: Chunk, i: nat)
    requires TablesOk(t0) && ListsOk(t0, free, live) && CountersZero(t0) && a in t0
    requires EntriesCounted(t0, free, a, c0) && 0 < i < PAGES && t0[a].own[i] == i
    ensures IsSrun(c0.info[i]) <==> IsSrun(t0[a].info[i])
    ensures RunLen(c0.info[i]) == RunLen(t0[a].info[i])
    ensures !IsSrun(c0.info[i]) ==> c0.info[i] == t0[a].info[i] && !Dead(t0, free, a, i)
    ensures IsSrun(c0.info[i]) ==>
              && SrunBin(c0.info[i]) == SrunBin(t0[a].info[i]) < BINS
              && t0[a].info[i] == Srun(SrunBin(c0.info[i]))
              && RunLen(c0.info[i]) == BinPages(SrunBin(c0.info[i]))
              && (Counter(c0.info[i]) == BinElements(SrunBin(c0.info[i])) <==> Dead(t0, free, a, i))
  {
    hide SlotOf, TableOk, SrunEx, Counter, Hits, TablesOk, ListsOk, SrunBin, BinElements, BinPages;
    if IsSrun(t0[a].info[i]) {
      ExpectedFields(t0, free, live, BINS, 0, a, i);
      FullCounter(t0, free, live, a, i, SrunBin(t0[a].info[i]));
    }
  }

  lemma SweepFree(t0: Tables, free: Lists, a: Address, c0: Chunk, c: Chunk, own: Owners, i: nat)
    requires a in t0 && SweptTo(t0, free, a, c0, c, own, i) && i < PAGES && own[i] < 0 && t0[a].own[i] < 0
    ensures SweptTo(t0, free, a, c0, c, own, i + 1)
  {
    hide Dead;
  }

  lemma SweepDead(t0: Tables, free: Lists, a: Address, c0: Chunk, c: Chunk, own: Owners, i: nat, n: nat, L: nat)
    requires a in t0 && SweptTo(t0, free, a, c0, c, own, i) && 0 < i < i + n <= PAGES && L > 0
    requires (forall j | i <= j < i + n :: t0[a].own[j] == i) && Dead(t0, free, a, i)
    requires forall j | 0 <= j < PAGES && t0[a].own[j] == i :: i <= j < i + n
    ensures SweptTo(t0, free, a, c0, FreeRun(c, i, n, L), Fill(own, i, n, -1), i + n)
  {
    hide Dead;
  }

  lemma SweepAlive(t0: Tables, free: Lists, a: Address, c0: Chunk, c: Chunk, own: Owners, i: nat, n: nat)
    requires a in t0 && SweptTo(t0, free, a, c0, c, own, i) && 0 < i < i + n <= PAGES
    requires (forall j | i <= j < i + n :: t0[a].own[j] == i) && !Dead(t0, free, a, i)
    ensures SweptTo(t0, free, a, c0, c.(info := c.info[i := t0[a].info[i]]), own, i + n)
  {
    hide Dead;
  }

  lemma RunExtent(own: Owners, info: seq<nat>, i: nat)
    requires Partition(own, info) && i < PAGES && own[i] == i
    ensures 0 < RunLen(info[i]) && i + RunLen(info[i]) <= PAGES
    ensures forall j | i <= j < i + RunLen(info[i]) :: own[j] == i
    ensures forall j | 0 <= j < PAGES && own[j] == i :: i <= j < i + RunLen(info[i])
  {
    hide RunLen, RunInfo;
    assert RunAt(own, info, i);
  }

  /** One step of the sweep, at a page in use. */
  method SweepRun(c0: Chunk, own0: Owners, i0: nat, L: nat, ghost chunk0: Chunk, ghost t0: Tables,
                  ghost free: Lists, ghost live: Ledger, ghost a: Address)
    returns (c: Chunk, own: Owners, i: nat, collected: nat)
    requires L > 0 && TablesOk(t0) && ListsOk(t0, free, live) && CountersZero(t0) && a in t0
    requires EntriesCounted(t0, free, a, chunk0) && SweptTo(t0, free, a, chunk0, c0, own0, i0)
    requires ChunkOk(c0, own0, L) && 0 < i0 < PAGES && Boundary(t0[a].own, i0) && own0[i0] >= 0
    ensures ChunkOk(c, own, L) && SweptTo(t0, free, a, chunk0, c, own, i)
    ensures i0 < i <= PAGES && Boundary(t0[a].own, i) && c.num == c0.num
    ensures c.freePages == c0.freePages + collected
  {
    hide ListsOk, TablesOk, Dead, Boundary, SrunBin, BinPages, BinElements, Counter, IsSrun, LrunPages, FreeRun;
    hide EntriesCounted, CountersZero, ChunkOk, SweptTo, Swept, Fill, Srun;
    RunLength(c0, own0, L);
    HeadHere(t0, free, a, chunk0, c0, own0, i0);
    HeadEntry(t0, free, live, a, chunk0, i0);
    TableHere(t0, a);
    RunExtent(t0[a].own, t0[a].info, i0);
    NextBoundary(t0[a].own, t0[a].info, i0);
    c, own, i, collected := c0, own0, i0, 0;
    var info := c.info[i];
    if IsSrun(info) {
      var binNum := SrunBin(info);
      var pagesCount := BinPages(binNum);
      if Counter(info) == BinElements(binNum) {
        FreeRunOk(c, own, L, i);
        SweepDead(t0, free, a, chunk0, c, own, i, pagesCount, L);
        FreedCounts(c, i, pagesCount, L);
        c, own := FreeRun(c, i, pagesCount, L), Fill(own, i, pagesCount, -1);
        collected := collected + pagesCount;
      } else {
        ResetCounter(c, own, L, i);
        SweepAlive(t0, free, a, chunk0, c, own, i, pagesCount);
        c := c.(info := c.info[i := Srun(binNum)]);
      }
      i := i + BinPages(binNum);
    } else {
      SweepAlive(t0, free, a, chunk0, c, own, i, RunLen(info));
      assert c.info[i := t0[a].info[i]] == c.info;
      i := i + LrunPages(info);
    }
  }

  lemma RunLength(c: Chunk, own: Owners, L: nat)
    requires ChunkOk(c, own, L)
    ensures |own| == |c.info| == PAGES
  {
  }

  lemma HeadHere(t0: Tables, free: Lists, a: Address, c0: Chunk, c: Chunk, own: Owners, i: nat)
    requires a in t0 && SweptTo(t0, free, a, c0, c, own, i) && i < PAGES && own[i] >= 0
    requires Boundary(t0[a].own, i)
    ensures own[i] == i && t0[a].own[i] == i && c.info[i] == c0.info[i]
  {
    hide Dead;
  }

  lemma TableHere(t: Tables, a: Address)
    requires TablesOk(t) && a in t
    ensures Partition(t[a].own, t[a].info)
  {
    assert TableOk(a, t[a]);
  }

  lemma FreedCounts(c: Chunk, s: nat, n: nat, L: nat)
    requires L > 0 && n > 0 && s < |c.info|
    ensures FreeRun(c, s, n, L).freePages == c.freePages + n && FreeRun(c, s, n, L).num == c.num
  {
  }

  /** Writing the plain entry of a small run over a counted one. */
  lemma ResetCounter(c: Chunk, own: Owners, L: nat, i: nat)
    requires ChunkOk(c, own, L) && 0 < i < PAGES && i < |own| && own[i] == i
    requires i < |c.info| && IsSrun(c.info[i])
    ensures ChunkOk(c.(info := c.info[i := Srun(SrunBin(c.info[i]))]), own, L)
  {
    hide IsSrun, SameBits, HeadsBefore, FreeCount, Partition;
    CounterPartition(own, c.info, i, 0);
    SrunFields(SrunBin(c.info[i]), 0);
  }

  lemma SweepStart(t0: Tables, free: Lists, a: Address, c0: Chunk, L: nat)
    requires TablesOk(t0) && a in t0 && |free| == BINS && EntriesCounted(t0, free, a, c0) && ChunkOk(c0, t0[a].own, L)
    ensures SweptTo(t0, free, a, c0, c0, t0[a].own, 1) && Boundary(t0[a].own, 1)
  {
    hide Expected;
    TableHere(t0, a);
    HeaderTable(t0, a);
    NextBoundary(t0[a].own, t0[a].info, 0);
    LrunFields(1);
    assert c0.info[0] == Lrun(1);
  }

  lemma HeaderTable(t: Tables, a: Address)
    requires TablesOk(t) && a in t
    ensures |t[a].own| == |t[a].info| == PAGES && t[a].own[0] == 0 && t[a].info[0] == Lrun(1)
  {
    assert TableOk(a, t[a]);
  }

  lemma PageHere(t0: Tables, free: Lists, a: Address, c0: Chunk, c: Chunk, own: Owners, i: nat, L: nat)
    requires TablesOk(t0) && a in t0 && SweptTo(t0, free, a, c0, c, own, i)
    requires ChunkOk(c, own, L) && L > 0 && i < c.freeTail && Boundary(t0[a].own, i)
    ensures i < PAGES && |own| == PAGES && (Used(c.freeMap, L, i) <==> own[i] >= 0)
    ensures own[i] < 0 ==> SweptTo(t0, free, a, c0, c, own, i + 1) && Boundary(t0[a].own, i + 1)
  {
    hide Dead, Used, RunAt, RunLen;
    TableHere(t0, a);
    NextBoundary(t0[a].own, t0[a].info, i);
    if own[i] < 0 {
      SweepFree(t0, free, a, c0, c, own, i);
    }
  }

  /** Every run begins before free_tail, so the walk that stops there has seen them all. */
  lemma SweepEnds(t0: Tables, free: Lists, a: Address, c0: Chunk, c: Chunk, own: Owners, i: nat, L: nat)
    requires TablesOk(t0) && CountersZero(t0) && a in t0 && SweptTo(t0, free, a, c0, c, own, i)
    requires ChunkOk(c, own, L) && 0 < i && c.freeTail <= i && Boundary(t0[a].own, i)
    ensures Swept(t0, free, a, Table(own, c.info))
    ensures |own| == |c.info| && NoCounters(own, c.info)
  {
    hide Dead, RunLen, SameBits, IsSrun, SrunBin;
    TableHere(t0, a);
    var own0 := t0[a].own;
    forall h | i <= h < PAGES ensures own0[h] != h {
      assert own[h] == own0[h];
    }
    forall j | i <= j < PAGES ensures own0[j] < 0 {
    }
    hide Partition, Boundary;
    NoCountersLeft(t0, free, a, c, own);
  }

  lemma NoCountersLeft(t0: Tables, free: Lists, a: Address, c: Chunk, own: Owners)
    requires CountersZero(t0) && a in t0 && Swept(t0, free, a, Table(own, c.info))
    ensures |own| == |c.info| && NoCounters(own, c.info)
  {
    hide Dead, IsSrun, SrunBin;
    forall s | 0 <= s < |own| && own[s] == s ensures t0[a].own[s] == s {
    }
  }

  /** The sweep of one chunk gives back exactly its dead runs and resets every counter. */
  method SweepChunk(c0: Chunk, own0: Owners, L: nat,
                    ghost t0: Tables, ghost free: Lists, ghost live: Ledger, ghost a: Address)
    returns (c: Chunk, own: Owners, collected: nat)
    requires L > 0 && TablesOk(t0) && ListsOk(t0, free, live) && CountersZero(t0) && a in t0
    requires |free| == BINS && EntriesCounted(t0, free, a, c0) && ChunkOk(c0, own0, L) && own0 == t0[a].own
    ensures ChunkOk(c, own, L) && Swept(t0, free, a, Table(own, c.info))
    ensures |own| == |c.info| && NoCounters(own, c.info)
    ensures c.freePages == c0.freePages + collected && c.num == c0.num
  {
    hide ListsOk, TablesOk, Dead, EntriesCounted, CountersZero, Boundary, SweptTo, ChunkOk, Swept, NoCounters, Used;
    c, own, collected := c0, own0, 0;
    var i := 1;
    SweepStart(t0, free, a, c0, L);
    while i < c.freeTail
      invariant ChunkOk(c, own, L) && SweptTo(t0, free, a, c0, c, own, i)
      invariant 0 < i <= PAGES && Boundary(t0[a].own, i)
      invariant c.freePages == c0.freePages + collected && c.num == c0.num
      decreases PAGES - i
    {
      PageHere(t0, free, a, c0, c, own, i, L);
      if Used(c.freeMap, L, i) {
        var n;
        c, own, i, n := SweepRun(c, own, i, L, c0, t0, free, live, a);
        collected := collected + n;
      } else {
        i := i + 1;
      }
    }
    SweepEnds(t0, free, a, c0, c, own, i, L);
  }

}
