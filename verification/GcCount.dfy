// The first loops of zend_mm_gc: free slots are counted in the page map itself, in the spare
// bits of the entry of each small run, and then the slots of full runs leave their list.
module GcCount {
  import opened Sizes
  import opened PageInfo
  import opened Addresses
  import opened ChunkPages
  import opened Blocks
  import opened BlockSteps
  import opened GcSpec

  type Chunks = map<Address, Chunk>
  type OwnerMap = map<Address, Owners>

  /** The page tables of the chunks. */
  ghost function TablesOf(chunks: Chunks, own: OwnerMap): (t: Tables)
    ensures t.Keys == chunks.Keys * own.Keys
    ensures forall a | a in t :: t[a] == Table(own[a], chunks[a].info)
  {
    map a | a in chunks && a in own :: Table(own[a], chunks[a].info)
  }

  lemma TablesUpdate(chunks: Chunks, own: OwnerMap, a: Address, c: Chunk, o: Owners)
    ensures TablesOf(chunks[a := c], own[a := o]) == TablesOf(chunks, own)[a := Table(o, c.info)]
    ensures a in own && own[a] == o ==>
              TablesOf(chunks[a := c], own) == TablesOf(chunks, own)[a := Table(o, c.info)]
  {
    if a in own && own[a] == o {
      assert own[a := o] == own;
    }
  }

  ghost predicate ChunksOk(chunks: Chunks, own: OwnerMap, L: nat) {
    && chunks.Keys == own.Keys
    && forall a | a in chunks :: a > 0 && Offset(a) == 0 && ChunkOk(chunks[a], own[a], L)
  }

  /** No entry holds a count. */
  ghost predicate CountersZero(t: Tables) {
    forall a | a in t :: |t[a].own| == |t[a].info| == PAGES && NoCounters(t[a].own, t[a].info)
  }

  lemma ChunksTables(chunks: Chunks, own: OwnerMap, L: nat)
    requires ChunksOk(chunks, own, L)
    ensures TablesOk(TablesOf(chunks, own)) && TablesOf(chunks, own).Keys == chunks.Keys
  {
    hide Partition, SameBits, HeadsBefore, FreeCount, Lrun;
  }

  // ---- the entries while counting ----------------------------------------------------------------

  /**
   * The entry of page i of chunk a when bins below b have been counted and the first k slots of
   * the list of bin b.
   */
  ghost function Expected(t: Tables, free: Lists, b: nat, k: nat, a: Address, i: nat): nat
    requires a in t && i < |t[a].info| && |free| == BINS
  {
    var x := t[a].info[i];
    var c := SrunBin(x);
    if 0 < i < |t[a].own| && t[a].own[i] == i && IsSrun(x) then
      if c < b && c < BINS then SrunEx(c, Hits(t, free[c], a, i))
      else if c == b < BINS && k <= |free[b]| then SrunEx(b, Hits(t, free[b][..k], a, i))
      else x
    else x
  }

  ghost predicate Counted(t0: Tables, free: Lists, b: nat, k: nat, t: Tables)
    requires |free| == BINS
  {
    && t.Keys == t0.Keys
    && forall a | a in t ::
         && t[a].own == t0[a].own && |t[a].info| == |t0[a].info|
         && forall i | 0 <= i < |t[a].info| :: t[a].info[i] == Expected(t0, free, b, k, a, i)
  }

  lemma NothingCounted(t: Tables, free: Lists)
    requires |free| == BINS && CountersZero(t)
    ensures Counted(t, free, 0, 0, t)
  {
    forall a, i | a in t && 0 <= i < |t[a].info| ensures t[a].info[i] == Expected(t, free, 0, 0, a, i) {
      var x := t[a].info[i];
      if 0 < i < |t[a].own| && t[a].own[i] == i && IsSrun(x) {
        assert x == Srun(SrunBin(x));
        SrunFields(0, 0);
      }
    }
  }

  /** A counted entry still marks a small run of its bin. */
  lemma ExpectedFields(t0: Tables, free: Lists, live: Ledger, b: nat, k: nat, a: Address, h: nat)
    requires TablesOk(t0) && ListsOk(t0, free, live) && a in t0
    requires |t0[a].own| == |t0[a].info| == PAGES && 0 < h < PAGES && t0[a].own[h] == h
    requires IsSrun(t0[a].info[h]) && (b < BINS ==> k <= |free[b]|)
    ensures IsSrun(Expected(t0, free, b, k, a, h))
    ensures SrunBin(Expected(t0, free, b, k, a, h)) == SrunBin(t0[a].info[h]) < BINS
  {
    hide OnGrid, BinElements, SlotOf, TableOk;
    HeadIsRun(t0, a, h);
    hide TablesOk, SmallRunAt;
    var c := SrunBin(t0[a].info[h]);
    HeadBin(t0, a, h, c);
    BinFacts(c);
    var q := if c < b then free[c] else if c == b then free[b][..k] else [];
    forall r | r in q ensures SlotOf(t0, r, c) { assert r in free[c]; }
    assert Distinct(q);
    HitsBound(t0, q, a, h, c);
    SrunFields(c, Hits(t0, q, a, h));
  }

  lemma HeadBin(t: Tables, a: Address, s: nat, b: nat)
    requires SmallRunAt(t, a, s, b)
    ensures b < BINS
  {
  }

  lemma SlotStays(t0: Tables, free: Lists, live: Ledger, b: nat, k: nat, t: Tables, p: Address, h: nat, c: nat)
    requires TablesOk(t0) && ListsOk(t0, free, live) && Counted(t0, free, b, k, t) && SlotIn(t0, p, h, c)
    requires b < BINS ==> k <= |free[b]|
    ensures SlotIn(t, p, h, c)
  {
    hide OnGrid, Hits, ListsOk, TablesOk, Expected, IsSrun, SrunBin;
    HeadOfSlot(t0, p, h, c);
    ExpectedFields(t0, free, live, b, k, Base(p), h);
  }

  /** Decoding a free slot while counting: the program finds the run and its count so far. */
  lemma ReadSlot(t0: Tables, free: Lists, live: Ledger, b: nat, k: nat, t: Tables, p: Address, h: nat)
    requires TablesOk(t0) && TablesOk(t) && ListsOk(t0, free, live) && Counted(t0, free, b, k, t)
    requires b < BINS && k < |free[b]| && p == free[b][k] && SlotIn(t0, p, h, b) && SlotIn(t, p, h, b)
    ensures Hit(t0, p, Base(p), h) && t0[Base(p)].own[h] == h
    ensures t[Base(p)].info[h] == SrunEx(b, Hits(t0, free[b][..k], Base(p), h))
    ensures Hits(t0, free[b][..k + 1], Base(p), h) == Hits(t0, free[b][..k], Base(p), h) + 1
    ensures Hits(t0, free[b][..k + 1], Base(p), h) <= BinElements(b) <= 512
    ensures Counter(t[Base(p)].info[h]) == Hits(t0, free[b][..k], Base(p), h)
  {
    hide OnGrid, BinElements, SlotOf, TableOk;
    var a, q := Base(p), free[b][..k + 1];
    SlotEntry(t0, p, h, b);
    HeadOfSlot(t0, p, h, b);
    HeadIsRun(t0, a, h);
    hide SmallRunAt, TablesOk;
    forall r | r in q ensures SlotOf(t0, r, b) { assert r in free[b]; }
    assert Distinct(q);
    HitsBound(t0, q, a, h, b);
    assert q[..k] == free[b][..k];
    BinFacts(b);
    SrunFields(b, Hits(t0, free[b][..k], a, h));
  }

  lemma HeadOfSlot(t: Tables, p: Address, h: nat, b: nat)
    requires TablesOk(t) && SlotIn(t, p, h, b)
    ensures t[Base(p)].own[h] == h
  {
    assert TableOk(Base(p), t[Base(p)]);
  }

  /** Writing the new count makes the entries those expected after one more slot. */
  lemma CountStep(t0: Tables, free: Lists, b: nat, k: nat, t: Tables, p: Address, h: nat)
    requires |free| == BINS && Counted(t0, free, b, k, t) && b < BINS && k < |free[b]| && p == free[b][k]
    requires Hit(t0, p, Base(p), h) && t0[Base(p)].own[h] == h
    requires IsSrun(t0[Base(p)].info[h]) && SrunBin(t0[Base(p)].info[h]) == b
    ensures Base(p) in t && h < |t[Base(p)].info|
    ensures var x := t[Base(p)];
            var y := Table(x.own, x.info[h := SrunEx(b, Hits(t0, free[b][..k + 1], Base(p), h))]);
            Counted(t0, free, b, k + 1, t[Base(p) := y])
  {
    hide IsSrun, SrunBin, SrunEx;
    assert free[b][..k + 1][..k] == free[b][..k];
  }

  /** Counting keeps the chunks well formed. */
  lemma CountChunk(chunks: Chunks, own: OwnerMap, L: nat, a: Address, h: nat, b: nat, n: nat)
    requires ChunksOk(chunks, own, L) && a in chunks && n <= 512
    requires |own[a]| == |chunks[a].info| == PAGES && 0 < h < PAGES && own[a][h] == h
    requires IsSrun(chunks[a].info[h]) && SrunBin(chunks[a].info[h]) == b
    ensures ChunksOk(chunks[a := chunks[a].(info := chunks[a].info[h := SrunEx(b, n)])], own, L)
  {
    hide SrunEx, IsSrun, SrunBin, SameBits, HeadsBefore, FreeCount, Partition;
    CounterPartition(own[a], chunks[a].info, h, n);
  }

  /** Only info fields differ. */
  ghost predicate SameButInfo(x: Chunks, y: Chunks) {
    && x.Keys == y.Keys
    && forall a | a in x :: y[a] == x[a].(info := y[a].info)
  }

  /** What the collector reads for the free slot p = free[b][k], and what writing the count does. */
  lemma CountSlot(chunks: Chunks, own: OwnerMap, L: nat, t0: Tables, free: Lists, live: Ledger, b: nat, k: nat)
    returns (h: nat)
    requires ChunksOk(chunks, own, L) && TablesOk(t0) && ListsOk(t0, free, live)
    requires b < BINS && k < |free[b]| && Counted(t0, free, b, k, TablesOf(chunks, own))
    ensures var p := free[b][k]; var a := Base(p);
            && a in chunks && PageNum(p) < |chunks[a].info| && h < |chunks[a].info|
            && h == PageNum(p) - (if IsLrun(chunks[a].info[PageNum(p)])
                                  then Counter(chunks[a].info[PageNum(p)]) else 0)
            && Hit(t0, p, a, h)
            && var n := Counter(chunks[a].info[h]) + 1;
            && n == Hits(t0, free[b][..k + 1], a, h) <= 512
            && var chunks' := chunks[a := chunks[a].(info := chunks[a].info[h := SrunEx(b, n)])];
            && ChunksOk(chunks', own, L) && Counted(t0, free, b, k + 1, TablesOf(chunks', own))
  {
    hide OnGrid, ListsOk, TablesOk, Counted, IsSrun, IsLrun, SrunEx, Counter, Offset, Base, PageNum, RunLen;
    hide Hits, ChunkOk, BinElements, BinPages;
    SlotInList(t0, free, live, b, k);
    var p := free[b][k];
    h :| SlotIn(t0, p, h, b);
    var a, t := Base(p), TablesOf(chunks, own);
    ChunksTables(chunks, own, L);
    SlotStays(t0, free, live, b, k, t, p, h, b);
    SlotEntry(t, p, h, b);
    ReadSlot(t0, free, live, b, k, t, p, h);
    var n := Counter(chunks[a].info[h]) + 1;
    HeadOfSlot(t, p, h, b);
    CountChunk(chunks, own, L, a, h, b, n);
    CountStep(t0, free, b, k, t, p, h);
    var c' := chunks[a].(info := chunks[a].info[h := SrunEx(b, n)]);
    TablesUpdate(chunks, own, a, c', own[a]);
  }

  lemma SlotInList(t: Tables, free: Lists, live: Ledger, b: nat, k: nat)
    requires ListsOk(t, free, live) && b < BINS && k < |free[b]|
    ensures |free| == BINS && SlotOf(t, free[b][k], b) && free[b][k] !in live
  {
    assert free[b][k] in free[b];
  }

  lemma HitsNext(t: Tables, q: seq<Address>, k: nat, a: Address, s: nat)
    requires k < |q|
    ensures !Hit(t, q[k], a, s) ==> Hits(t, q[..k + 1], a, s) == Hits(t, q[..k], a, s)
  {
    assert q[..k + 1][..k] == q[..k];
  }

  /** No run of the list q has n of its slots there. */
  ghost predicate NoneFull(t: Tables, q: seq<Address>, n: nat) {
    forall a: Address, s: nat :: Hits(t, q, a, s) != n
  }

  lemma NoneFullNext(t: Tables, q: seq<Address>, k: nat, n: nat, a: Address, s: nat)
    requires k < |q| && NoneFull(t, q[..k], n) && Hit(t, q[k], a, s) && Hits(t, q[..k + 1], a, s) != n
    ensures NoneFull(t, q[..k + 1], n)
  {
    var next := q[..k + 1];
    forall c: Address, i: nat ensures Hits(t, next, c, i) != n {
      if c != a || i != s {
        HitsNext(t, q, k, c, i);
      }
    }
  }

  /**
   * One round of the first loop: every slot on the list of bin b adds one to the counter in the
   * entry of its run.  hasFree tells whether some counter reached the number of slots of the bin.
   */
  method CountBin(chunks0: Chunks, q: seq<Address>, b: nat,
                  ghost own: OwnerMap, ghost L: nat, ghost t0: Tables, ghost free: Lists, ghost live: Ledger)
    returns (chunks: Chunks, hasFree: bool)
    requires ChunksOk(chunks0, own, L) && TablesOk(t0) && ListsOk(t0, free, live)
    requires b < BINS && q == free[b] && Counted(t0, free, b, 0, TablesOf(chunks0, own))
    ensures ChunksOk(chunks, own, L) && SameButInfo(chunks0, chunks)
    ensures Counted(t0, free, b, |q|, TablesOf(chunks, own))
    ensures !hasFree ==> NoneFull(t0, q, BinElements(b))
  {
    hide TablesOk, Counted, ChunksOk, IsSrun, IsLrun, SrunEx, Counter, BinElements, Offset, Base, PageNum, NoneFull;
    hide SlotOf, Hit, Hits, Distinct;
    chunks, hasFree := chunks0, false;
    NoHits(t0, b);
    var k := 0;
    while k < |q|
      invariant k <= |q|
      invariant ChunksOk(chunks, own, L) && SameButInfo(chunks0, chunks)
      invariant Counted(t0, free, b, k, TablesOf(chunks, own))
      invariant !hasFree ==> NoneFull(t0, q[..k], BinElements(b))
    {
      ghost var h := CountSlot(chunks, own, L, t0, free, live, b, k);
      var p := q[k];
      var a, pageNum := Base(p), PageNum(p);
      var info := chunks[a].info[pageNum];
      if IsLrun(info) {
        pageNum := pageNum - Counter(info);
        info := chunks[a].info[pageNum];
      }
      var freeCounter := Counter(info) + 1;
      if freeCounter == BinElements(b) {
        hasFree := true;
      }
      if !hasFree {
        NoneFullNext(t0, q, k, BinElements(b), a, pageNum);
      }
      chunks := chunks[a := chunks[a].(info := chunks[a].info[pageNum := SrunEx(b, freeCounter)])];
      k := k + 1;
    }
    assert q[..k] == q;
  }

  lemma NoHits(t: Tables, b: nat)
    requires b < BINS
    ensures forall q: seq<Address> :: NoneFull(t, q[..0], BinElements(b))
  {
    BinFacts(b);
  }

  /** The counter of a run equals the number of its bin's slots just when the run is dead. */
  lemma FullCounter(t0: Tables, free: Lists, live: Ledger, a: Address, s: nat, b: nat)
    requires TablesOk(t0) && ListsOk(t0, free, live) && a in t0
    requires |t0[a].own| == |t0[a].info| == PAGES && 0 < s < PAGES && t0[a].own[s] == s
    requires IsSrun(t0[a].info[s]) && SrunBin(t0[a].info[s]) == b
    ensures b < BINS
    ensures Counter(SrunEx(b, Hits(t0, free[b], a, s))) == BinElements(b) <==> Dead(t0, free, a, s)
  {
    hide OnGrid, SlotOf, TableOk, IsSrun, SrunBin, BinElements, SrunEx, Counter;
    HeadIsRun(t0, a, s);
    HeadBin(t0, a, s, b);
    HitsBound(t0, free[b], a, s, b);
    BinFacts(b);
    BinFirst();
    SrunFields(b, Hits(t0, free[b], a, s));
  }

  /** When the counts of bin b are complete, a slot's counter tells whether its run is dead. */
  lemma FilterSlot(chunks: Chunks, own: OwnerMap, L: nat, t0: Tables, free: Lists, live: Ledger, b: nat, k: nat)
    returns (h: nat)
    requires ChunksOk(chunks, own, L) && TablesOk(t0) && ListsOk(t0, free, live)
    requires b < BINS && k < |free[b]| && Counted(t0, free, b, |free[b]|, TablesOf(chunks, own))
    ensures |free| == BINS
    ensures var p := free[b][k]; var a := Base(p);
            && a in chunks && PageNum(p) < |chunks[a].info| && h < |chunks[a].info|
            && h == PageNum(p) - (if IsLrun(chunks[a].info[PageNum(p)])
                                  then Counter(chunks[a].info[PageNum(p)]) else 0)
            && (Counter(chunks[a].info[h]) == BinElements(b) <==> DeadSlot(t0, free, p))
  {
    hide OnGrid, ListsOk, TablesOk, IsSrun, SrunBin, IsLrun, SrunEx, Counter, Offset, Base, PageNum, RunLen;
    hide Hits, ChunkOk, BinElements, BinPages, ChunksOk;
    SlotInList(t0, free, live, b, k);
    var p := free[b][k];
    h :| SlotIn(t0, p, h, b);
    var a, t := Base(p), TablesOf(chunks, own);
    ChunksTables(chunks, own, L);
    SlotStays(t0, free, live, b, |free[b]|, t, p, h, b);
    SlotEntry(t, p, h, b);
    HeadOfSlot(t0, p, h, b);
    FullCounter(t0, free, live, a, h, b);
    assert free[b][..|free[b]|] == free[b];
    assert t[a].info[h] == Expected(t0, free, b, |free[b]|, a, h);
    assert DeadSlot(t0, free, p) <==> Dead(t0, free, a, h);
  }

  /** The second loop for a bin: the slots of full runs leave the list, the others keep their order. */
  method FilterBin(chunks: Chunks, q: seq<Address>, b: nat,
                   ghost own: OwnerMap, ghost L: nat, ghost t0: Tables, ghost free: Lists, ghost live: Ledger)
    returns (kept: seq<Address>)
    requires ChunksOk(chunks, own, L) && TablesOk(t0) && ListsOk(t0, free, live)
    requires b < BINS && q == free[b] && Counted(t0, free, b, |q|, TablesOf(chunks, own))
    ensures kept == Survivors(t0, free, q)
  {
    hide TablesOk, Counted, ChunksOk, IsSrun, IsLrun, SrunEx, Counter, BinElements, Offset, Base, PageNum;
    hide SlotOf, Hit, Hits, Distinct, DeadSlot;
    kept := [];
    var k := 0;
    while k < |q|
      invariant k <= |q|
      invariant kept == Survivors(t0, free, q[..k])
    {
      ghost var h := FilterSlot(chunks, own, L, t0, free, live, b, k);
      var p := q[k];
      var a, pageNum := Base(p), PageNum(p);
      var info := chunks[a].info[pageNum];
      if IsLrun(info) {
        pageNum := pageNum - Counter(info);
        info := chunks[a].info[pageNum];
      }
      if Counter(info) != BinElements(b) {
        kept := kept + [p];
      }
      assert q[..k + 1][..k] == q[..k];
      k := k + 1;
    }
    assert q[..k] == q;
  }

  /** If no run is full, filtering would leave the list as it is: the program skips it. */
  lemma NothingToFilter(t0: Tables, free: Lists, live: Ledger, b: nat)
    requires TablesOk(t0) && ListsOk(t0, free, live) && b < BINS
    requires |free| == BINS && NoneFull(t0, free[b], BinElements(b))
    ensures Survivors(t0, free, free[b]) == free[b]
  {
    hide OnGrid, TablesOk, IsSrun, SrunBin, BinElements, Hits;
    forall p | p in free[b] ensures !DeadSlot(t0, free, p) {
      assert SlotOf(t0, p, b);
    }
    hide DeadSlot;
    AllSurvive(t0, free, free[b]);
  }

  lemma {:induction false} AllSurvive(t: Tables, free: Lists, q: seq<Address>)
    requires forall p | p in q :: !DeadSlot(t, free, p)
    ensures Survivors(t, free, q) == q
  {
    hide DeadSlot;
    if q != [] {
      var k := |q| - 1;
      AllSurvive(t, free, q[..k]);
      assert q[k] in q && q == q[..k] + [q[k]];
      assert Survivors(t, free, q) == Survivors(t, free, q[..k]) + [q[k]];
    }
  }

  /** Counting a bin to its end is counting up to the next bin. */
  lemma NextBin(t0: Tables, free: Lists, b: nat, t: Tables)
    requires |free| == BINS && b < BINS && Counted(t0, free, b, |free[b]|, t)
    requires CountersZero(t0)
    ensures Counted(t0, free, b + 1, 0, t)
  {
    hide IsSrun, SrunBin;
    assert free[b][..|free[b]|] == free[b];
    if b + 1 < BINS {
      assert free[b + 1][..0] == [];
    }
    forall a, i | a in t && 0 <= i < |t[a].info| ensures t[a].info[i] == Expected(t0, free, b + 1, 0, a, i) {
      assert t[a].info[i] == Expected(t0, free, b, |free[b]|, a, i);
      var x := t0[a].info[i];
      if SrunBin(x) == b + 1 < BINS {
        assert Srun(b + 1) == SrunEx(b + 1, 0);
        assert t0[a].own[i] == i && IsSrun(x) ==> x == Srun(b + 1);
      }
    }
  }
}
