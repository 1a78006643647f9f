// The blocks handed out to the program, seen from the page tables of the chunks: which addresses
// are slots of small runs, which are large runs, and how they divide between live blocks and
// free lists.
module Blocks {
  import opened Sizes
  import opened PageInfo
  import opened Addresses
  import opened ChunkPages

  /** What a chunk's header says about its pages. */
  datatype Table = Table(own: Owners, info: seq<nat>)

  type Tables = map<Address, Table>

  ghost predicate TablesOk(t: Tables) {
    forall a | a in t :: TableOk(a, t[a])
  }

  ghost predicate TableOk(a: Address, x: Table) {
    && a > 0 && Offset(a) == 0 && Partition(x.own, x.info)
    && x.own[0] == 0 && x.info[0] == Lrun(1)
  }

  /** The run that owns the page of p begins at page h, beyond the header. */
  ghost predicate InRun(t: Tables, p: Address, h: nat) {
    && Base(p) in t && |t[Base(p)].own| == |t[Base(p)].info| == PAGES
    && 0 < h < PAGES && t[Base(p)].own[PageNum(p)] == h
  }

  ghost predicate OnGrid(d: int, b: nat)
    requires b < BINS
  {
    exists k: nat :: k < BinElements(b) && d == SlotOffset(b, k)
  }

  /** p is a slot of a run of bin b, which begins at page h. */
  ghost predicate SlotIn(t: Tables, p: Address, h: nat, b: nat) {
    && InRun(t, p, h) && b < BINS
    && IsSrun(t[Base(p)].info[h]) && SrunBin(t[Base(p)].info[h]) == b
    && OnGrid(Offset(p) - h * 0x1000, b)
  }

  ghost predicate SlotOf(t: Tables, p: Address, b: nat) {
    exists h: nat :: SlotIn(t, p, h, b)
  }

  /** p is the first byte of a large run of n pages. */
  ghost predicate LargeOf(t: Tables, p: Address, n: nat) {
    && InRun(t, p, PageNum(p)) && Offset(p) == PageNum(p) * 0x1000
    && !IsSrun(t[Base(p)].info[PageNum(p)]) && LrunPages(t[Base(p)].info[PageNum(p)]) == n
  }

  /** p is a block of n bytes: a huge block, a slot or a large run. */
  ghost predicate BlockOf(t: Tables, huge: Ledger, p: Address, n: nat) {
    || (Offset(p) == 0 && p in huge && huge[p] == n)
    || (exists b: nat :: SlotOf(t, p, b) && n == BinSize(b))
    || (exists m: nat :: LargeOf(t, p, m) && n == m * 0x1000)
  }

  /** The free lists hold slots of their bins that are not live, each once. */
  ghost predicate ListsOk(t: Tables, free: seq<seq<Address>>, live: Ledger) {
    && |free| == BINS
    && (forall b | 0 <= b < BINS :: Distinct(free[b]))
    && forall b, p | 0 <= b < BINS && p in free[b] :: SlotOf(t, p, b) && p !in live
  }

  /** Every slot is live or on its bin's list, every large run is live. */
  ghost predicate NothingLost(t: Tables, free: seq<seq<Address>>, live: Ledger)
    requires |free| == BINS
  {
    && (forall p, b: nat | SlotOf(t, p, b) :: p in live || p in free[b])
    && (forall p, n: nat | LargeOf(t, p, n) :: p in live)
  }

  ghost predicate LiveOk(t: Tables, huge: Ledger, live: Ledger) {
    && (forall p | p in live :: BlockOf(t, huge, p, live[p]))
    && (forall p | p in huge :: p in live && Offset(p) == 0)
  }

  ghost predicate BlocksOk(t: Tables, free: seq<seq<Address>>, huge: Ledger, live: Ledger) {
    TablesOk(t) && ListsOk(t, free, live) && NothingLost(t, free, live) && LiveOk(t, huge, live)
  }

  // ---- decoding -----------------------------------------------------------------------------------

  /** A slot knows its bin: the entry of its page, first page of the run or not, holds the number. */
  lemma SlotEntry(t: Tables, p: Address, h: nat, b: nat)
    requires TablesOk(t) && SlotIn(t, p, h, b)
    ensures IsSrun(t[Base(p)].info[PageNum(p)]) && SrunBin(t[Base(p)].info[PageNum(p)]) == b
    ensures h <= PageNum(p) < h + BinPages(b) <= PAGES && Offset(p) != 0
    ensures PageNum(p) - (if IsLrun(t[Base(p)].info[PageNum(p)])
                          then Counter(t[Base(p)].info[PageNum(p)]) else 0) == h
  {
    hide OnGrid, BinPages;
    var x, i := t[Base(p)], PageNum(p);
    assert TableOk(Base(p), x);
    assert x.own[i] == h && x.own[x.own[i]] == x.own[i];
    assert RunAt(x.own, x.info, h) && RunInfo(x.info, h);
    hide Partition, RunAt;
    BinFacts(b);
    if i > h {
      assert x.info[h + (i - h)] == Nrun(b, i - h);
      NrunFields(b, i - h);
    }
  }

  lemma SlotIsUnique(t: Tables, p: Address, b: nat, c: nat)
    requires SlotOf(t, p, b) && SlotOf(t, p, c)
    ensures b == c
  {
    hide OnGrid;
  }

  /** The first page of a run of its own, and its length. */
  lemma LargeEntry(t: Tables, p: Address, n: nat)
    requires TablesOk(t) && LargeOf(t, p, n)
    ensures 0 < n && PageNum(p) + n <= PAGES && Offset(p) != 0
    ensures p == PageAddress(Base(p), PageNum(p))
    ensures forall j | PageNum(p) <= j < PageNum(p) + n :: t[Base(p)].own[j] == PageNum(p)
    ensures RunLen(t[Base(p)].info[PageNum(p)]) == n
  {
    var x, i := t[Base(p)], PageNum(p);
    assert TableOk(Base(p), x);
    assert RunAt(x.own, x.info, i);
  }

  lemma NotBoth(t: Tables, p: Address, b: nat, n: nat)
    requires TablesOk(t) && SlotOf(t, p, b)
    ensures !LargeOf(t, p, n)
  {
    var h: nat :| SlotIn(t, p, h, b);
    SlotEntry(t, p, h, b);
  }

  // ---- blocks do not overlap -----------------------------------------------------------------------

  /** The n bytes at p lie in the pages of the run that begins at page h of chunk Base(p). */
  ghost predicate Inside(t: Tables, p: Address, n: nat, h: nat) {
    && InRun(t, p, h)
    && h * 0x1000 <= Offset(p) && Offset(p) + n <= (h + RunLen(t[Base(p)].info[h])) * 0x1000
  }

  lemma SlotInside(t: Tables, p: Address, h: nat, b: nat)
    requires TablesOk(t) && SlotIn(t, p, h, b)
    ensures Inside(t, p, BinSize(b), h)
  {
    var k: nat :| k < BinElements(b) && Offset(p) - h * 0x1000 == SlotOffset(b, k);
    SlotEnds(b, k);
    hide BinSize, BinPages, BinElements, SlotOffset, Partition;
    assert RunLen(t[Base(p)].info[h]) == BinPages(b);
  }

  lemma LargeInside(t: Tables, p: Address, n: nat)
    requires TablesOk(t) && LargeOf(t, p, n)
    ensures Inside(t, p, n * 0x1000, PageNum(p))
  {
    LargeEntry(t, p, n);
  }

  /** Runs of one chunk own different pages. */
  lemma RunsApart(own: Owners, info: seq<nat>, g: nat, h: nat)
    requires Partition(own, info) && Head(own, g) && Head(own, h) && g < h
    ensures g + RunLen(info[g]) <= h
  {
    assert RunAt(own, info, g) && RunAt(own, info, h);
    hide RunLen;
  }

  /** Bytes inside different runs do not overlap, nor does a run touch the header page. */
  lemma InsideApart(t: Tables, p: Address, n: nat, g: nat, q: Address, m: nat, h: nat)
    requires TablesOk(t) && Inside(t, p, n, g) && Inside(t, q, m, h)
    requires Base(p) != Base(q) || g != h
    ensures Apart(p, n, q, m)
  {
    Recompose(p);
    Recompose(q);
    InsideChunk(t, p, n, g);
    InsideChunk(t, q, m, h);
    if Base(p) == Base(q) {
      var x := t[Base(p)];
      assert TableOk(Base(p), x);
      OwnerIsHead(x.own, x.info, PageNum(p));
      OwnerIsHead(x.own, x.info, PageNum(q));
      if g < h {
        RunsApart(x.own, x.info, g, h);
      } else {
        RunsApart(x.own, x.info, h, g);
      }
    } else {
      ChunksApart(Base(p), Base(q));
    }
  }

  lemma OwnerIsHead(own: Owners, info: seq<nat>, i: nat)
    requires Partition(own, info) && i < PAGES && own[i] >= 0
    ensures Head(own, own[i])
  {
  }

  lemma ChunksApart(a: Address, c: Address)
    requires Offset(a) == 0 && Offset(c) == 0 && a != c
    ensures a + CHUNK <= c || c + CHUNK <= a
  {
  }

  /** A block of a chunk lies in it, past its header page. */
  lemma InsideChunk(t: Tables, p: Address, n: nat, h: nat)
    requires TablesOk(t) && Inside(t, p, n, h)
    ensures Base(p) + PAGE <= p && p + n <= Base(p) + CHUNK
  {
    Recompose(p);
    var x := t[Base(p)];
    assert TableOk(Base(p), x);
    OwnerIsHead(x.own, x.info, PageNum(p));
    assert RunAt(x.own, x.info, h);
  }

  /** Two slots of one run. */
  lemma SameRunApart(t: Tables, p: Address, q: Address, h: nat, b: nat)
    requires SlotIn(t, p, h, b) && SlotIn(t, q, h, b) && Base(p) == Base(q) && p != q
    ensures Apart(p, BinSize(b), q, BinSize(b))
  {
    var j: nat :| j < BinElements(b) && Offset(p) - h * 0x1000 == SlotOffset(b, j);
    var k: nat :| k < BinElements(b) && Offset(q) - h * 0x1000 == SlotOffset(b, k);
    hide BinSize, BinPages, BinElements, SlotOffset, IsSrun, SrunBin;
    Recompose(p);
    Recompose(q);
    if j < k {
      SlotsApart(b, j, k);
    } else if k < j {
      SlotsApart(b, k, j);
    }
  }

  /** Any two different blocks of the chunks, of any sizes and kinds, live or free, do not overlap. */
  lemma ChunkBlocksApart(t: Tables, p: Address, n: nat, q: Address, m: nat)
    requires TablesOk(t) && BlockOf(t, map[], p, n) && BlockOf(t, map[], q, m) && p != q
    ensures Apart(p, n, q, m)
  {
    var g := HeadOfBlock(t, p, n);
    var h := HeadOfBlock(t, q, m);
    if Base(p) != Base(q) || g != h {
      InsideApart(t, p, n, g, q, m, h);
    } else {
      SameHead(t, p, n, q, m, g);
    }
  }

  lemma HeadOfBlock(t: Tables, p: Address, n: nat) returns (h: nat)
    requires TablesOk(t) && BlockOf(t, map[], p, n)
    ensures Inside(t, p, n, h)
    ensures (exists b: nat :: SlotIn(t, p, h, b) && n == BinSize(b))
            || (exists m: nat :: LargeOf(t, p, m) && n == m * 0x1000 && h == PageNum(p))
  {
    hide Inside;
    if b: nat :| SlotOf(t, p, b) && n == BinSize(b) {
      h :| SlotIn(t, p, h, b);
      SlotInside(t, p, h, b);
    } else {
      var m: nat :| LargeOf(t, p, m) && n == m * 0x1000;
      LargeInside(t, p, m);
      h := PageNum(p);
    }
  }

  lemma SameHead(t: Tables, p: Address, n: nat, q: Address, m: nat, h: nat)
    requires TablesOk(t) && Base(p) == Base(q) && p != q
    requires (exists b: nat :: SlotIn(t, p, h, b) && n == BinSize(b))
             || (exists k: nat :: LargeOf(t, p, k) && n == k * 0x1000 && h == PageNum(p))
    requires (exists b: nat :: SlotIn(t, q, h, b) && m == BinSize(b))
             || (exists k: nat :: LargeOf(t, q, k) && m == k * 0x1000 && h == PageNum(q))
    ensures Apart(p, n, q, m)
  {
    hide OnGrid, TablesOk, BinSize;
    Recompose(p);
    Recompose(q);
    if b: nat :| SlotIn(t, p, h, b) && n == BinSize(b) {
      if SlotIn(t, q, h, b) && m == BinSize(b) {
        SameRunApart(t, p, q, h, b);
      }
    }
  }
}
