// What each step of the allocator does to the division of pages and slots into live blocks and
// free ones.  Every lemma says that BlocksOk survives the step.
module BlockSteps {
  import opened Sizes
  import opened PageInfo
  import opened Addresses
  import opened ChunkPages
  import opened Blocks

  type Lists = seq<seq<Address>>

  // ---- changing the pages s .. s+n-1 of one chunk ---------------------------------------------------

  ghost predicate InRegion(p: Address, a: Address, s: nat, n: nat) {
    Base(p) == a && s <= PageNum(p) < s + n
  }

  /** Pages outside the region keep their owners, and those owners keep their entries. */
  ghost predicate SameOutside(x: Table, y: Table, s: nat, n: nat) {
    && |x.own| == |x.info| == |y.own| == |y.info| == PAGES
    && forall i | 0 <= i < PAGES && !(s <= i < s + n) ::
         && y.own[i] == x.own[i]
         && (0 <= x.own[i] < PAGES ==> y.info[x.own[i]] == x.info[x.own[i]])
  }

  lemma OutsideSlot(t: Tables, a: Address, y: Table, s: nat, n: nat, p: Address, h: nat, b: nat)
    requires a in t && SameOutside(t[a], y, s, n) && !InRegion(p, a, s, n)
    ensures SlotIn(t[a := y], p, h, b) <==> SlotIn(t, p, h, b)
  {
    hide OnGrid, IsSrun, SrunBin;
  }

  lemma OutsideSlots(t: Tables, a: Address, y: Table, s: nat, n: nat, p: Address, b: nat)
    requires a in t && SameOutside(t[a], y, s, n) && !InRegion(p, a, s, n)
    ensures SlotOf(t[a := y], p, b) <==> SlotOf(t, p, b)
  {
    hide SlotIn, SameOutside, InRegion;
    var t' := t[a := y];
    if h: nat :| SlotIn(t, p, h, b) {
      OutsideSlot(t, a, y, s, n, p, h, b);
    }
    if h: nat :| SlotIn(t', p, h, b) {
      OutsideSlot(t, a, y, s, n, p, h, b);
    }
  }

  lemma OutsideLarge(t: Tables, a: Address, y: Table, s: nat, n: nat, p: Address, m: nat)
    requires a in t && SameOutside(t[a], y, s, n) && !InRegion(p, a, s, n)
    ensures LargeOf(t[a := y], p, m) <==> LargeOf(t, p, m)
  {
    hide OnGrid, IsSrun, LrunPages;
  }

  lemma OutsideBlocks(t: Tables, a: Address, y: Table, s: nat, n: nat, huge: Ledger, p: Address, m: nat)
    requires a in t && SameOutside(t[a], y, s, n) && !InRegion(p, a, s, n)
    ensures BlockOf(t[a := y], huge, p, m) <==> BlockOf(t, huge, p, m)
  {
    hide SameOutside, InRegion, SlotOf, LargeOf;
    var t' := t[a := y];
    forall b: nat ensures SlotOf(t', p, b) <==> SlotOf(t, p, b) {
      OutsideSlots(t, a, y, s, n, p, b);
    }
    forall k: nat ensures LargeOf(t', p, k) <==> LargeOf(t, p, k) {
      OutsideLarge(t, a, y, s, n, p, k);
    }
  }

  /** The ledgers agree outside the region. */
  ghost predicate SameLedgers(a: Address, s: nat, n: nat, free: Lists, free': Lists, live: Ledger, live': Ledger) {
    && |free| == |free'| == BINS
    && (forall p | !InRegion(p, a, s, n) && p in live :: p in live' && live'[p] == live[p])
    && (forall p | !InRegion(p, a, s, n) && p in live' :: p in live)
    && (forall b, p | 0 <= b < BINS && !InRegion(p, a, s, n) :: p in free'[b] <==> p in free[b])
    && (forall b | 0 <= b < BINS :: Distinct(free'[b]))
  }

  /** Inside the region every slot and large run is accounted for. */
  ghost predicate RegionOk(t: Tables, a: Address, s: nat, n: nat, free: Lists, live: Ledger)
    requires |free| == BINS
  {
    && (forall p, b: nat | InRegion(p, a, s, n) && SlotOf(t, p, b) :: p in live || p in free[b])
    && (forall p, m: nat | InRegion(p, a, s, n) && LargeOf(t, p, m) :: p in live)
    && (forall p | InRegion(p, a, s, n) && p in live :: BlockOf(t, map[], p, live[p]))
    && (forall b, p | 0 <= b < BINS && InRegion(p, a, s, n) && p in free[b] :: SlotOf(t, p, b) && p !in live)
  }

  lemma Replace(t: Tables, a: Address, y: Table, s: nat, n: nat,
                free: Lists, free': Lists, huge: Ledger, live: Ledger, live': Ledger)
    requires BlocksOk(t, free, huge, live) && a in t && TableOk(a, y) && 0 < s
    requires SameOutside(t[a], y, s, n) && SameLedgers(a, s, n, free, free', live, live')
    requires RegionOk(t[a := y], a, s, n, free', live')
    ensures BlocksOk(t[a := y], free', huge, live')
  {
    hide SameOutside, TableOk, Distinct, SlotOf, LargeOf, BlockOf, InRegion;
    var t' := t[a := y];
    forall p, b: nat
      ensures SlotOf(t', p, b) ==> b < BINS
      ensures !InRegion(p, a, s, n) ==> (SlotOf(t', p, b) <==> SlotOf(t, p, b))
    {
      SlotBin(t', p, b);
      if !InRegion(p, a, s, n) { OutsideSlots(t, a, y, s, n, p, b); }
    }
    forall p, m: nat ensures !InRegion(p, a, s, n) ==> (LargeOf(t', p, m) <==> LargeOf(t, p, m)) {
      if !InRegion(p, a, s, n) { OutsideLarge(t, a, y, s, n, p, m); }
    }
    ReplaceLive(t, a, y, s, n, free, free', huge, live, live');
  }

  lemma SlotBin(t: Tables, p: Address, b: nat)
    ensures SlotOf(t, p, b) ==> b < BINS
  {
  }

  lemma ReplaceLive(t: Tables, a: Address, y: Table, s: nat, n: nat,
                    free: Lists, free': Lists, huge: Ledger, live: Ledger, live': Ledger)
    requires LiveOk(t, huge, live) && a in t && 0 < s
    requires SameOutside(t[a], y, s, n) && SameLedgers(a, s, n, free, free', live, live')
    requires |free'| == BINS && RegionOk(t[a := y], a, s, n, free', live')
    ensures LiveOk(t[a := y], huge, live')
  {
    hide SameOutside, SlotOf, LargeOf;
    forall p | p in live' ensures BlockOf(t[a := y], huge, p, live'[p]) {
      if !InRegion(p, a, s, n) {
        OutsideBlocks(t, a, y, s, n, huge, p, live[p]);
      }
    }
    forall p | p in huge ensures p in live' {
      assert p in live && Offset(p) == 0;
      assert PageNum(p) == 0;
    }
  }

  // ---- large runs ------------------------------------------------------------------------------------

  /** Pages of the region that are free carry no block. */
  lemma EmptyRegion(t: Tables, a: Address, s: nat, n: nat, free: Lists, huge: Ledger, live: Ledger, p: Address)
    requires BlocksOk(t, free, huge, live) && a in t && 0 < s && s + n <= PAGES
    requires forall i | s <= i < s + n :: t[a].own[i] < 0
    requires InRegion(p, a, s, n)
    ensures p !in live && forall b | 0 <= b < BINS :: p !in free[b]
  {
    hide OnGrid, TableOk, IsSrun, SrunBin, LrunPages;
  }

  lemma NoSlots(t: Tables, a: Address, s: nat, n: nat, p: Address, b: nat)
    requires a in t && |t[a].own| == |t[a].info| == PAGES && InRegion(p, a, s, n) && s + n <= PAGES
    requires forall i | s <= i < s + n :: t[a].own[i] < 0 || (t[a].own[i] == s && !IsSrun(t[a].info[s]))
    ensures !SlotOf(t, p, b)
  {
    hide OnGrid, IsSrun;
  }

  /** In a region that is one large run, its first byte is the only block. */
  lemma OneLarge(t: Tables, a: Address, s: nat, n: nat, p: Address, m: nat)
    requires a in t && Offset(a) == 0 && |t[a].own| == |t[a].info| == PAGES
    requires 0 < s && s + n <= PAGES && n > 0
    requires !IsSrun(t[a].info[s]) && LrunPages(t[a].info[s]) == m
    requires forall i | s <= i < s + n :: t[a].own[i] == s
    ensures LargeOf(t, PageAddress(a, s), m)
    ensures InRegion(p, a, s, n) ==> forall k: nat :: LargeOf(t, p, k) <==> p == PageAddress(a, s) && k == m
  {
    hide IsSrun, LrunPages;
    LocatePage(a, s);
    Recompose(p);
  }

  /** Taking free pages as a large run hands out one block. */
  lemma AddLarge(t: Tables, a: Address, y: Table, s: nat, n: nat, free: Lists, huge: Ledger, live: Ledger)
    requires BlocksOk(t, free, huge, live) && a in t && TableOk(a, y)
    requires 0 < s && s + n <= PAGES && 0 < n < 0x400 && |t[a].info| == PAGES
    requires forall i | s <= i < s + n :: t[a].own[i] < 0
    requires y == Table(Fill(t[a].own, s, n, s), t[a].info[s := Lrun(n)])
    ensures PageAddress(a, s) !in live
    ensures BlocksOk(t[a := y], free, huge, live[PageAddress(a, s) := n * 0x1000])
  {
    hide SlotOf, LargeOf, BlockOf;
    var t', p0 := t[a := y], PageAddress(a, s);
    var live' := live[p0 := n * 0x1000];
    LocatePage(a, s);
    LrunFields(n);
    OwnedElsewhere(t[a].own, t[a].info, s, n);
    forall p | InRegion(p, a, s, n)
      ensures p !in live && forall b | 0 <= b < BINS :: p !in free[b]
      ensures forall b: nat :: !SlotOf(t', p, b)
      ensures forall k: nat :: LargeOf(t', p, k) <==> p == p0 && k == n
    {
      EmptyRegion(t, a, s, n, free, huge, live, p);
      OneLarge(t', a, s, n, p, n);
      forall b: nat ensures !SlotOf(t', p, b) {
        NoSlots(t', a, s, n, p, b);
      }
    }
    assert BlockOf(t', map[], p0, n * 0x1000) by { LargeBlock(t', p0, n); }
    hide InRegion, Distinct, TableOk;
    Replace(t, a, y, s, n, free, free, huge, live, live');
  }

  lemma LargeBlock(t: Tables, p: Address, n: nat)
    requires LargeOf(t, p, n)
    ensures BlockOf(t, map[], p, n * 0x1000)
  {
  }

  /** Owners outside a union of whole runs and free pages lie outside it. */
  lemma OwnedElsewhere(own: Owners, info: seq<nat>, s: nat, n: nat)
    requires Partition(own, info) && s + n <= PAGES
    requires forall i | s <= i < s + n :: own[i] < 0 || own[i] == s
    requires forall i | 0 <= i < PAGES && own[i] == s :: s <= i < s + n
    ensures forall i | 0 <= i < PAGES && !(s <= i < s + n) && own[i] >= 0 :: !(s <= own[i] < s + n)
  {
    forall i | 0 <= i < PAGES && !(s <= i < s + n) && own[i] >= 0 ensures !(s <= own[i] < s + n) {
      assert own[own[i]] == own[i];
    }
  }

  /** Giving a large run back takes its block out of the ledger. */
  lemma RemoveLarge(t: Tables, a: Address, y: Table, s: nat, n: nat, free: Lists, huge: Ledger, live: Ledger)
    requires BlocksOk(t, free, huge, live) && a in t && TableOk(a, y)
    requires 0 < s < PAGES && LargeOf(t, PageAddress(a, s), n) && Offset(a) == 0
    requires |t[a].own| == |t[a].info| == PAGES
    requires y == Table(Fill(t[a].own, s, n, -1), t[a].info[s := 0])
    ensures PageAddress(a, s) in live
    ensures BlocksOk(t[a := y], free, huge, live - {PageAddress(a, s)})
  {
    hide SlotOf, BlockOf;
    var t', p0 := t[a := y], PageAddress(a, s);
    LocatePage(a, s);
    LargeEntry(t, p0, n);
    hide LargeOf;
    OwnedElsewhere(t[a].own, t[a].info, s, n);
    forall p | InRegion(p, a, s, n)
      ensures p in live ==> p == p0
      ensures forall b | 0 <= b < BINS :: p !in free[b]
      ensures forall b: nat :: !SlotOf(t', p, b)
      ensures forall k: nat :: !LargeOf(t', p, k)
    {
      OnlyLarge(t, a, s, n, free, huge, live, p);
      forall b: nat ensures !SlotOf(t', p, b) {
        NoSlots(t', a, s, n, p, b);
      }
      forall k: nat ensures !LargeOf(t', p, k) {
        NoLarge(t', a, s, n, p, k);
      }
    }
    hide InRegion, Distinct, TableOk;
    Replace(t, a, y, s, n, free, free, huge, live, live - {p0});
  }

  lemma NoLarge(t: Tables, a: Address, s: nat, n: nat, p: Address, k: nat)
    requires a in t && |t[a].own| == PAGES && InRegion(p, a, s, n) && s + n <= PAGES
    requires forall i | s <= i < s + n :: t[a].own[i] != i
    ensures !LargeOf(t, p, k)
  {
  }

  /** The pages of a large run carry no block but its own. */
  lemma OnlyLarge(t: Tables, a: Address, s: nat, n: nat, free: Lists, huge: Ledger, live: Ledger, p: Address)
    requires BlocksOk(t, free, huge, live) && a in t && 0 < s && s + n <= PAGES && 0 < n
    requires |t[a].own| == |t[a].info| == PAGES && Offset(a) == 0
    requires forall i | s <= i < s + n :: t[a].own[i] == s
    requires !IsSrun(t[a].info[s]) && LrunPages(t[a].info[s]) == n
    requires InRegion(p, a, s, n)
    ensures p in live ==> p == PageAddress(a, s) && live[p] == n * 0x1000
    ensures PageAddress(a, s) in live
    ensures forall b | 0 <= b < BINS :: p !in free[b]
  {
    hide IsSrun, LrunPages, TableOk;
    OneLarge(t, a, s, n, p, n);
    forall b: nat ensures !SlotOf(t, p, b) {
      NoSlots(t, a, s, n, p, b);
    }
    hide SlotOf, LargeOf;
    assert PageNum(p) > 0 && Offset(p) != 0;
  }

  /**
   * Resizing a large run from n to m pages in place: the region is the longer of the two, its
   * pages belong to the run up to the new length and are free from there.
   */
  lemma ResizeLarge(t: Tables, a: Address, y: Table, s: nat, n: nat, m: nat,
                    free: Lists, huge: Ledger, live: Ledger)
    requires BlocksOk(t, free, huge, live) && a in t && TableOk(a, y)
    requires 0 < s < PAGES && LargeOf(t, PageAddress(a, s), n) && Offset(a) == 0
    requires 0 < n && 0 < m && s + m <= PAGES && n != m
    requires |t[a].own| == |t[a].info| == |y.own| == PAGES
    requires y.info == t[a].info[s := Lrun(m)]
    requires forall i | s + n <= i < s + m :: t[a].own[i] < 0
    requires forall i | 0 <= i < PAGES ::
               y.own[i] == if s <= i < s + m then s else if s <= i < s + n then -1 else t[a].own[i]
    ensures PageAddress(a, s) in live && live[PageAddress(a, s)] == n * 0x1000
    ensures BlocksOk(t[a := y], free, huge, live[PageAddress(a, s) := m * 0x1000])
  {
    hide SlotOf, BlockOf, IsSrun, LrunPages, Lrun;
    var r := if n < m then m else n;
    var t', p0 := t[a := y], PageAddress(a, s);
    LocatePage(a, s);
    LargeEntry(t, p0, n);
    LrunFields(m);
    OnlyLarge(t, a, s, n, free, huge, live, p0);
    hide LargeOf;
    OwnedElsewhere(t[a].own, t[a].info, s, r);
    forall p | InRegion(p, a, s, r)
      ensures p in live ==> p == p0
      ensures forall b | 0 <= b < BINS :: p !in free[b]
      ensures forall b: nat :: !SlotOf(t', p, b)
      ensures forall k: nat :: LargeOf(t', p, k) <==> p == p0 && k == m
    {
      ResizedBefore(t, a, s, n, r, free, huge, live, p);
      ResizedAfter(t', a, s, m, r, p);
    }
    OneLarge(t', a, s, m, p0, m);
    assert BlockOf(t', map[], p0, m * 0x1000) by { LargeBlock(t', p0, m); }
    OneBlockRegion(t', a, s, r, free, live[p0 := m * 0x1000], p0);
    OneBlockLedger(a, s, r, free, live, p0, m * 0x1000);
    hide InRegion, TablesOk, ListsOk, NothingLost, LiveOk, TableOk, RegionOk, SameLedgers;
    Replace(t, a, y, s, r, free, free, huge, live, live[p0 := m * 0x1000]);
  }

  /** A region whose only block is p0. */
  lemma OneBlockRegion(t: Tables, a: Address, s: nat, n: nat, free: Lists, live: Ledger, p0: Address)
    requires |free| == BINS && p0 in live && BlockOf(t, map[], p0, live[p0])
    requires forall p | InRegion(p, a, s, n) && p in live :: p == p0
    requires forall p, b | InRegion(p, a, s, n) && 0 <= b < BINS :: p !in free[b]
    requires forall p, b: nat | InRegion(p, a, s, n) :: !SlotOf(t, p, b)
    requires forall p, k: nat | InRegion(p, a, s, n) && LargeOf(t, p, k) :: p == p0
    ensures RegionOk(t, a, s, n, free, live)
  {
    hide InRegion, SlotOf, LargeOf, BlockOf;
  }

  lemma OneBlockLedger(a: Address, s: nat, n: nat, free: Lists, live: Ledger, p0: Address, v: nat)
    requires |free| == BINS && InRegion(p0, a, s, n) && forall b | 0 <= b < BINS :: Distinct(free[b])
    ensures SameLedgers(a, s, n, free, free, live, live[p0 := v])
  {
    hide InRegion, Distinct;
  }

  /** The pages of a large run and the free pages behind it carry one block. */
  lemma ResizedBefore(t: Tables, a: Address, s: nat, n: nat, r: nat, free: Lists, huge: Ledger, live: Ledger, p: Address)
    requires BlocksOk(t, free, huge, live) && a in t && 0 < s && s + r <= PAGES && 0 < n <= r
    requires |t[a].own| == |t[a].info| == PAGES && Offset(a) == 0
    requires forall i | s <= i < s + n :: t[a].own[i] == s
    requires forall i | s + n <= i < s + r :: t[a].own[i] < 0
    requires !IsSrun(t[a].info[s]) && LrunPages(t[a].info[s]) == n
    requires InRegion(p, a, s, r)
    ensures p in live ==> p == PageAddress(a, s)
    ensures forall b | 0 <= b < BINS :: p !in free[b]
  {
    hide BlocksOk, IsSrun, LrunPages;
    if InRegion(p, a, s, n) {
      OnlyLarge(t, a, s, n, free, huge, live, p);
    } else {
      EmptyRegion(t, a, s + n, r - n, free, huge, live, p);
    }
  }

  lemma ResizedAfter(t: Tables, a: Address, s: nat, m: nat, r: nat, p: Address)
    requires a in t && 0 < s && s + r <= PAGES && 0 < m <= r
    requires |t[a].own| == |t[a].info| == PAGES && Offset(a) == 0
    requires forall i | s <= i < s + m :: t[a].own[i] == s
    requires forall i | s + m <= i < s + r :: t[a].own[i] < 0
    requires !IsSrun(t[a].info[s]) && LrunPages(t[a].info[s]) == m
    requires InRegion(p, a, s, r)
    ensures forall b: nat :: !SlotOf(t, p, b)
    ensures forall k: nat :: LargeOf(t, p, k) <==> p == PageAddress(a, s) && k == m
  {
    hide IsSrun, LrunPages, SlotOf, LargeOf;
    LocatePage(a, s);
    forall b: nat ensures !SlotOf(t, p, b) {
      NoSlots(t, a, s, r, p, b);
    }
    OneLarge(t, a, s, m, p, m);
    if !InRegion(p, a, s, m) {
      forall k: nat ensures !LargeOf(t, p, k) {
        NoLarge(t, a, s + m, r - m, p, k);
      }
    }
  }

  // ---- slots -----------------------------------------------------------------------------------------

  function SlotsFrom(a: Address, s: nat, b: nat, k: nat): (q: seq<Address>)
    requires b < BINS && k <= BinElements(b)
    ensures |q| == BinElements(b) - k
  {
    seq<Address>(BinElements(b) - k, (i: nat) requires i < BinElements(b) - k => SlotAddress(a, s, b, k + i))
  }

  /** A run of bin b that begins at page s of chunk a. */
  ghost predicate SmallRunAt(t: Tables, a: Address, s: nat, b: nat) {
    && a in t && 0 < s && b < BINS && s + BinPages(b) <= PAGES && Offset(a) == 0
    && |t[a].own| == |t[a].info| == PAGES
    && IsSrun(t[a].info[s]) && SrunBin(t[a].info[s]) == b
    && forall i | s <= i < s + BinPages(b) :: t[a].own[i] == s
  }

  /** The slots in the pages of a small run are exactly its slot addresses. */
  lemma RunSlots(t: Tables, a: Address, s: nat, b: nat, p: Address, c: nat)
    requires SmallRunAt(t, a, s, b) && InRegion(p, a, s, BinPages(b))
    ensures SlotOf(t, p, c) <==> c == b && exists k: nat :: k < BinElements(b) && p == SlotAddress(a, s, b, k)
  {
    hide BinPages, BinSize, BinElements, IsSrun, SrunBin, SlotOffset;
    Recompose(p);
    if SlotOf(t, p, c) {
      var h: nat :| SlotIn(t, p, h, c);
      assert h == s && c == b;
      var k: nat :| k < BinElements(b) && Offset(p) - s * 0x1000 == SlotOffset(b, k);
      assert p == SlotAddress(a, s, b, k);
    }
    if c == b {
      if k: nat :| k < BinElements(b) && p == SlotAddress(a, s, b, k) {
        assert Offset(p) - s * 0x1000 == SlotOffset(b, k);
        assert SlotIn(t, p, s, b);
      }
    }
  }

  lemma SlotIsSlot(t: Tables, a: Address, s: nat, b: nat, k: nat)
    requires SmallRunAt(t, a, s, b) && k < BinElements(b)
    ensures SlotOf(t, SlotAddress(a, s, b, k), b) && InRegion(SlotAddress(a, s, b, k), a, s, BinPages(b))
    ensures SlotIn(t, SlotAddress(a, s, b, k), s, b)
  {
    hide BinPages, BinSize, BinElements, IsSrun, SrunBin, SlotOffset;
    var p := SlotAddress(a, s, b, k);
    LocateSlot(a, s, b, k);
    assert Offset(p) - s * 0x1000 == SlotOffset(b, k);
    assert SlotIn(t, p, s, b);
  }

  lemma SlotsDiffer(a: Address, s: nat, b: nat, j: nat, k: nat)
    requires b < BINS && j < k
    ensures SlotAddress(a, s, b, j) < SlotAddress(a, s, b, k)
  {
    hide BinSize, SlotOffset;
    BinFacts(b);
    SlotsApart(b, j, k);
  }

  lemma NoLargeInSmall(t: Tables, a: Address, s: nat, b: nat, p: Address, n: nat)
    requires SmallRunAt(t, a, s, b) && InRegion(p, a, s, BinPages(b))
    ensures !LargeOf(t, p, n)
  {
    hide BinPages, IsSrun, SrunBin, LrunPages;
  }

  /** The slots after the first, as the program links them: all different, none the first. */
  lemma ListedSlots(a: Address, s: nat, b: nat)
    requires b < BINS && 0 < BinElements(b)
    ensures Distinct(SlotsFrom(a, s, b, 1)) && SlotAddress(a, s, b, 0) !in SlotsFrom(a, s, b, 1)
    ensures forall k: nat | 0 < k < BinElements(b) :: SlotAddress(a, s, b, k) in SlotsFrom(a, s, b, 1)
    ensures forall p | p in SlotsFrom(a, s, b, 1) ::
              exists k: nat :: 0 < k < BinElements(b) && p == SlotAddress(a, s, b, k)
  {
    hide BinElements, SlotAddress;
    var q := SlotsFrom(a, s, b, 1);
    forall i, j | 0 <= i < j < |q| ensures q[i] != q[j] {
      SlotsDiffer(a, s, b, i + 1, j + 1);
    }
    forall i | 0 <= i < |q| ensures q[i] == SlotAddress(a, s, b, i + 1) && q[i] != SlotAddress(a, s, b, 0) {
      SlotsDiffer(a, s, b, 0, i + 1);
    }
    forall k: nat | 0 < k < BinElements(b) ensures SlotAddress(a, s, b, k) in q {
      assert q[k - 1] == SlotAddress(a, s, b, k);
    }
  }

  lemma SmallRunIntro(t: Tables, a: Address, s: nat, b: nat)
    requires a in t && 0 < s && b < BINS && s + BinPages(b) <= PAGES && Offset(a) == 0
    requires |t[a].own| == |t[a].info| == PAGES
    requires IsSrun(t[a].info[s]) && SrunBin(t[a].info[s]) == b
    requires forall i | s <= i < s + BinPages(b) :: t[a].own[i] == s
    ensures SmallRunAt(t, a, s, b)
  {
  }

  lemma FirstSlot(a: Address, s: nat, b: nat)
    requires b < BINS
    ensures SlotAddress(a, s, b, 0) == PageAddress(a, s)
  {
    SlotNext(b, 0);
  }

  lemma SlotBlock(t: Tables, p: Address, b: nat)
    requires SlotOf(t, p, b)
    ensures BlockOf(t, map[], p, BinSize(b))
  {
  }

  lemma CarvedPage(t: Tables, a: Address, s: nat, b: nat, p: Address)
    requires b < BINS && SmallRunAt(t, a, s, b) && InRegion(p, a, s, BinPages(b)) && 0 < BinElements(b)
    ensures forall k: nat :: !LargeOf(t, p, k)
    ensures forall c: nat :: SlotOf(t, p, c) <==>
                             c == b && (p == PageAddress(a, s) || p in SlotsFrom(a, s, b, 1))
  {
    hide SmallRunAt, LargeOf, SlotOf, InRegion, BinElements, SlotsFrom, SlotAddress;
    FirstSlot(a, s, b);
    ListedSlots(a, s, b);
    forall k: nat ensures !LargeOf(t, p, k) {
      NoLargeInSmall(t, a, s, b, p, k);
    }
    forall c: nat ensures SlotOf(t, p, c) <==>
                          c == b && (p == PageAddress(a, s) || p in SlotsFrom(a, s, b, 1)) {
      RunSlots(t, a, s, b, p, c);
    }
  }

  lemma CarvedInside(t: Tables, a: Address, s: nat, b: nat)
    requires b < BINS && SmallRunAt(t, a, s, b) && 0 < BinElements(b)
    ensures forall p | p == PageAddress(a, s) || p in SlotsFrom(a, s, b, 1) ::
              InRegion(p, a, s, BinPages(b)) && SlotOf(t, p, b)
  {
    hide SmallRunAt, SlotOf, InRegion, BinElements, SlotsFrom, SlotAddress;
    FirstSlot(a, s, b);
    ListedSlots(a, s, b);
    forall k: nat | k < BinElements(b)
      ensures SlotOf(t, SlotAddress(a, s, b, k), b) && InRegion(SlotAddress(a, s, b, k), a, s, BinPages(b))
    {
      SlotIsSlot(t, a, s, b, k);
    }
  }

  /** Carving a run: its first slot is handed out, the others go on the list of the bin. */
  lemma Carve(t: Tables, a: Address, y: Table, s: nat, b: nat, free: Lists, huge: Ledger, live: Ledger)
    requires BlocksOk(t, free, huge, live) && a in t && TableOk(a, y)
    requires b < BINS && 0 < s < PAGES && Offset(a) == 0 && LargeOf(t, PageAddress(a, s), BinPages(b))
    requires |t[a].own| == |t[a].info| == PAGES && y.own == t[a].own
    requires forall i | 0 <= i < PAGES && !(s <= i < s + BinPages(b)) :: y.info[i] == t[a].info[i]
    requires IsSrun(y.info[s]) && SrunBin(y.info[s]) == b
    requires |free| == BINS && free[b] == []
    ensures 0 < BinElements(b)
    ensures BlocksOk(t[a := y], free[b := SlotsFrom(a, s, b, 1)], huge, live[PageAddress(a, s) := BinSize(b)])
  {
    hide SlotOf, BlockOf, BinPages, BinSize, BinElements, IsSrun, SrunBin, LrunPages, SlotAddress;
    BinFacts(b);
    var t', p0, n := t[a := y], PageAddress(a, s), BinPages(b);
    var free', live' := free[b := SlotsFrom(a, s, b, 1)], live[p0 := BinSize(b)];
    LocatePage(a, s);
    LargeEntry(t, p0, n);
    OwnedElsewhere(t[a].own, t[a].info, s, n);
    SmallRunIntro(t', a, s, b);
    FirstSlot(a, s, b);
    ListedSlots(a, s, b);
    forall p | InRegion(p, a, s, n)
      ensures p in live ==> p == p0
      ensures forall c | 0 <= c < BINS :: p !in free[c]
      ensures forall k: nat :: !LargeOf(t', p, k)
      ensures forall c: nat :: SlotOf(t', p, c) <==> c == b && (p == p0 || p in free'[b])
    {
      OnlyLarge(t, a, s, n, free, huge, live, p);
      CarvedPage(t', a, s, b, p);
    }
    CarvedInside(t', a, s, b);
    assert BlockOf(t', map[], p0, BinSize(b)) by { SlotBlock(t', p0, b); }
    CarvedRegion(t', a, s, n, b, free, free', live', p0);
    CarvedLedger(a, s, n, b, free, free', live, p0, BinSize(b));
    hide InRegion, TablesOk, ListsOk, NothingLost, LiveOk, SmallRunAt, TableOk, RegionOk, SameLedgers;
    Replace(t, a, y, s, n, free, free', huge, live, live');
  }

  /** A region whose only blocks are p0, which is live, and the slots of one list. */
  lemma CarvedRegion(t: Tables, a: Address, s: nat, n: nat, b: nat, free: Lists, free': Lists, live: Ledger, p0: Address)
    requires |free| == |free'| == BINS && b < BINS && p0 in live && BlockOf(t, map[], p0, live[p0])
    requires forall c | 0 <= c < BINS && c != b :: free'[c] == free[c]
    requires forall p | InRegion(p, a, s, n) && p in live :: p == p0
    requires forall p, c | InRegion(p, a, s, n) && 0 <= c < BINS :: p !in free[c]
    requires forall p, c: nat | InRegion(p, a, s, n) :: SlotOf(t, p, c) <==> c == b && (p == p0 || p in free'[b])
    requires forall p, k: nat | InRegion(p, a, s, n) :: !LargeOf(t, p, k)
    requires p0 !in free'[b]
    ensures RegionOk(t, a, s, n, free', live)
  {
    hide InRegion, SlotOf, LargeOf, BlockOf;
  }

  lemma CarvedLedger(a: Address, s: nat, n: nat, b: nat, free: Lists, free': Lists, live: Ledger, p0: Address, v: nat)
    requires |free| == |free'| == BINS && b < BINS && InRegion(p0, a, s, n) && free[b] == [] && Distinct(free'[b])
    requires forall c | 0 <= c < BINS && c != b :: free'[c] == free[c] && Distinct(free[c])
    requires forall p | p in free'[b] :: InRegion(p, a, s, n)
    ensures SameLedgers(a, s, n, free, free', live, live[p0 := v])
  {
    hide InRegion, Distinct;
  }

  /** zend_mm_free_small: the slot goes to the front of its bin's list. */
  lemma PushSlot(t: Tables, free: Lists, huge: Ledger, live: Ledger, p: Address, b: nat)
    requires BlocksOk(t, free, huge, live) && b < BINS && SlotOf(t, p, b) && p in live
    ensures BlocksOk(t, free[b := [p] + free[b]], huge, live - {p})
    ensures live[p] == BinSize(b)
  {
    hide OnGrid, TableOk, BinSize;
    SlotSize(t, huge, live, p, b);
    SlotNotHuge(t, p, b);
    hide SlotOf, LargeOf, BlockOf;
    assert p !in free[b];
    forall c: nat | SlotOf(t, p, c) ensures c == b { SlotIsUnique(t, p, b, c); }
    forall n: nat ensures !LargeOf(t, p, n) { NotBoth(t, p, b, n); }
    var free' := free[b := [p] + free[b]];
    assert forall q :: q in free'[b] <==> q == p || q in free[b];
  }

  lemma SlotNotHuge(t: Tables, p: Address, b: nat)
    requires TablesOk(t) && SlotOf(t, p, b)
    ensures Offset(p) != 0
  {
    var h: nat :| SlotIn(t, p, h, b);
    SlotEntry(t, p, h, b);
  }

  /** A live slot has the size of its bin. */
  lemma SlotSize(t: Tables, huge: Ledger, live: Ledger, p: Address, b: nat)
    requires TablesOk(t) && LiveOk(t, huge, live) && SlotOf(t, p, b) && p in live
    ensures b < BINS && live[p] == BinSize(b)
  {
    hide OnGrid, TablesOk, BinSize;
    SlotNotHuge(t, p, b);
    assert BlockOf(t, huge, p, live[p]);
    SlotBin(t, p, b);
    if c: nat :| SlotOf(t, p, c) && live[p] == BinSize(c) {
      SlotIsUnique(t, p, b, c);
    } else if m: nat :| LargeOf(t, p, m) {
      NotBoth(t, p, b, m);
    }
  }

  lemma LargeSize(t: Tables, huge: Ledger, live: Ledger, p: Address, n: nat)
    requires TablesOk(t) && LiveOk(t, huge, live) && LargeOf(t, p, n) && p in live
    ensures live[p] == n * 0x1000
  {
    LargeEntry(t, p, n);
    assert BlockOf(t, huge, p, live[p]);
    if c: nat :| SlotOf(t, p, c) {
      NotBoth(t, p, c, n);
    }
  }

  /** zend_mm_alloc_small: the first free slot of the bin is handed out. */
  lemma PopSlot(t: Tables, free: Lists, huge: Ledger, live: Ledger, b: nat)
    requires BlocksOk(t, free, huge, live) && b < BINS && free[b] != []
    ensures SlotOf(t, free[b][0], b) && free[b][0] !in live
    ensures BlocksOk(t, free[b := free[b][1..]], huge, live[free[b][0] := BinSize(b)])
  {
    hide SlotOf, LargeOf, TableOk, BinSize;
    var p, free' := free[b][0], free[b := free[b][1..]];
    assert p in free[b];
    RestMembers(free[b]);
    forall q, c | 0 <= c < BINS
      ensures q in free'[c] ==> q in free[c] && q != p
      ensures q in free[c] ==> q in free'[c] || q == p
    {
      if q in free'[c] && q == p && c != b {
        SlotIsUnique(t, p, b, c);
      }
    }
    forall q, c: nat | SlotOf(t, q, c) ensures c < BINS { SlotBin(t, q, c); }
  }

  // ---- huge blocks --------------------------------------------------------------------------------------

  lemma AddHuge(t: Tables, free: Lists, huge: Ledger, live: Ledger, p: Address, n: nat)
    requires BlocksOk(t, free, huge, live) && Offset(p) == 0 && p !in huge
    ensures p !in live && BlocksOk(t, free, huge[p := n], live[p := n])
  {
    hide TableOk, OnGrid, BinSize;
    AlignedNotInChunk(t, p);
    hide SlotOf, LargeOf;
  }

  /** An aligned address is the address of a chunk header, neither a slot nor a large run. */
  lemma AlignedNotInChunk(t: Tables, p: Address)
    requires TablesOk(t) && Offset(p) == 0
    ensures forall b: nat :: !SlotOf(t, p, b)
    ensures forall n: nat :: !LargeOf(t, p, n)
  {
    forall b: nat ensures !SlotOf(t, p, b) {
      if SlotOf(t, p, b) { SlotNotHuge(t, p, b); }
    }
    forall n: nat ensures !LargeOf(t, p, n) {
      if LargeOf(t, p, n) { LargeEntry(t, p, n); }
    }
  }

  lemma ResizeHuge(t: Tables, free: Lists, huge: Ledger, live: Ledger, p: Address, n: nat)
    requires BlocksOk(t, free, huge, live) && p in huge
    ensures p in live && live[p] == huge[p]
    ensures BlocksOk(t, free, huge[p := n], live[p := n])
  {
    hide TableOk, OnGrid, BinSize;
    AlignedNotInChunk(t, p);
    hide SlotOf, LargeOf;
    assert BlockOf(t, huge, p, live[p]);
  }

  lemma RemoveHuge(t: Tables, free: Lists, huge: Ledger, live: Ledger, p: Address)
    requires BlocksOk(t, free, huge, live) && p in huge
    ensures p in live && live[p] == huge[p]
    ensures BlocksOk(t, free, huge - {p}, live - {p})
  {
    hide TableOk, OnGrid, BinSize;
    AlignedNotInChunk(t, p);
    hide SlotOf, LargeOf;
    assert BlockOf(t, huge, p, live[p]);
  }

  // ---- chunks without runs ----------------------------------------------------------------------------

  ghost predicate Unused(x: Table) {
    |x.own| == |x.info| == PAGES && x.own[0] == 0 && forall i | 0 < i < PAGES :: x.own[i] < 0
  }

  /** An unused chunk may come, go, or have its stale entries replaced. */
  lemma UnusedChunks(t: Tables, t': Tables, free: Lists, huge: Ledger, live: Ledger)
    requires BlocksOk(t, free, huge, live) && TablesOk(t')
    requires forall a | a in t && !(a in t' && t'[a] == t[a]) :: Unused(t[a])
    requires forall a | a in t' && !(a in t && t'[a] == t[a]) :: Unused(t'[a])
    ensures BlocksOk(t', free, huge, live)
  {
    hide TableOk, OnGrid, BinSize, IsSrun, SrunBin, LrunPages;
    forall p, b: nat ensures SlotOf(t', p, b) <==> SlotOf(t, p, b) {
      forall h: nat ensures SlotIn(t', p, h, b) <==> SlotIn(t, p, h, b) {
      }
    }
    forall p, n: nat ensures LargeOf(t', p, n) <==> LargeOf(t, p, n) {
    }
    forall p, b: nat | SlotOf(t', p, b) ensures b < BINS { SlotBin(t', p, b); }
    hide SlotOf, LargeOf, Unused, TablesOk;
    forall p | p in live ensures BlockOf(t', huge, p, live[p]) {
      assert BlockOf(t, huge, p, live[p]);
    }
  }

}
