// Finding the kind of a block from its address, and the list of huge blocks.
module HeapHuge {
  import opened Sizes
  import opened PageInfo
  import opened Addresses
  import opened Blocks
  import opened BlockSteps
  import opened GcCount
  import opened Regions
  import opened HeapInv
  import opened HeapChunks
  import opened HeapPages
  import opened HeapBlocks
  import opened HeapSlots

  // ---- blocks inside chunks ---------------------------------------------------------------------------

  /** Alignment and the map entry of its page tell what a live block is. */
  lemma Decode(s: State, p: Address)
    requires CoreOk(s) && p in s.live && Offset(p) != 0
    ensures Base(p) in s.chunks && Base(p) in T(s) && |s.chunks[Base(p)].info| == PAGES && Offset(Base(p)) == 0
    ensures var x := s.chunks[Base(p)].info[PageNum(p)];
            if IsSrun(x) then
              SrunBin(x) < BINS && SlotOf(T(s), p, SrunBin(x)) && s.live[p] == BinSize(SrunBin(x))
            else
              && LargeOf(T(s), p, LrunPages(x)) && s.live[p] == LrunPages(x) * 0x1000
              && 0 < PageNum(p) && p == PageAddress(Base(p), PageNum(p)) && 0 < LrunPages(x)
  {
    hide RegionsExact, RealSizeOk, ListsOk, NothingLost, CountersZero, SpaceOk, TablesOk;
    DecodeBlock(T(s), s.huge, s.live, p);
    LayoutFacts(s);
    Recompose(p);
  }

  lemma DecodeBlock(t: Tables, huge: Ledger, live: Ledger, p: Address)
    requires TablesOk(t) && LiveOk(t, huge, live) && p in live && Offset(p) != 0
    ensures Base(p) in t && |t[Base(p)].info| == PAGES
    ensures var x := t[Base(p)].info[PageNum(p)];
            if IsSrun(x) then
              SrunBin(x) < BINS && SlotOf(t, p, SrunBin(x)) && live[p] == BinSize(SrunBin(x))
            else
              && LargeOf(t, p, LrunPages(x)) && live[p] == LrunPages(x) * 0x1000
              && 0 < PageNum(p) && p == PageAddress(Base(p), PageNum(p)) && 0 < LrunPages(x)
  {
    hide OnGrid, TablesOk, BinSize;
    assert BlockOf(t, huge, p, live[p]);
    if b: nat :| SlotOf(t, p, b) && live[p] == BinSize(b) {
      var h: nat :| SlotIn(t, p, h, b);
      SlotEntry(t, p, h, b);
    } else {
      var m: nat :| LargeOf(t, p, m) && live[p] == m * 0x1000;
      LargeEntry(t, p, m);
    }
  }

  /** Giving p back would leave the main chunk without runs. */
  predicate EmptiesMain(s: State, p: Address) {
    && Base(p) == s.main && Offset(p) != 0 && s.main in s.chunks && PageNum(p) < |s.chunks[s.main].info|
    && var x := s.chunks[s.main].info[PageNum(p)];
       !IsSrun(x) && s.chunks[s.main].freePages + LrunPages(x) == PAGES - 1
  }

  /** zend_mm_free_heap for a block inside a chunk: right unless it empties the main chunk. */
  method FreeInChunk(h0: Heap, p: Address) returns (h: Heap)
    requires Sound(h0) && p in h0.core.live && Offset(p) != 0
    ensures if EmptiesMain(h0.core, p) then Ruined(h) else Gave(h0, h, p)
  {
    hide LayoutOk, CoreOk, LargeOf, SlotOf, Gave, TablesOf, Ruined;
    Decode(h0.core, p);
    var chunk, page := Base(p), PageNum(p);
    var info := h0.core.chunks[chunk].info[page];
    if IsSrun(info) {
      h := FreeSmall(h0, p, SrunBin(info));
    } else {
      h := FreeLarge(h0, chunk, page, LrunPages(info));
    }
  }

  // ---- the state while a huge block comes and goes ----------------------------------------------------

  /** A huge region has been mapped; nothing describes it yet. */
  function MappedHuge(s: State, p: Address, n: nat): State {
    s.(mapped := s.mapped[p := n], leaked := s.leaked[p := n])
  }

  lemma CoreMap(s: State, p: Address, n: nat)
    requires CoreOk(s) && Fresh(s.mapped, p, n)
    ensures CoreOk(MappedHuge(s, p, n)) && p !in s.huge && p !in s.leaked && Offset(p) == 0
    ensures T(MappedHuge(s, p, n)) == T(s)
  {
    hide SpaceOk, RealSizeOk, RegionsExact, BlocksOk, CountersZero;
    MapHuge(s.mapped, s.chunks.Keys, s.huge, s.leaked, p, n);
  }

  /** The region becomes a live huge block. */
  function OwnedHuge(s: State, p: Address): State
    requires p in s.leaked
  {
    var n := s.leaked[p];
    s.(leaked := s.leaked - {p}, huge := s.huge[p := n], live := s.live[p := n], realSize := s.realSize + n)
  }

  lemma CoreOwn(s: State, p: Address)
    requires CoreOk(s) && p in s.leaked && Offset(p) == 0
    ensures CoreOk(OwnedHuge(s, p)) && p !in s.live && p !in s.huge
  {
    hide SpaceOk, RegionsExact, BlocksOk, CountersZero;
    OwnHuge(s.mapped, s.chunks.Keys, s.huge, s.leaked, p);
    SumAdd(s.huge, p, s.leaked[p]);
    AddHuge(T(s), s.free, s.huge, s.live, p, s.leaked[p]);
  }

  /** A huge block goes back to the system. */
  function DisownedHuge(s: State, p: Address): State
    requires p in s.huge
  {
    s.(mapped := s.mapped - {p}, huge := s.huge - {p}, live := s.live - {p}, realSize := s.realSize - s.huge[p])
  }

  lemma CoreDisown(s: State, p: Address)
    requires CoreOk(s) && p in s.huge
    ensures CoreOk(DisownedHuge(s, p)) && p in s.live && s.live[p] == s.huge[p]
  {
    hide SpaceOk, RegionsExact, BlocksOk, CountersZero;
    UnmapHuge(s.mapped, s.chunks.Keys, s.huge, s.leaked, p);
    SumWithout(s.huge, p);
    RemoveHuge(T(s), s.free, s.huge, s.live, p);
  }

  /** A huge block shrinks, or grows into unmapped space. */
  function ResizedHuge(s: State, p: Address, n: nat): State
    requires p in s.huge
  {
    s.(mapped := s.mapped[p := n], huge := s.huge[p := n], live := s.live[p := n], realSize := s.realSize - s.huge[p] + n)
  }

  lemma CoreResizeHuge(s: State, p: Address, n: nat)
    requires CoreOk(s) && p in s.huge && n > 0
    requires forall q | q in s.mapped && q != p :: Apart(p, n, q, s.mapped[q])
    ensures CoreOk(ResizedHuge(s, p, n)) && p in s.live && s.live[p] == s.huge[p]
  {
    hide SpaceOk, RegionsExact, BlocksOk, CountersZero;
    ResizeRegion(s.mapped, s.chunks.Keys, s.huge, s.leaked, p, n);
    SumChange(s.huge, p, n);
    BlockSteps.ResizeHuge(T(s), s.free, s.huge, s.live, p, n);
  }

  // ---- the list ---------------------------------------------------------------------------------------

  /** The place of a huge block in the list; |list| when it is not there. */
  method FindHuge(list: seq<HugeBlock>, p: Address) returns (k: nat)
    ensures k <= |list| && (k < |list| ==> list[k].ptr == p)
    ensures forall i | 0 <= i < k :: list[i].ptr != p
  {
    k := 0;
    while k < |list|
      invariant k <= |list| && forall i | 0 <= i < k :: list[i].ptr != p
    {
      if list[k].ptr == p {
        return;
      }
      k := k + 1;
    }
  }

  lemma HugeListed(list: seq<HugeBlock>, huge: Ledger, live: Ledger, p: Address, k: nat)
    requires HugeOk(list, huge, live) && p in huge && k <= |list|
    requires k < |list| ==> list[k].ptr == p
    requires forall i | 0 <= i < k :: list[i].ptr != p
    ensures k < |list| && list[k].size == huge[p] && list[k].node in live && live[list[k].node] == NODE_SIZE
    ensures Offset(list[k].node) != 0 && IsNode(list, list[k].node)
  {
  }

  function Push(list: seq<HugeBlock>, x: HugeBlock): (r: seq<HugeBlock>)
    ensures |r| == |list| + 1 && r[0] == x && forall i | 0 < i < |r| :: r[i] == list[i - 1]
  {
    [x] + list
  }

  lemma PushListed(list: seq<HugeBlock>, x: HugeBlock, q: Address)
    ensures Listed(Push(list, x), q) <==> q == x.ptr || Listed(list, q)
  {
    var r := Push(list, x);
    if Listed(list, q) {
      var i :| 0 <= i < |list| && list[i].ptr == q;
      assert r[i + 1].ptr == q;
    }
    if q == x.ptr {
      assert r[0].ptr == q;
    }
  }

  lemma HugePush(list: seq<HugeBlock>, huge: Ledger, live: Ledger, x: HugeBlock)
    requires HugeOk(list, huge, live) && x.ptr !in huge && x.node !in live
    requires Offset(x.node) != 0 && Offset(x.ptr) == 0
    ensures HugeOk(Push(list, x), huge[x.ptr := x.size], live[x.node := NODE_SIZE][x.ptr := x.size])
  {
    hide Listed, Push, Offset;
    assert EntriesDiffer(Push(list, x)) by { hide ListExact; assert NodesLive(list, live); UnlistedPtr(list, huge, x); }
    forall q | q in huge[x.ptr := x.size] ensures Listed(Push(list, x), q) {
      PushListed(list, x, q);
    }
    hide ListExact;
    assert NodesLive(Push(list, x), live[x.node := NODE_SIZE][x.ptr := x.size]);
  }

  lemma UnlistedPtr(list: seq<HugeBlock>, huge: Ledger, x: HugeBlock)
    requires ListExact(list, huge) && x.ptr !in huge
    ensures forall i | 0 <= i < |list| :: list[i].ptr != x.ptr
  {
  }

  function Cut(list: seq<HugeBlock>, k: nat): (r: seq<HugeBlock>)
    requires k < |list|
    ensures |r| == |list| - 1
    ensures forall i | 0 <= i < |r| :: r[i] == if i < k then list[i] else list[i + 1]
  {
    list[..k] + list[k + 1..]
  }

  lemma CutListed(list: seq<HugeBlock>, k: nat, q: Address)
    requires k < |list| && EntriesDiffer(list)
    ensures Listed(Cut(list, k), q) <==> q != list[k].ptr && Listed(list, q)
  {
    var r := Cut(list, k);
    if q != list[k].ptr && Listed(list, q) {
      var i :| 0 <= i < |list| && list[i].ptr == q;
      assert r[if i < k then i else i - 1].ptr == q;
    }
  }

  /** The entries that remain are different from the one that was cut. */
  lemma CutEntries(list: seq<HugeBlock>, k: nat, i: nat)
    requires EntriesDiffer(list) && k < |list| && i < |list| - 1
    ensures exists j :: 0 <= j < |list| && Cut(list, k)[i] == list[j] && list[j].ptr != list[k].ptr && list[j].node != list[k].node
  {
    var j := if i < k then i else i + 1;
    assert Cut(list, k)[i] == list[j] && list[j].ptr != list[k].ptr && list[j].node != list[k].node;
  }

  lemma HugeCut(list: seq<HugeBlock>, huge: Ledger, live: Ledger, k: nat)
    requires HugeOk(list, huge, live) && k < |list| && Offset(list[k].ptr) == 0
    ensures HugeOk(Cut(list, k), huge - {list[k].ptr}, live - {list[k].node} - {list[k].ptr})
  {
    assert EntriesDiffer(Cut(list, k));
    hide Listed, Cut, Offset;
    forall q | q in huge - {list[k].ptr} ensures Listed(Cut(list, k), q) {
      CutListed(list, k, q);
    }
    var list' := Cut(list, k);
    forall i | 0 <= i < |list'|
      ensures list'[i].ptr in huge - {list[k].ptr} && huge[list'[i].ptr] == list'[i].size
      ensures list'[i].node in live - {list[k].node} - {list[k].ptr} && live[list'[i].node] == NODE_SIZE
      ensures Offset(list'[i].node) != 0
    {
      CutEntries(list, k, i);
      var j :| 0 <= j < |list| && list'[i] == list[j] && list[j].ptr != list[k].ptr && list[j].node != list[k].node;
      assert Offset(list[j].node) != 0;
    }
  }

  function Retag(list: seq<HugeBlock>, k: nat, n: nat): (r: seq<HugeBlock>)
    requires k < |list|
    ensures |r| == |list| && forall i | 0 <= i < |r| :: r[i] == if i == k then list[k].(size := n) else list[i]
  {
    list[k := list[k].(size := n)]
  }

  lemma RetagListed(list: seq<HugeBlock>, k: nat, n: nat, q: Address)
    requires k < |list|
    ensures Listed(Retag(list, k, n), q) <==> Listed(list, q)
  {
    var r := Retag(list, k, n);
    if Listed(list, q) {
      var i :| 0 <= i < |list| && list[i].ptr == q;
      assert r[i].ptr == q;
    }
  }

  lemma HugeRetag(list: seq<HugeBlock>, huge: Ledger, live: Ledger, k: nat, n: nat)
    requires HugeOk(list, huge, live) && k < |list| && Offset(list[k].ptr) == 0
    ensures HugeOk(Retag(list, k, n), huge[list[k].ptr := n], live[list[k].ptr := n])
  {
    hide Listed, Retag, Offset;
    forall q | q in huge[list[k].ptr := n] ensures Listed(Retag(list, k, n), q) {
      RetagListed(list, k, n, q);
    }
  }

  /** Blocks other than nodes may come and go. */
  lemma HugeFrame(list: seq<HugeBlock>, huge: Ledger, live: Ledger, live': Ledger)
    requires HugeOk(list, huge, live)
    requires forall p | p in live && IsNode(list, p) :: p in live' && live'[p] == live[p]
    ensures HugeOk(list, huge, live')
  {
    hide EntriesDiffer, ListExact;
    forall i | 0 <= i < |list| ensures list[i].node in live' && live'[list[i].node] == NODE_SIZE {
      assert IsNode(list, list[i].node);
    }
  }
}
