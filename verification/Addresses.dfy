// Pointer arithmetic: chunks are aligned to their size, so masking an address gives its chunk.
module Addresses {
  import opened Sizes

  type Address = nat

  /** Blocks or regions with their sizes. */
  type Ledger = map<Address, nat>

  ghost predicate Distinct(q: seq<Address>) {
    forall i, j | 0 <= i < j < |q| :: q[i] != q[j]
  }

  lemma RestMembers(q: seq<Address>)
    requires q != [] && Distinct(q)
    ensures Distinct(q[1..]) && forall p :: p in q[1..] <==> p in q && p != q[0]
  {
  }

  /** The n bytes at p and the m bytes at q do not overlap. */
  predicate Apart(p: Address, n: nat, q: Address, m: nat) {
    p + n <= q || q + m <= p
  }

  /** ZEND_MM_ALIGNED_OFFSET and ZEND_MM_ALIGNED_BASE for the chunk size. */
  function Offset(p: Address): (o: nat)
    ensures o < CHUNK
  {
    p % 0x20_0000
  }

  function Base(p: Address): Address {
    p - p % 0x20_0000
  }

  function PageNum(p: Address): (i: nat)
    ensures i < PAGES
  {
    Offset(p) / 0x1000
  }

  /** ZEND_MM_PAGE_ADDR */
  function PageAddress(a: Address, s: nat): Address {
    a + s * 0x1000
  }

  function SlotOffset(b: nat, k: nat): nat
    requires b < BINS
  {
    k * BinSize(b)
  }

  /** Slot k of the run of bin b that begins at page s of chunk a. */
  function SlotAddress(a: Address, s: nat, b: nat, k: nat): Address
    requires b < BINS
  {
    PageAddress(a, s) + SlotOffset(b, k)
  }

  lemma Locate(a: Address, o: nat)
    requires Offset(a) == 0 && o < CHUNK
    ensures Base(a + o) == a && Offset(a + o) == o && PageNum(a + o) == o / 0x1000
  {
  }

  lemma LocatePage(a: Address, s: nat)
    requires Offset(a) == 0 && s < PAGES
    ensures Base(PageAddress(a, s)) == a && PageNum(PageAddress(a, s)) == s
    ensures Offset(PageAddress(a, s)) == s * 0x1000
  {
    Locate(a, s * 0x1000);
  }

  lemma Recompose(p: Address)
    ensures p == Base(p) + Offset(p) && Offset(Base(p)) == 0
    ensures PageNum(p) * 0x1000 <= Offset(p) < PageNum(p) * 0x1000 + 0x1000
  {
  }

  lemma {:induction false} SlotsApart(b: nat, j: nat, k: nat)
    requires b < BINS && j < k
    ensures SlotOffset(b, j) + BinSize(b) <= SlotOffset(b, k)
    decreases k
  {
    assert SlotOffset(b, k) == SlotOffset(b, k - 1) + BinSize(b) by { SlotNext(b, k - 1); }
    if j < k - 1 {
      SlotsApart(b, j, k - 1);
    }
  }

  lemma SlotNext(b: nat, k: nat)
    requires b < BINS
    ensures SlotOffset(b, k + 1) == SlotOffset(b, k) + BinSize(b)
    ensures SlotOffset(b, 0) == 0
  {
    hide BinSize;
  }

  /** A slot ends inside the pages of its run. */
  lemma SlotEnds(b: nat, k: nat)
    requires b < BINS && k < BinElements(b)
    ensures SlotOffset(b, k) + BinSize(b) <= BinPages(b) * 0x1000
  {
    hide BinSize, BinElements, BinPages;
    BinFits(b);
    if k + 1 < BinElements(b) {
      SlotsApart(b, k, BinElements(b) - 1);
    }
    SlotNext(b, BinElements(b) - 1);
  }

  /** A slot lies in one of the pages of its run. */
  lemma LocateSlot(a: Address, s: nat, b: nat, k: nat)
    requires b < BINS && k < BinElements(b) && Offset(a) == 0 && s + BinPages(b) <= PAGES
    ensures var p := SlotAddress(a, s, b, k);
            && Base(p) == a && Offset(p) == s * 0x1000 + SlotOffset(b, k)
            && s <= PageNum(p) < s + BinPages(b)
  {
    hide BinSize, BinElements, BinPages;
    SlotEnds(b, k);
    BinFacts(b);
    Locate(a, s * 0x1000 + SlotOffset(b, k));
    hide SlotOffset;
  }

}
