// zend_mm_chunk_alloc_int: an aligned region from a system that only promises page alignment.
module ChunkMap {
  import opened Addresses

  /** The pages that are mapped, by their numbers. */
  type PageSet = set<nat>

  const REAL_PAGE: nat := 4096

  /** The pages of the n bytes at p. */
  function PagesOf(p: Address, n: nat): PageSet {
    set i: nat | i < (p + n) / 0x1000 && !Before(i, p)
  }

  /** Page i lies before the page of p. */
  predicate Before(i: nat, p: Address) {
    i < p / 0x1000
  }

  predicate PageAligned(p: nat) {
    p % 0x1000 == 0
  }

  /** munmap: the range must be mapped. */
  function UnmapPages(mapped: PageSet, p: Address, n: nat): PageSet
    requires PageAligned(p) && PageAligned(n) && PagesOf(p, n) <= mapped
  {
    mapped - PagesOf(p, n)
  }

  /** What mmap may return for n bytes: nothing, or pages that are not mapped. */
  predicate MayMap(mapped: PageSet, p: Address, n: nat) {
    p == 0 || (PageAligned(p) && PagesOf(p, n) !! mapped)
  }

  function AlignedOffset(p: Address, alignment: nat): (o: nat)
    requires alignment > 0
    ensures o < alignment
  {
    p % alignment
  }

  lemma SplitPages(p: Address, n: nat, k: nat)
    requires PageAligned(p) && PageAligned(n) && PageAligned(k) && k <= n
    ensures PagesOf(p, n) == PagesOf(p, k) + PagesOf(p + k, n - k) && PagesOf(p, k) !! PagesOf(p + k, n - k)
  {
  }

  /** Rounding a page-aligned address up to the alignment moves it by whole pages. */
  lemma RoundedUp(p: Address, alignment: nat)
    requires alignment > 0 && AlignedOffset(p, alignment) != 0
    ensures AlignedOffset(p + (alignment - AlignedOffset(p, alignment)), alignment) == 0
  {
    var q := p / alignment;
    Division(p, alignment);
    assert p + (alignment - AlignedOffset(p, alignment)) == (q + 1) * alignment by { Distribute(q, alignment); }
    ModZero(q + 1, alignment);
  }

  lemma Division(p: nat, a: nat)
    requires a > 0
    ensures p == (p / a) * a + p % a
  {
  }

  lemma Distribute(q: nat, a: nat)
    ensures (q + 1) * a == q * a + a
  {
  }

  lemma OffsetPages(p: Address, alignment: nat)
    requires PageAligned(p) && PageAligned(alignment) && alignment > 0
    ensures PageAligned(AlignedOffset(p, alignment))
  {
    var k, q := alignment / 0x1000, p / alignment;
    Division(p, alignment);
    Multiple(q, k);
    PageSum(q * k, AlignedOffset(p, alignment), p);
  }

  lemma Multiple(q: nat, k: nat)
    ensures q * (k * 0x1000) == q * k * 0x1000
  {
  }

  lemma PageSum(m: nat, r: nat, p: nat)
    requires p == m * 0x1000 + r && PageAligned(p)
    ensures PageAligned(r)
  {
  }

  lemma ModZero(n: nat, a: nat)
    requires a > 0
    ensures (n * a) % a == 0
  {
    var q := n * a / a;
    Division(n * a, a);
    if q < n {
      Larger(q, n, a);
    } else if n < q {
      Larger(n, q, a);
    }
  }

  lemma {:induction false} Larger(x: nat, y: nat, a: nat)
    requires x < y
    ensures y * a >= x * a + a
    decreases y
  {
    Distribute(y - 1, a);
    if x < y - 1 {
      Larger(x, y - 1, a);
    }
  }

  /**
   * size bytes at an aligned address.  first and second are what mmap returns for size bytes and,
   * if that is not aligned, for size + alignment - page bytes.  The excess at both ends is unmapped
   * again: exactly the pages of the result are newly mapped.
   */
  method ChunkAllocInt(mapped0: PageSet, size: nat, alignment: nat, first: Address, second: Address)
      returns (mapped: PageSet, ptr: Address)
    requires PageAligned(size) && size > 0 && alignment > 0 && PageAligned(alignment)
    requires MayMap(mapped0, first, size)
    requires first != 0 && AlignedOffset(first, alignment) != 0 ==>
               second != 0 && MayMap(mapped0, second, size + alignment - 0x1000)
    ensures first == 0 ==> ptr == 0 && mapped == mapped0
    ensures first != 0 ==>
              && ptr != 0 && AlignedOffset(ptr, alignment) == 0
              && PagesOf(ptr, size) !! mapped0 && mapped == mapped0 + PagesOf(ptr, size)
  {
    hide PagesOf, AlignedOffset;
    mapped, ptr := mapped0, first;
    if ptr == 0 {
      return;
    }
    mapped := mapped + PagesOf(ptr, size);
    if AlignedOffset(ptr, alignment) == 0 {
      return;
    }
    mapped := UnmapPages(mapped, ptr, size);
    ptr := second;
    var total, rest := size + alignment - REAL_PAGE, alignment;
    mapped := mapped + PagesOf(ptr, total);
    var offset := AlignedOffset(ptr, alignment);
    if offset != 0 {
      RoundedUp(ptr, alignment);
      OffsetPages(ptr, alignment);
      offset := alignment - offset;
      SplitPages(ptr, total, offset);
      mapped := UnmapPages(mapped, ptr, offset);
      ptr := ptr + offset;
      rest := alignment - offset;
    }
    SplitPages(ptr, size + rest - REAL_PAGE, size);
    if rest > REAL_PAGE {
      mapped := UnmapPages(mapped, ptr + size, rest - REAL_PAGE);
    } else {
      NoPages(ptr + size);
    }
  }

  lemma NoPages(p: Address)
    ensures PagesOf(p, 0) == {}
  {
  }
}
