// The memory that the operating system has mapped for the heap, and the sums that the heap keeps.
module Regions {
  import opened Sizes
  import opened Addresses
  import opened Ring

  // ---- sums -------------------------------------------------------------------------------------------

  /** The sum of the sizes in a ledger. */
  ghost function Sum(m: Ledger): nat {
    if m == map[] then 0 else var p :| p in m; m[p] + Sum(m - {p})
  }

  lemma {:induction false} SumWithout(m: Ledger, p: Address)
    requires p in m
    ensures Sum(m) == m[p] + Sum(m - {p})
    decreases |m|
  {
    var q :| q in m && Sum(m) == m[q] + Sum(m - {q});
    if p != q {
      SumWithout(m - {q}, p);
      SumWithout(m - {p}, q);
      assert m - {p} - {q} == m - {q} - {p};
    }
  }

  lemma SumAdd(m: Ledger, p: Address, n: nat)
    requires p !in m
    ensures Sum(m[p := n]) == Sum(m) + n
  {
    SumWithout(m[p := n], p);
    assert m[p := n] - {p} == m;
  }

  lemma SumChange(m: Ledger, p: Address, n: nat)
    requires p in m
    ensures Sum(m[p := n]) == Sum(m) - m[p] + n
  {
    SumWithout(m, p);
    SumWithout(m[p := n], p);
    assert m[p := n] - {p} == m - {p};
  }

  // ---- mapped regions -------------------------------------------------------------------------------

  /** A region that mmap may return: aligned to the chunk size and away from everything mapped. */
  predicate Fresh(mapped: Ledger, p: Address, n: nat) {
    p > 0 && n > 0 && Offset(p) == 0 && forall q | q in mapped :: Apart(p, n, q, mapped[q])
  }

  ghost predicate RegionsApart(mapped: Ledger) {
    && (forall p | p in mapped :: p > 0 && mapped[p] > 0 && Offset(p) == 0)
    && forall p, q | p in mapped && q in mapped && p != q :: Apart(p, mapped[p], q, mapped[q])
  }

  /** The mapped regions are exactly the chunks, the huge blocks and what an aborted request left. */
  ghost predicate RegionsExact(mapped: Ledger, chunks: set<Address>, huge: Ledger, leaked: Ledger) {
    && RegionsApart(mapped)
    && (forall p :: p in mapped <==> p in chunks || p in huge || p in leaked)
    && (forall p | p in chunks :: mapped[p] == CHUNK && p !in huge && p !in leaked)
    && (forall p | p in huge :: mapped[p] == huge[p] && p !in leaked)
    && (forall p | p in leaked :: mapped[p] == leaked[p])
  }

  lemma FreshIsNew(mapped: Ledger, p: Address, n: nat)
    requires RegionsApart(mapped) && Fresh(mapped, p, n)
    ensures p !in mapped
  {
    assert p in mapped ==> Apart(p, n, p, mapped[p]);
  }

  lemma MapChunk(mapped: Ledger, chunks: set<Address>, huge: Ledger, leaked: Ledger, a: Address)
    requires RegionsExact(mapped, chunks, huge, leaked) && Fresh(mapped, a, CHUNK)
    ensures a !in chunks && a !in huge && a !in leaked
    ensures RegionsExact(mapped[a := CHUNK], chunks + {a}, huge, leaked)
  {
    FreshIsNew(mapped, a, CHUNK);
  }

  lemma UnmapChunk(mapped: Ledger, chunks: set<Address>, huge: Ledger, leaked: Ledger, a: Address)
    requires RegionsExact(mapped, chunks, huge, leaked) && a in chunks
    ensures RegionsExact(mapped - {a}, chunks - {a}, huge, leaked)
  {
  }

  /** A huge region is mapped before its list node exists. */
  lemma MapHuge(mapped: Ledger, chunks: set<Address>, huge: Ledger, leaked: Ledger, p: Address, n: nat)
    requires RegionsExact(mapped, chunks, huge, leaked) && Fresh(mapped, p, n)
    ensures p !in chunks && p !in huge && p !in leaked
    ensures RegionsExact(mapped[p := n], chunks, huge, leaked[p := n])
  {
    FreshIsNew(mapped, p, n);
  }

  lemma OwnHuge(mapped: Ledger, chunks: set<Address>, huge: Ledger, leaked: Ledger, p: Address)
    requires RegionsExact(mapped, chunks, huge, leaked) && p in leaked
    ensures p !in huge && RegionsExact(mapped, chunks, huge[p := leaked[p]], leaked - {p})
  {
  }

  lemma UnmapHuge(mapped: Ledger, chunks: set<Address>, huge: Ledger, leaked: Ledger, p: Address)
    requires RegionsExact(mapped, chunks, huge, leaked) && p in huge
    ensures RegionsExact(mapped - {p}, chunks, huge - {p}, leaked)
  {
  }

  /** Shrinking a region, or growing it into unmapped space. */
  lemma ResizeRegion(mapped: Ledger, chunks: set<Address>, huge: Ledger, leaked: Ledger, p: Address, n: nat)
    requires RegionsExact(mapped, chunks, huge, leaked) && p in huge && n > 0
    requires forall q | q in mapped && q != p :: Apart(p, n, q, mapped[q])
    ensures RegionsExact(mapped[p := n], chunks, huge[p := n], leaked)
  {
  }

  // ---- where chunks are ---------------------------------------------------------------------------------

  /** Every chunk is in the ring or in the cache, once. */
  ghost predicate Places(ring: seq<Address>, cached: seq<Address>, chunks: set<Address>) {
    && Distinct(ring) && Distinct(cached)
    && (forall a | a in ring :: a in chunks && a !in cached)
    && (forall a | a in cached :: a in chunks)
    && (forall a | a in chunks :: a in ring || a in cached)
  }

  lemma PlaceLast(ring: seq<Address>, cached: seq<Address>, chunks: set<Address>, a: Address)
    requires Places(ring, cached, chunks) && a !in chunks
    ensures a !in ring && Places(ring + [a], cached, chunks + {a})
  {
  }

  lemma PlaceCached(ring: seq<Address>, cached: seq<Address>, chunks: set<Address>)
    requires Places(ring, cached, chunks) && cached != []
    ensures cached[0] in chunks && cached[0] !in ring && Places(ring + [cached[0]], cached[1..], chunks)
  {
  }

  lemma PlaceMoved(ring: seq<Address>, ring': seq<Address>, cached: seq<Address>, chunks: set<Address>)
    requires Places(ring, cached, chunks) && Distinct(ring') && multiset(ring') == multiset(ring)
    ensures Places(ring', cached, chunks) && |ring'| == |ring|
  {
    forall a ensures a in ring' <==> a in ring {
      assert a in multiset(ring') <==> a in multiset(ring);
    }
    assert |multiset(ring')| == |multiset(ring)|;
  }

  /** Out of the ring, into the cache. */
  lemma PlaceToCache(ring: seq<Address>, cached: seq<Address>, chunks: set<Address>, k: nat)
    requires Places(ring, cached, chunks) && k < |ring|
    ensures Places(Without(ring, k), [ring[k]] + cached, chunks)
  {
    WithoutMembers(ring, k);
    DistinctFront(ring[k], cached);
  }

  lemma DistinctFront(a: Address, q: seq<Address>)
    requires Distinct(q) && a !in q
    ensures Distinct([a] + q)
  {
  }

  /** Out of the ring, back to the system. */
  lemma PlaceNowhere(ring: seq<Address>, cached: seq<Address>, chunks: set<Address>, k: nat)
    requires Places(ring, cached, chunks) && k < |ring|
    ensures Places(Without(ring, k), cached, chunks - {ring[k]})
  {
    WithoutMembers(ring, k);
  }

  /** Out of the ring, into the cache in place of its first chunk. */
  lemma PlaceSwap(ring: seq<Address>, cached: seq<Address>, chunks: set<Address>, k: nat)
    requires Places(ring, cached, chunks) && k < |ring| && cached != []
    ensures Places(Without(ring, k), [ring[k]] + cached[1..], chunks - {cached[0]})
  {
    WithoutMembers(ring, k);
    RestMembers(cached);
    DistinctFront(ring[k], cached[1..]);
  }

  lemma WithoutMembers(ring: seq<Address>, k: nat)
    requires Distinct(ring) && k < |ring|
    ensures Distinct(Without(ring, k))
    ensures forall a :: a in Without(ring, k) <==> a in ring && a != ring[k]
  {
    var r := Without(ring, k);
    forall a | a in ring && a != ring[k] ensures a in r {
      var i :| 0 <= i < |ring| && ring[i] == a;
      assert r[if i < k then i else i - 1] == a;
    }
  }
}
