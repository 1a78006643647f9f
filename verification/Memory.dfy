// The bytes of the address space, and memcpy.
module Memory {
  import opened Addresses

  type Bytes = map<Address, nat>

  function ByteAt(m: Bytes, a: Address): nat {
    if a in m then m[a] else 0
  }

  /** The n bytes at p in m are the n bytes at q in m'. */
  ghost predicate SameBytes(m: Bytes, p: Address, m': Bytes, q: Address, n: nat) {
    forall a: Address | q <= a < q + n :: ByteAt(m', a) == ByteAt(m, p + (a - q))
  }

  /** Only the n bytes at dst may differ. */
  ghost predicate Elsewhere(m: Bytes, m': Bytes, dst: Address, n: nat) {
    forall a: Address | !(dst <= a < dst + n) :: ByteAt(m', a) == ByteAt(m, a)
  }

  lemma CopyOne(m0: Bytes, m: Bytes, dst: Address, src: Address, n: nat, i: nat)
    requires i < n && Elsewhere(m0, m, dst, i)
    ensures Elsewhere(m0, m[dst + i := ByteAt(m, src + i)], dst, i + 1)
    ensures Apart(dst, n, src, n) && SameBytes(m0, src, m, dst, i) ==>
              SameBytes(m0, src, m[dst + i := ByteAt(m, src + i)], dst, i + 1)
  {
    var m' := m[dst + i := ByteAt(m, src + i)];
    forall a: Address ensures ByteAt(m', a) == if a == dst + i then ByteAt(m, src + i) else ByteAt(m, a) {
    }
    assert ByteAt(m', dst + i) == ByteAt(m, src + i);
  }

  /** memcpy: the bytes arrive, and none but the n bytes at dst change. */
  method Copy(m0: Bytes, dst: Address, src: Address, n: nat) returns (m: Bytes)
    ensures Apart(dst, n, src, n) ==> SameBytes(m0, src, m, dst, n)
    ensures Elsewhere(m0, m, dst, n)
  {
    hide SameBytes, Elsewhere;
    m := m0;
    var i := 0;
    Unchanged(m0, dst, src);
    while i < n
      invariant i <= n && Elsewhere(m0, m, dst, i)
      invariant Apart(dst, n, src, n) ==> SameBytes(m0, src, m, dst, i)
    {
      CopyOne(m0, m, dst, src, n, i);
      m := m[dst + i := ByteAt(m, src + i)];
      i := i + 1;
    }
  }

  lemma Unchanged(m: Bytes, dst: Address, src: Address)
    ensures Elsewhere(m, m, dst, 0) && SameBytes(m, src, m, dst, 0)
  {
  }

  /** What lies apart from a copy's destination is as it was. */
  lemma ApartKept(m0: Bytes, m: Bytes, dst: Address, n: nat, p: Address, k: nat)
    requires Elsewhere(m0, m, dst, n) && Apart(dst, n, p, k)
    ensures SameBytes(m0, p, m, p, k)
  {
    hide ByteAt;
  }
}
