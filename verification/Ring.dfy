// The circular doubly linked list of chunks.  Chunks are known by their addresses; next and prev
// are the link fields in their headers, and a ghost sequence lists the ring from the main chunk.
module Ring {
  import opened Addresses

  datatype Links = Links(next: map<Address, Address>, prev: map<Address, Address>)

  ghost predicate Joined(l: Links, x: Address, y: Address) {
    x in l.next && l.next[x] == y && y in l.prev && l.prev[y] == x
  }

  /** Element i of the ring, which closes at its length. */
  ghost function Nth(ring: seq<Address>, i: nat): Address
    requires i <= |ring| && |ring| > 0
  {
    if i == |ring| then ring[0] else ring[i]
  }

  /** The links describe the ring, forwards and backwards. */
  ghost predicate RingOk(l: Links, ring: seq<Address>) {
    && |ring| > 0 && Distinct(ring)
    && forall i | 0 <= i < |ring| :: Joined(l, ring[i], Nth(ring, i + 1))
  }

  /** c between x and y. */
  function Insert(l: Links, x: Address, y: Address, c: Address): Links {
    Links(l.next[c := y][x := c], l.prev[c := x][y := c])
  }

  function With(ring: seq<Address>, k: nat, c: Address): (r: seq<Address>)
    requires k <= |ring|
    ensures |r| == |ring| + 1 && r[k] == c
    ensures forall i | 0 <= i < |r| && i != k :: r[i] == if i < k then ring[i] else ring[i - 1]
  {
    ring[..k] + [c] + ring[k..]
  }

  function Without(ring: seq<Address>, k: nat): (r: seq<Address>)
    requires k < |ring|
    ensures |r| == |ring| - 1
    ensures forall i | 0 <= i < |r| :: r[i] == if i < k then ring[i] else ring[i + 1]
  {
    ring[..k] + ring[k + 1..]
  }

  lemma InsertJoined(l: Links, ring: seq<Address>, k: nat, c: Address, i: nat)
    requires RingOk(l, ring) && c !in ring && 0 < k <= |ring| && i <= |ring|
    ensures var ring' := With(ring, k, c);
            Joined(Insert(l, ring[k - 1], Nth(ring, k), c), ring'[i], Nth(ring', i + 1))
  {
    var ring' := With(ring, k, c);
    if i < k - 1 {
      assert ring'[i] == ring[i] && Nth(ring', i + 1) == ring[i + 1];
      assert Joined(l, ring[i], Nth(ring, i + 1));
      assert Nth(ring, k) != ring[i + 1];
    } else if k < i {
      assert ring'[i] == ring[i - 1] && Nth(ring', i + 1) == Nth(ring, i);
      assert Joined(l, ring[i - 1], Nth(ring, i));
      assert Nth(ring, k) != Nth(ring, i);
    }
  }

  lemma InsertOk(l: Links, ring: seq<Address>, k: nat, c: Address)
    requires RingOk(l, ring) && c !in ring && 0 < k <= |ring|
    ensures RingOk(Insert(l, ring[k - 1], Nth(ring, k), c), With(ring, k, c))
  {
    var l', ring' := Insert(l, ring[k - 1], Nth(ring, k), c), With(ring, k, c);
    forall i | 0 <= i < |ring'| ensures Joined(l', ring'[i], Nth(ring', i + 1)) {
      InsertJoined(l, ring, k, c, i);
    }
  }

  // ---- linking in before the main chunk (zend_mm_chunk_init) -------------------------------------

  function LinkLast(l: Links, main: Address, c: Address): Links
    requires main in l.prev
  {
    var next := l.next[c := main];
    var prev := l.prev[c := l.prev[main]];
    Links(next[prev[c] := c], prev[next[c] := c])
  }

  lemma LinkLastOk(l: Links, ring: seq<Address>, c: Address)
    requires RingOk(l, ring) && c !in ring
    ensures |ring| > 0 && ring[0] in l.prev && RingOk(LinkLast(l, ring[0], c), ring + [c])
  {
    var n := |ring|;
    assert Joined(l, ring[n - 1], Nth(ring, n));
    InsertOk(l, ring, n, c);
    assert With(ring, n, c) == ring + [c];
  }

  // ---- taking a chunk out (zend_mm_delete_chunk) ---------------------------------------------------

  function Unlink(l: Links, c: Address): Links
    requires c in l.next && c in l.prev
  {
    Links(l.next[l.prev[c] := l.next[c]], l.prev[l.next[c] := l.prev[c]])
  }

  lemma UnlinkJoined(l: Links, ring: seq<Address>, k: nat, i: nat)
    requires RingOk(l, ring) && 0 < k < |ring| && i < |ring| - 1
    requires ring[k] in l.next && ring[k] in l.prev
    requires l.prev[ring[k]] == ring[k - 1] && l.next[ring[k]] == Nth(ring, k + 1)
    ensures var ring' := Without(ring, k);
            Joined(Unlink(l, ring[k]), ring'[i], Nth(ring', i + 1))
  {
    var ring' := Without(ring, k);
    if i < k - 1 {
      assert ring'[i] == ring[i] && Nth(ring', i + 1) == ring[i + 1];
      assert Joined(l, ring[i], Nth(ring, i + 1));
    } else if k <= i {
      assert ring'[i] == ring[i + 1] && Nth(ring', i + 1) == Nth(ring, i + 2);
      assert Joined(l, ring[i + 1], Nth(ring, i + 2));
      assert Nth(ring, k + 1) != Nth(ring, i + 2);
    }
  }

  lemma UnlinkOk(l: Links, ring: seq<Address>, k: nat)
    requires RingOk(l, ring) && 0 < k < |ring|
    ensures ring[k] in l.next && ring[k] in l.prev
    ensures RingOk(Unlink(l, ring[k]), Without(ring, k)) && ring[k] !in Without(ring, k)
  {
    assert Joined(l, ring[k - 1], Nth(ring, k)) && Joined(l, ring[k], Nth(ring, k + 1));
    var l', ring' := Unlink(l, ring[k]), Without(ring, k);
    forall i | 0 <= i < |ring'| ensures Joined(l', ring'[i], Nth(ring', i + 1)) {
      UnlinkJoined(l, ring, k, i);
    }
  }

  // ---- moving a chunk next to the main chunk (the found: label of zend_mm_alloc_pages) -------------

  function LinkSecond(l: Links, main: Address, c: Address): Links
    requires main in l.next
  {
    var next := l.next[c := l.next[main]];
    var prev := l.prev[c := main];
    Links(next[prev[c] := c], prev[next[c] := c])
  }

  function MovedSecond(ring: seq<Address>, k: nat): seq<Address>
    requires 0 < k < |ring|
  {
    With(Without(ring, k), 1, ring[k])
  }

  /** The relink keeps the ring well formed and only changes the place of the chunk. */
  lemma MoveSecondOk(l: Links, ring: seq<Address>, k: nat)
    requires RingOk(l, ring) && 0 < k < |ring|
    ensures ring[k] in l.next && ring[k] in l.prev && ring[0] in Unlink(l, ring[k]).next
    ensures RingOk(LinkSecond(Unlink(l, ring[k]), ring[0], ring[k]), MovedSecond(ring, k))
    ensures MovedSecond(ring, k)[0] == ring[0]
    ensures multiset(MovedSecond(ring, k)) == multiset(ring)
  {
    UnlinkOk(l, ring, k);
    var rest, l1 := Without(ring, k), Unlink(l, ring[k]);
    assert Joined(l1, rest[0], Nth(rest, 1));
    InsertOk(l1, rest, 1, ring[k]);
    SameElements(ring, k);
  }

  lemma SameElements(ring: seq<Address>, k: nat)
    requires 0 < k < |ring|
    ensures multiset(MovedSecond(ring, k)) == multiset(ring)
  {
    assert ring == ring[..1] + ring[1..k] + [ring[k]] + ring[k + 1..];
    assert MovedSecond(ring, k) == ring[..1] + [ring[k]] + ring[1..k] + ring[k + 1..];
  }

  /**
   * Unlinking the main chunk itself closes the other chunks to a ring of their own: a walk along
   * their links never comes back to it.
   */
  lemma UnlinkFirst(l: Links, ring: seq<Address>)
    requires RingOk(l, ring) && |ring| > 1
    ensures ring[0] in l.next && ring[0] in l.prev
    ensures RingOk(Unlink(l, ring[0]), ring[1..]) && ring[0] !in ring[1..]
  {
    var n := |ring|;
    assert Joined(l, ring[n - 1], Nth(ring, n)) && Joined(l, ring[0], Nth(ring, 1));
    var l', rest := Unlink(l, ring[0]), ring[1..];
    forall i | 0 <= i < |rest| ensures Joined(l', rest[i], Nth(rest, i + 1)) {
      assert Joined(l, ring[i + 1], Nth(ring, i + 2));
      if i < |rest| - 1 {
        assert Nth(ring, i + 2) == ring[i + 2] && ring[i + 2] != ring[1];
      }
    }
  }
}
