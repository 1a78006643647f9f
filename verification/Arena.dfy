// The arena: a chain of segments with a bump pointer, checkpoints, and release.
module Arena {
  import opened Addresses

  /** A segment from base to end, its header first; ptr is where the next block goes. */
  datatype Segment = Segment(base: Address, ptr: Address, end: Address)

  /** The chain by its prev links, the current segment first. */
  type Chain = seq<Segment>

  datatype Block = Block(start: Address, size: nat)

  /** The aligned size of the header. */
  const HEADER: nat := 24

  function Aligned(size: nat): (n: nat)
    ensures size <= n < size + 8 && n % 8 == 0
  {
    (size + 7) / 8 * 8
  }

  ghost predicate SegmentOk(s: Segment) {
    s.base + HEADER <= s.ptr <= s.end
  }

  /** Well-formed segments, one at least, which do not overlap; they may be adjacent in memory. */
  ghost predicate ChainOk(c: Chain) {
    && c != []
    && (forall i | 0 <= i < |c| :: SegmentOk(c[i]))
    && forall i, j | 0 <= i < j < |c| :: c[i].end <= c[j].base || c[j].end <= c[i].base
  }

  /** emalloc returned n bytes at p that overlap no segment. */
  predicate FreshSegment(c: Chain, p: Address, n: nat) {
    forall i | 0 <= i < |c| :: c[i].end <= p || p + n <= c[i].base
  }

  /** The block lies in the used part of a segment of the chain. */
  ghost predicate Inside(b: Block, s: Segment) {
    s.base + HEADER <= b.start && b.start + b.size <= s.ptr
  }

  ghost predicate InChain(b: Block, c: Chain) {
    exists i :: 0 <= i < |c| && Inside(b, c[i])
  }

  ghost predicate BlocksOk(c: Chain, blocks: seq<Block>) {
    && (forall k | 0 <= k < |blocks| :: InChain(blocks[k], c))
    && forall k, l | 0 <= k < l < |blocks| :: Apart(blocks[k].start, blocks[k].size, blocks[l].start, blocks[l].size)
  }

  /** c has grown from c0: new segments in front, and the segment that was current has moved up its pointer. */
  ghost predicate Grown(c0: Chain, c: Chain) {
    && 0 < |c0| <= |c|
    && var k := |c| - |c0|;
       && c[k + 1..] == c0[1..]
       && c[k].base == c0[0].base && c[k].end == c0[0].end && c0[0].ptr <= c[k].ptr
  }

  // ---- allocation -----------------------------------------------------------------------------------------

  /** The chain after an allocation of n bytes, n being aligned: in the current segment or in a new one at p. */
  function Bumped(c: Chain, n: nat, p: Address, size: nat): (r: Chain)
    requires c != []
  {
    if c[0].ptr + n <= c[0].end then [c[0].(ptr := c[0].ptr + n)] + c[1..]
    else [Segment(p, p + HEADER + n, p + size)] + c
  }

  function BlockAt(c: Chain, n: nat, p: Address): Block
    requires c != []
  {
    if c[0].ptr + n <= c[0].end then Block(c[0].ptr, n) else Block(p + HEADER, n)
  }

  /** The size of a new segment: as large as the current one, or larger if the request needs it. */
  function NewSize(c: Chain, n: nat): nat
    requires c != [] && c[0].base <= c[0].end
  {
    if n + HEADER > c[0].end - c[0].base then n + HEADER else c[0].end - c[0].base
  }

  /** The segment from p to its end is the least that is as large as s and holds a header and n bytes. */
  ghost predicate LeastFor(s: Segment, n: nat, p: Address, end: int) {
    && s.end - s.base <= end - p && HEADER + n <= end - p
    && (end - p == s.end - s.base || end - p == HEADER + n)
  }

  lemma BumpedOk(c: Chain, n: nat, p: Address, size: nat)
    requires ChainOk(c) && size >= n + HEADER
    requires c[0].ptr + n > c[0].end ==> FreshSegment(c, p, size)
    ensures ChainOk(Bumped(c, n, p, size))
  {
  }

  lemma BumpedGrown(c0: Chain, c: Chain, n: nat, p: Address, size: nat)
    requires ChainOk(c) && Grown(c0, c)
    ensures Grown(c0, Bumped(c, n, p, size))
  {
    var k, c' := |c| - |c0|, Bumped(c, n, p, size);
    if c[0].ptr + n <= c[0].end {
      assert k > 0 ==> c'[k + 1..] == c[k + 1..];
      assert k == 0 ==> c'[1..] == c[1..];
    } else {
      assert c'[k + 2..] == c[k + 1..];
    }
  }

  /** Blocks stay inside the chain as it grows. */
  lemma StillInside(c: Chain, n: nat, p: Address, size: nat, b: Block)
    requires ChainOk(c) && InChain(b, c)
    ensures InChain(b, Bumped(c, n, p, size))
  {
    var i :| 0 <= i < |c| && Inside(b, c[i]);
    var c' := Bumped(c, n, p, size);
    var j := if c[0].ptr + n <= c[0].end then i else i + 1;
    assert Inside(b, c'[j]);
  }

  /** A new block overlaps no block of the chain: it begins where the used part ends, or in a new segment. */
  lemma NewBlockApart(c: Chain, n: nat, p: Address, size: nat, b: Block)
    requires ChainOk(c) && InChain(b, c) && size >= n + HEADER
    requires c[0].ptr + n > c[0].end ==> FreshSegment(c, p, size)
    ensures var x := BlockAt(c, n, p); Apart(b.start, b.size, x.start, x.size)
  {
    var i :| 0 <= i < |c| && Inside(b, c[i]);
  }

  lemma BumpedBlocks(c: Chain, n: nat, p: Address, size: nat, blocks: seq<Block>)
    requires ChainOk(c) && BlocksOk(c, blocks) && size >= n + HEADER
    requires c[0].ptr + n > c[0].end ==> FreshSegment(c, p, size)
    ensures BlocksOk(Bumped(c, n, p, size), blocks + [BlockAt(c, n, p)])
  {
    hide InChain, ChainOk;
    Headroom(c);
    var c', x := Bumped(c, n, p, size), BlockAt(c, n, p);
    var all := blocks + [x];
    NewInside(c, n, p, size);
    hide Bumped, BlockAt, FreshSegment;
    forall k | 0 <= k < |all| ensures InChain(all[k], c') {
      if k < |blocks| { StillInside(c, n, p, size, blocks[k]); }
    }
    forall k, l | 0 <= k < l < |all| ensures Apart(all[k].start, all[k].size, all[l].start, all[l].size) {
      if l == |blocks| { NewBlockApart(c, n, p, size, blocks[k]); }
    }
  }

  lemma NewInside(c: Chain, n: nat, p: Address, size: nat)
    requires ChainOk(c)
    ensures InChain(BlockAt(c, n, p), Bumped(c, n, p, size))
  {
    assert Inside(BlockAt(c, n, p), Bumped(c, n, p, size)[0]);
  }

  // ---- release --------------------------------------------------------------------------------------------

  /** The chain from the segment that holds the checkpoint on, its pointer put back. */
  lemma CheckpointHere(c0: Chain, c: Chain, i: nat)
    requires ChainOk(c0) && ChainOk(c) && Grown(c0, c) && i <= |c| - |c0|
    ensures i < |c| - |c0| <==> c0[0].ptr > c[i].end || c0[0].ptr <= c[i].base
    ensures c[|c| - |c0|..] != [] && [c[|c| - |c0|].(ptr := c0[0].ptr)] + c[|c| - |c0| + 1..] == c0
  {
    var k := |c| - |c0|;
    assert c[k].(ptr := c0[0].ptr) == c0[0];
    assert c0 == [c0[0]] + c0[1..];
  }

  /** What a program does with an arena: allocations, and scopes between a checkpoint and its release. */
  datatype Steps = Finish | Take(size: nat, space: Address, rest: Steps) | Scope(inner: Steps, rest: Steps)

  /** The n bytes fit the current segment, or emalloc has found room for a new one at p. */
  predicate MayTake(c: Chain, n: nat, p: Address)
    requires c != [] && c[0].base <= c[0].end
  {
    c[0].ptr + n > c[0].end ==> FreshSegment(c, p, NewSize(c, n))
  }

  /** The chain and the blocks after the allocations of the steps, those inside scopes left out. */
  ghost function After(c: Chain, blocks: seq<Block>, steps: Steps): (Chain, seq<Block>)
    requires ChainOk(c)
    decreases steps
  {
    match steps
    case Finish => (c, blocks)
    case Take(size, space, rest) =>
      var n := Aligned(size);
      if MayTake(c, n, space) then
        BumpedOk(c, n, space, NewSize(c, n));
        After(Bumped(c, n, space, NewSize(c, n)), blocks + [BlockAt(c, n, space)], rest)
      else After(c, blocks, rest)
    case Scope(inner, rest) => After(c, blocks, rest)
  }

  class ZendArena {
    var chain: Chain
    var blocks: seq<Block>

    ghost predicate Valid()
      reads this
    {
      ChainOk(chain) && BlocksOk(chain, blocks)
    }

    /** zend_arena_create, in size bytes at p. */
    constructor (p: Address, size: nat)
      requires size >= HEADER
      ensures Valid() && chain == [Segment(p, p + HEADER, p + size)] && blocks == []
    {
      chain, blocks := [Segment(p, p + HEADER, p + size)], [];
    }

    /** zend_arena_alloc; space is what emalloc returns if a new segment is needed. */
    method Alloc(size: nat, space: Address) returns (ptr: Address)
      requires Valid() && MayTake(chain, Aligned(size), space)
      modifies this
      ensures Valid() && blocks == old(blocks) + [Block(ptr, Aligned(size))]
      ensures Block(ptr, Aligned(size)) == BlockAt(old(chain), Aligned(size), space)
      ensures chain == Bumped(old(chain), Aligned(size), space, NewSize(old(chain), Aligned(size)))
      ensures forall c0 | Grown(c0, old(chain)) :: Grown(c0, chain)
      ensures Grown(old(chain), chain)
      ensures |chain| > |old(chain)| <==> old(chain)[0].ptr + Aligned(size) > old(chain)[0].end
      ensures |chain| > |old(chain)| ==> chain[0].base == space && LeastFor(old(chain)[0], Aligned(size), space, chain[0].end)
    {
      hide ChainOk, BlocksOk, FreshSegment, Grown, Aligned;
      ghost var c := chain;
      Headroom(c);
      var n := Aligned(size);
      BumpedOk(c, n, space, NewSize(c, n));
      BumpedBlocks(c, n, space, NewSize(c, n), blocks);
      GrownRefl(c);
      forall c0 | Grown(c0, c) ensures Grown(c0, Bumped(c, n, space, NewSize(c, n))) {
        BumpedGrown(c0, c, n, space, NewSize(c, n));
      }
      ptr := chain[0].ptr;
      if n <= chain[0].end - ptr {
        chain := [chain[0].(ptr := ptr + n)] + chain[1..];
      } else {
        var arenaSize := if n + HEADER > chain[0].end - chain[0].base then n + HEADER else chain[0].end - chain[0].base;
        ptr := space + HEADER;
        chain := [Segment(space, space + HEADER + n, space + arenaSize)] + chain;
      }
      blocks := blocks + [Block(ptr, n)];
    }

    /** zend_arena_checkpoint */
    method Checkpoint() returns (checkpoint: Address)
      requires Valid()
      ensures checkpoint == chain[0].ptr
    {
      checkpoint := chain[0].ptr;
    }

    /**
     * zend_arena_release to a checkpoint that was taken when the chain was c0 and its blocks were
     * b0: whatever was allocated since, the chain and the pointer are exactly as they were.
     */
    method Release(checkpoint: Address, ghost c0: Chain, b0: seq<Block>)
      requires Valid() && ChainOk(c0) && BlocksOk(c0, b0) && Grown(c0, chain) && checkpoint == c0[0].ptr
      modifies this
      ensures Valid() && chain == c0 && blocks == b0
      ensures forall c1 | Grown(c1, c0) :: Grown(c1, chain)
    {
      hide ChainOk, BlocksOk, Grown;
      ghost var c, i := chain, 0;
      CheckpointBound(c0, c);
      CheckpointHere(c0, c, 0);
      while checkpoint > chain[0].end || checkpoint <= chain[0].base
        invariant i <= |c| - |c0| && |c0| > 0 && chain == c[i..] && chain != []
        decreases |c| - i
      {
        CheckpointHere(c0, c, i);
        chain := chain[1..];
        i := i + 1;
        CheckpointHere(c0, c, i);
      }
      CheckpointHere(c0, c, i);
      chain := [chain[0].(ptr := checkpoint)] + chain[1..];
      blocks := b0;
    }

    /** Any nesting of scopes: a scope leaves no trace, and the blocks taken outside of scopes stay. */
    method Use(steps: Steps)
      requires Valid()
      modifies this
      ensures Valid() && Grown(old(chain), chain) && old(blocks) <= blocks
      ensures (chain, blocks) == After(old(chain), old(blocks), steps)
      decreases steps
    {
      hide ChainOk, BlocksOk, Grown, FreshSegment, NewSize;
      ghost var c0 := chain;
      GrownRefl(c0);
      Headroom(c0);
      match steps
      case Finish =>
      case Take(size, space, rest) =>
        if MayTake(chain, Aligned(size), space) {
          var p := Alloc(size, space);
        }
        ghost var c1 := chain;
        Use(rest);
        GrownLater(c0, c1, chain);
      case Scope(inner, rest) =>
        var b0 := blocks;
        var checkpoint := Checkpoint();
        Use(inner);
        Release(checkpoint, c0, b0);
        Use(rest);
    }
  }

  lemma GrownLater(c0: Chain, c1: Chain, c2: Chain)
    requires Grown(c0, c1)
    ensures Grown(c1, c2) ==> Grown(c0, c2)
  {
    hide Grown;
    if Grown(c1, c2) {
      GrownTrans(c0, c1, c2);
    }
  }

  lemma Headroom(c: Chain)
    requires ChainOk(c)
    ensures c != [] && c[0].base + HEADER <= c[0].ptr <= c[0].end
  {
  }

  lemma GrownRefl(c: Chain)
    requires ChainOk(c)
    ensures Grown(c, c)
  {
  }

  lemma CheckpointBound(c0: Chain, c: Chain)
    requires Grown(c0, c)
    ensures 0 < |c0| <= |c|
  {
  }

  /** Growth is transitive: checkpoints may be nested. */
  lemma GrownTrans(c0: Chain, c1: Chain, c2: Chain)
    requires Grown(c0, c1) && Grown(c1, c2)
    ensures Grown(c0, c2)
  {
    var k, l := |c1| - |c0|, |c2| - |c1|;
    if k == 0 {
      assert c2[l + 1..] == c1[1..];
    } else {
      assert c2[l + k] == c2[l + 1..][k - 1] == c1[1..][k - 1] == c1[k];
      assert c2[l + k + 1..] == c2[l + 1..][k..] == c1[1..][k..] == c1[k + 1..];
    }
  }
}
