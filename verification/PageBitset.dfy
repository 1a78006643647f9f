// The page bitset of a chunk: an array of words of L bits, bit i of the array telling whether
// page i is allocated.  The methods update whole words; their contracts speak of single pages.
module PageBitset {
  import opened Words

  ghost predicate Wellformed(ws: seq<nat>, L: nat) {
    WordLength(L) && forall w | 0 <= w < |ws| :: Fits(ws[w], L)
  }

  function Pages(ws: seq<nat>, L: nat): nat {
    |ws| * L
  }

  /** The word that holds bit i, and the place of the bit in it. */
  function WordOf(i: nat, L: nat): nat
    requires L > 0
  {
    i / L
  }

  function BitOf(i: nat, L: nat): (k: nat)
    requires L > 0
    ensures k < L
  {
    i % L
  }

  /** Page i is marked as allocated. */
  predicate Used(ws: seq<nat>, L: nat, i: nat)
    requires L > 0
  {
    WordOf(i, L) < |ws| && Bit(ws[WordOf(i, L)], BitOf(i, L))
  }

  // ---- where a page lies --------------------------------------------------------------------

  lemma {:induction false} Rows(a: nat, b: nat, L: nat)
    requires a < b
    ensures a * L + L <= b * L
  {
    assert b * L == (b - 1) * L + L;
    if a < b - 1 {
      Rows(a, b - 1, L);
    }
  }

  lemma At(w: nat, k: nat, L: nat)
    requires k < L
    ensures (w * L + k) / L == w && (w * L + k) % L == k
  {
    var q := (w * L + k) / L;
    assert w * L + k == q * L + (w * L + k) % L;
    if q < w {
      Rows(q, w, L);
    } else if w < q {
      Rows(w, q, L);
    }
  }

  /** Comparing page w * L + k with page j: the words first, then the bits. */
  lemma Place(w: nat, k: nat, j: nat, L: nat)
    requires k < L
    ensures w * L + k <= j <==> w < WordOf(j, L) || (w == WordOf(j, L) && k <= BitOf(j, L))
    ensures j <= w * L + k <==> WordOf(j, L) < w || (w == WordOf(j, L) && BitOf(j, L) <= k)
  {
    At(w, k, L);
    Order(w * L + k, j, L);
    Order(j, w * L + k, L);
  }

  lemma Order(i: nat, j: nat, L: nat)
    requires L > 0
    ensures WordOf(i, L) < WordOf(j, L) ==> i < j
    ensures WordOf(i, L) == WordOf(j, L) ==> (i <= j <==> BitOf(i, L) <= BitOf(j, L))
  {
    assert i == WordOf(i, L) * L + BitOf(i, L);
    assert j == WordOf(j, L) * L + BitOf(j, L);
    if WordOf(i, L) < WordOf(j, L) {
      assert (WordOf(i, L) + 1) * L <= WordOf(j, L) * L;
    }
  }

  lemma InRange(ws: seq<nat>, L: nat, i: nat)
    requires L > 0
    ensures i < Pages(ws, L) <==> WordOf(i, L) < |ws|
  {
    assert i == WordOf(i, L) * L + BitOf(i, L);
    if WordOf(i, L) < |ws| {
      assert (WordOf(i, L) + 1) * L <= |ws| * L;
    } else {
      assert |ws| * L <= WordOf(i, L) * L;
    }
  }

  /** Two well-formed bitsets that agree on every page are equal. */
  lemma SamePages(xs: seq<nat>, ys: seq<nat>, L: nat)
    requires Wellformed(xs, L) && Wellformed(ys, L) && |xs| == |ys|
    requires forall i | 0 <= i < Pages(xs, L) :: Used(xs, L, i) == Used(ys, L, i)
    ensures xs == ys
  {
    forall w | 0 <= w < |xs| ensures xs[w] == ys[w] {
      forall k | 0 <= k < L ensures Bit(xs[w], k) == Bit(ys[w], k) {
        At(w, k, L);
        InRange(xs, L, w * L + k);
        assert Used(xs, L, w * L + k) == Used(ys, L, w * L + k);
      }
      SameBits(xs[w], ys[w], L);
    }
  }

  // ---- ranges of pages ---------------------------------------------------------------------------

  /** The pages of word w that lie in start .. last, as a word. */
  function RangeMask(w: nat, start: nat, last: nat, L: nat): nat
    requires L > 0
  {
    var head := Shl(Below(L), BitOf(start, L), L);
    var tail := Shr(Below(L), L - 1 - BitOf(last, L));
    if w < WordOf(start, L) || WordOf(last, L) < w then 0
    else if WordOf(start, L) == WordOf(last, L) then And(head, tail)
    else if w == WordOf(start, L) then head
    else if w == WordOf(last, L) then tail
    else Below(L)
  }

  lemma RangeMaskBit(w: nat, k: nat, start: nat, last: nat, L: nat)
    requires k < L && start <= last
    ensures Bit(RangeMask(w, start, last, L), k) <==> start <= w * L + k <= last
  {
    Place(w, k, start, L);
    Place(w, k, last, L);
    Order(start, last, L);
    MaskBits(BitOf(start, L), BitOf(last, L), L, k);
  }

  lemma RangeMaskPage(start: nat, last: nat, L: nat, i: nat)
    requires L > 0 && start <= last
    ensures Bit(RangeMask(WordOf(i, L), start, last, L), BitOf(i, L)) <==> start <= i <= last
  {
    hide RangeMask, Bit;
    RangeMaskBit(WordOf(i, L), BitOf(i, L), start, last, L);
    assert WordOf(i, L) * L + BitOf(i, L) == i;
  }

  lemma MaskBits(first: nat, last: nat, L: nat, k: nat)
    requires k < L && first < L && last < L
    ensures !Bit(0, k) && Bit(Below(L), k)
    ensures Bit(Shl(Below(L), first, L), k) <==> first <= k
    ensures Bit(Shr(Below(L), L - 1 - last), k) <==> k <= last
    ensures Bit(And(Shl(Below(L), first, L), Shr(Below(L), L - 1 - last)), k) <==> first <= k <= last
  {
    FitsBit(0, 0, k);
    BitBelow(L, k);
    BitAnd(Shl(Below(L), first, L), Shr(Below(L), L - 1 - last), k);
    BitShl(Below(L), first, L, k);
    if first <= k {
      BitBelow(L, k - first);
    }
    BitShr(Below(L), L - 1 - last, k);
    BitBelow(L, L - 1 - last + k);
  }

  function SetRange(ws: seq<nat>, start: nat, len: nat, L: nat): (r: seq<nat>)
    requires L > 0 && len > 0
    ensures |r| == |ws|
  {
    seq(|ws|, w requires 0 <= w < |ws| => Or(ws[w], RangeMask(w, start, start + len - 1, L)))
  }

  function ResetRange(ws: seq<nat>, start: nat, len: nat, L: nat): (r: seq<nat>)
    requires L > 0 && len > 0
    ensures |r| == |ws|
  {
    seq(|ws|, w requires 0 <= w < |ws| => And(ws[w], Not(RangeMask(w, start, start + len - 1, L), L)))
  }

  /** The range is set and nothing else changes. */
  lemma SetRangeUsed(ws: seq<nat>, start: nat, len: nat, L: nat, i: nat)
    requires len > 0 && L > 0 && i < Pages(ws, L)
    ensures Used(SetRange(ws, start, len, L), L, i) <==> start <= i < start + len || Used(ws, L, i)
  {
    hide RangeMask, Bit, Or;
    InRange(ws, L, i);
    BitOr(ws[WordOf(i, L)], RangeMask(WordOf(i, L), start, start + len - 1, L), BitOf(i, L));
    RangeMaskPage(start, start + len - 1, L, i);
  }

  /** The range is reset and nothing else changes. */
  lemma ResetRangeUsed(ws: seq<nat>, start: nat, len: nat, L: nat, i: nat)
    requires len > 0 && L > 0 && i < Pages(ws, L)
    ensures Used(ResetRange(ws, start, len, L), L, i) <==> !(start <= i < start + len) && Used(ws, L, i)
  {
    hide RangeMask, Bit, And, Not;
    InRange(ws, L, i);
    var mask := RangeMask(WordOf(i, L), start, start + len - 1, L);
    BitAnd(ws[WordOf(i, L)], Not(mask, L), BitOf(i, L));
    BitNot(mask, L, BitOf(i, L));
    RangeMaskPage(start, start + len - 1, L, i);
  }

  lemma MaskFits(w: nat, start: nat, last: nat, L: nat)
    requires L > 0
    ensures Fits(RangeMask(w, start, last, L), L)
  {
    var head := Shl(Below(L), BitOf(start, L), L);
    var tail := Shr(Below(L), L - 1 - BitOf(last, L));
    FitsZero(L);
    FitsBelow(L);
    FitsShl(Below(L), BitOf(start, L), L);
    FitsShr(Below(L), L - 1 - BitOf(last, L), L);
    FitsAnd(head, tail, L);
  }

  lemma RangesWellformed(ws: seq<nat>, start: nat, len: nat, L: nat)
    requires Wellformed(ws, L) && len > 0
    ensures Wellformed(SetRange(ws, start, len, L), L)
    ensures Wellformed(ResetRange(ws, start, len, L), L)
  {
    forall w | 0 <= w < |ws|
      ensures Fits(SetRange(ws, start, len, L)[w], L) && Fits(ResetRange(ws, start, len, L)[w], L)
    {
      var mask := RangeMask(w, start, start + len - 1, L);
      MaskFits(w, start, start + len - 1, L);
      FitsOr(ws[w], mask, L);
      FitsAnd(ws[w], Not(mask, L), L);
    }
  }

  // ---- whole words of a range --------------------------------------------------------------------

  lemma Positive(L: nat)
    requires WordLength(L)
    ensures L >= 2
  {
  }

  /** Word w after the range start .. last is set, or reset. */
  function Touched(x: nat, w: nat, start: nat, last: nat, L: nat, on: bool): nat
    requires L > 0
  {
    if on then Or(x, RangeMask(w, start, last, L)) else And(x, Not(RangeMask(w, start, last, L), L))
  }

  /** A word strictly inside the range, or outside it, is filled, cleared or left alone. */
  lemma TouchedPlain(x: nat, w: nat, start: nat, last: nat, L: nat)
    requires L > 0 && Fits(x, L) && start <= last
    ensures WordOf(start, L) < w < WordOf(last, L) ==> Touched(x, w, start, last, L, true) == Below(L)
    ensures WordOf(start, L) < w < WordOf(last, L) ==> Touched(x, w, start, last, L, false) == 0
    ensures w < WordOf(start, L) || WordOf(last, L) < w ==> Touched(x, w, start, last, L, true) == x
    ensures w < WordOf(start, L) || WordOf(last, L) < w ==> Touched(x, w, start, last, L, false) == x
  {
    AllOrNothing(x, L);
  }

  /** The masks that the program computes for the words at the ends of the range. */
  lemma TouchedEnds(x: nat, w: nat, start: nat, last: nat, L: nat)
    requires L > 0 && start <= last
    ensures w == WordOf(start, L) < WordOf(last, L) ==>
              && Touched(x, w, start, last, L, true) == Or(x, Shl(Below(L), BitOf(start, L), L))
              && Touched(x, w, start, last, L, false) == And(x, Not(Shl(Below(L), BitOf(start, L), L), L))
    ensures WordOf(start, L) < WordOf(last, L) == w ==>
              && Touched(x, w, start, last, L, true) == Or(x, Shr(Below(L), L - 1 - BitOf(last, L)))
              && Touched(x, w, start, last, L, false) == And(x, Not(Shr(Below(L), L - 1 - BitOf(last, L)), L))
    ensures w == WordOf(start, L) == WordOf(last, L) ==>
              var mask := And(Shl(Below(L), BitOf(start, L), L), Shr(Below(L), L - 1 - BitOf(last, L)));
              && Touched(x, w, start, last, L, true) == Or(x, mask)
              && Touched(x, w, start, last, L, false) == And(x, Not(mask, L))
  {
    hide And, Or, Not, Shl, Shr, Below;
  }

  lemma AllOrNothing(x: nat, L: nat)
    requires Fits(x, L)
    ensures Or(x, Below(L)) == Below(L) && And(x, Not(Below(L), L)) == 0
    ensures Or(x, 0) == x && And(x, Not(0, L)) == x
  {
    forall k | 0 <= k < L
      ensures Bit(Or(x, Below(L)), k) == Bit(Below(L), k) && Bit(And(x, Not(Below(L), L)), k) == Bit(0, k)
      ensures Bit(Or(x, 0), k) == Bit(x, k) && Bit(And(x, Not(0, L)), k) == Bit(x, k)
    {
      hide *;
      BitOr(x, Below(L), k);
      BitOr(x, 0, k);
      BitAnd(x, Not(Below(L), L), k);
      BitAnd(x, Not(0, L), k);
      BitNot(Below(L), L, k);
      BitNot(0, L, k);
      BitBelow(L, k);
      FitsBit(0, 0, k);
    }
    FitsBelow(L);
    FitsZero(L);
    FitsOr(x, Below(L), L);
    FitsOr(x, 0, L);
    FitsAnd(x, Not(Below(L), L), L);
    FitsAnd(x, Not(0, L), L);
    SameBits(Or(x, Below(L)), Below(L), L);
    SameBits(And(x, Not(Below(L), L)), 0, L);
    SameBits(Or(x, 0), x, L);
    SameBits(And(x, Not(0, L)), x, L);
  }

  /** A range of one page is one bit of one word. */
  lemma OnePageMask(start: nat, L: nat)
    requires L > 0
    ensures RangeMask(WordOf(start, L), start, start, L) == Shl(1, BitOf(start, L), L)
  {
    var b := BitOf(start, L);
    var x := And(Shl(Below(L), b, L), Shr(Below(L), L - 1 - b));
    forall k | 0 <= k < L ensures Bit(x, k) == Bit(Shl(1, b, L), k) {
      MaskBits(b, b, L, k);
      BitShl(1, b, L, k);
      if b < k {
        FitsBit(1, 1, k - b);
      }
    }
    FitsShl(Below(L), b, L);
    FitsAnd(Shl(Below(L), b, L), Shr(Below(L), L - 1 - b), L);
    FitsShl(1, b, L);
    SameBits(x, Shl(1, b, L), L);
  }

  /** (1 << b) - 1 is the mask of the bits below b. */
  lemma {:induction false} ShlOne(b: nat, L: nat)
    requires b < L
    ensures Shl(1, b, L) == Below(b) + 1
    decreases L
  {
    if b == 0 {
      FitsZero(L - 1);
      ShlZero(0, L - 1);
    } else {
      ShlOne(b - 1, L - 1);
    }
  }

  lemma {:induction false} ShlZero(x: nat, L: nat)
    requires Fits(x, L)
    ensures Shl(x, 0, L) == x
    decreases L
  {
    if L > 0 {
      ShlZero(x / 2, L - 1);
    }
  }

  /** ~((1 << b) - 1) is the mask of the bits from b on. */
  lemma FromMask(b: nat, L: nat)
    requires b < L
    ensures Shl(1, b, L) > 0 && Not(Shl(1, b, L) - 1, L) == Shl(Below(L), b, L)
  {
    ShlOne(b, L);
    forall k | 0 <= k < L ensures Bit(Not(Below(b), L), k) == Bit(Shl(Below(L), b, L), k) {
      BitNot(Below(b), L, k);
      BitBelow(b, k);
      BitShl(Below(L), b, L, k);
      if b <= k {
        BitBelow(L, k - b);
      }
    }
    FitsNot(Below(b), L);
    FitsShl(Below(L), b, L);
    SameBits(Not(Below(b), L), Shl(Below(L), b, L), L);
  }

  // ---- the operations of the program -------------------------------------------------------------

  /** A word masked by one bit is nonzero just when that bit is set. */
  lemma SingleBit(x: nat, b: nat, L: nat)
    requires b < L
    ensures And(x, Shl(1, b, L)) != 0 <==> Bit(x, b)
  {
    FitsShl(1, b, L);
    FitsAnd(x, Shl(1, b, L), L);
    if And(x, Shl(1, b, L)) == 0 {
      FitsBit(0, 0, b);
      BitAnd(x, Shl(1, b, L), b);
      BitShl(1, b, L, b);
    } else if !Bit(x, b) {
      forall k | 0 <= k < L ensures Bit(And(x, Shl(1, b, L)), k) == Bit(0, k) {
        FitsBit(0, 0, k);
        BitAnd(x, Shl(1, b, L), k);
        BitShl(1, b, L, k);
        if b < k {
          FitsBit(1, 1, k - b);
        }
      }
      FitsZero(L);
      SameBits(And(x, Shl(1, b, L)), 0, L);
    }
  }

  /** zend_mm_bitset_is_set */
  method IsSet(a: array<nat>, L: nat, bit: nat) returns (r: bool)
    requires L > 0 && WordOf(bit, L) < a.Length
    ensures r == Used(a[..], L, bit)
  {
    hide Bit, Shl, And;
    var w, b := WordOf(bit, L), BitOf(bit, L);
    SingleBit(a[w], b, L);
    r := And(a[w], Shl(1, b, L)) != 0;
  }

  /** zend_mm_bitset_set_bit */
  method SetBit(a: array<nat>, L: nat, bit: nat)
    requires L > 0 && WordOf(bit, L) < a.Length
    modifies a
    ensures a[..] == old(a[..])[WordOf(bit, L) := Touched(old(a[WordOf(bit, L)]), WordOf(bit, L), bit, bit, L, true)]
  {
    hide Bit, Shl, Or, RangeMask;
    OnePageMask(bit, L);
    a[WordOf(bit, L)] := Or(a[WordOf(bit, L)], Shl(1, BitOf(bit, L), L));
  }

  /** zend_mm_bitset_reset_bit */
  method ResetBit(a: array<nat>, L: nat, bit: nat)
    requires L > 0 && WordOf(bit, L) < a.Length
    modifies a
    ensures a[..] == old(a[..])[WordOf(bit, L) := Touched(old(a[WordOf(bit, L)]), WordOf(bit, L), bit, bit, L, false)]
  {
    hide Bit, Shl, And, Not, RangeMask;
    OnePageMask(bit, L);
    a[WordOf(bit, L)] := And(a[WordOf(bit, L)], Not(Shl(1, BitOf(bit, L), L), L));
  }

  /** Words lo .. hi-1 are as after the range was treated, the others as before. */
  ghost predicate Done(now: seq<nat>, was: seq<nat>, lo: nat, hi: nat, start: nat, last: nat, L: nat, on: bool)
    requires L > 0
  {
    && |now| == |was|
    && (forall w | 0 <= w < |was| ::
          now[w] == if lo <= w < hi then Touched(was[w], w, start, last, L, on) else was[w])
  }

  lemma DoneAll(now: seq<nat>, was: seq<nat>, start: nat, last: nat, L: nat, on: bool)
    requires Wellformed(was, L) && start <= last
    requires L > 0 && Done(now, was, WordOf(start, L), WordOf(last, L) + 1, start, last, L, on)
    ensures on ==> now == SetRange(was, start, last - start + 1, L)
    ensures !on ==> now == ResetRange(was, start, last - start + 1, L)
  {
    hide RangeMask, Or, And, Not, Fits;
    forall w | 0 <= w < |was|
      ensures now[w] == Touched(was[w], w, start, last, L, on)
    {
      TouchedPlain(was[w], w, start, last, L);
    }
  }

  /** zend_mm_bitset_set_range */
  method SetRangeInPlace(a: array<nat>, L: nat, start: nat, len: nat)
    requires Wellformed(a[..], L) && len > 0 && start + len <= Pages(a[..], L)
    modifies a
    ensures a[..] == SetRange(old(a[..]), start, len, L)
  {
    hide Bit, Shl, Shr, Or, And, Not, Below, RangeMask, Fits, SetRange, Touched, Pages;
    ghost var was, last := a[..], start + len - 1;
    Positive(L);
    InRange(was, L, last);
    Order(last, start, L);
    TouchedEnds(was[WordOf(start, L)], WordOf(start, L), start, last, L);
    TouchedEnds(was[WordOf(last, L)], WordOf(last, L), start, last, L);
    if len == 1 {
      SetBit(a, L, start);
    } else {
      var pos := WordOf(start, L);
      var end := WordOf(start + len - 1, L);
      var bit := BitOf(start, L);
      if pos != end {
        a[pos] := Or(a[pos], Shl(Below(L), bit, L));
        pos := pos + 1;
        while pos != end
          invariant WordOf(start, L) < pos <= end < a.Length
          invariant Done(a[..], was, WordOf(start, L), pos, start, last, L, true)
        {
          TouchedPlain(was[pos], pos, start, last, L);
          a[pos] := Below(L);
          pos := pos + 1;
        }
        end := BitOf(start + len - 1, L);
        a[pos] := Or(a[pos], Shr(Below(L), L - 1 - end));
      } else {
        end := BitOf(start + len - 1, L);
        a[pos] := Or(a[pos], And(Shl(Below(L), bit, L), Shr(Below(L), L - 1 - end)));
      }
    }
    DoneAll(a[..], was, start, last, L, true);
  }

  /** zend_mm_bitset_reset_range */
  method ResetRangeInPlace(a: array<nat>, L: nat, start: nat, len: nat)
    requires Wellformed(a[..], L) && len > 0 && start + len <= Pages(a[..], L)
    modifies a
    ensures a[..] == ResetRange(old(a[..]), start, len, L)
  {
    hide Bit, Shl, Shr, Or, And, Not, Below, RangeMask, Fits, ResetRange, Touched, Pages;
    ghost var was, last := a[..], start + len - 1;
    Positive(L);
    InRange(was, L, last);
    Order(last, start, L);
    TouchedEnds(was[WordOf(start, L)], WordOf(start, L), start, last, L);
    TouchedEnds(was[WordOf(last, L)], WordOf(last, L), start, last, L);
    if len == 1 {
      ResetBit(a, L, start);
    } else {
      var pos := WordOf(start, L);
      var end := WordOf(start + len - 1, L);
      var bit := BitOf(start, L);
      if pos != end {
        FromMask(bit, L);
        var tmp := Not(Shl(1, bit, L) - 1, L);
        a[pos] := And(a[pos], Not(tmp, L));
        pos := pos + 1;
        while pos != end
          invariant WordOf(start, L) < pos <= end < a.Length
          invariant Done(a[..], was, WordOf(start, L), pos, start, last, L, false)
        {
          TouchedPlain(was[pos], pos, start, last, L);
          a[pos] := 0;
          pos := pos + 1;
        }
        end := BitOf(start + len - 1, L);
        a[pos] := And(a[pos], Not(Shr(Below(L), L - 1 - end), L));
      } else {
        end := BitOf(start + len - 1, L);
        var tmp := And(Shl(Below(L), bit, L), Shr(Below(L), L - 1 - end));
        a[pos] := And(a[pos], Not(tmp, L));
      }
    }
    DoneAll(a[..], was, start, last, L, false);
  }

  /** No page of start .. start+len-1 is marked. */
  ghost predicate FreeRange(ws: seq<nat>, L: nat, start: nat, len: nat)
    requires L > 0
  {
    forall i | start <= i < start + len :: !Used(ws, L, i)
  }

  /** Word w of the range start .. last has no marked page of the range. */
  ghost predicate ClearWord(ws: seq<nat>, w: nat, start: nat, last: nat, L: nat)
    requires L > 0 && w < |ws|
  {
    And(ws[w], RangeMask(w, start, last, L)) == 0
  }

  lemma ClearWordPage(ws: seq<nat>, start: nat, last: nat, L: nat, i: nat)
    requires L > 0 && start <= i <= last && WordOf(i, L) < |ws|
    requires ClearWord(ws, WordOf(i, L), start, last, L)
    ensures !Used(ws, L, i)
  {
    hide RangeMask, And, Bit;
    var mask := RangeMask(WordOf(i, L), start, last, L);
    RangeMaskPage(start, last, L, i);
    BitAnd(ws[WordOf(i, L)], mask, BitOf(i, L));
    FitsBit(0, 0, BitOf(i, L));
  }

  /** A word that is not clear shows a marked page of the range. */
  lemma MarkedPage(ws: seq<nat>, w: nat, start: nat, len: nat, L: nat)
    requires L > 0 && w < |ws| && len > 0 && Wellformed(ws, L)
    requires !ClearWord(ws, w, start, start + len - 1, L)
    ensures !FreeRange(ws, L, start, len)
  {
    var mask := RangeMask(w, start, start + len - 1, L);
    if FreeRange(ws, L, start, len) {
      forall k | 0 <= k < L ensures Bit(And(ws[w], mask), k) == Bit(0, k) {
        hide And, RangeMask, Bit;
        BitAnd(ws[w], mask, k);
        RangeMaskBit(w, k, start, start + len - 1, L);
        FitsBit(0, 0, k);
        At(w, k, L);
        assert start <= w * L + k < start + len ==> !Used(ws, L, w * L + k);
      }
      FitsAnd(ws[w], mask, L);
      FitsZero(L);
      SameBits(And(ws[w], mask), 0, L);
    }
  }

  /** The words of the range from lo to hi - 1 are clear. */
  ghost predicate ClearWords(ws: seq<nat>, lo: nat, hi: nat, start: nat, last: nat, L: nat)
    requires L > 0 && hi <= |ws|
  {
    forall w | lo <= w < hi :: ClearWord(ws, w, start, last, L)
  }

  lemma AllClear(ws: seq<nat>, start: nat, last: nat, L: nat)
    requires L > 0 && start <= last && WordOf(last, L) < |ws|
    requires ClearWords(ws, WordOf(start, L), WordOf(last, L) + 1, start, last, L)
    ensures FreeRange(ws, L, start, last - start + 1)
  {
    hide ClearWord, Used;
    forall i | start <= i < last + 1 ensures !Used(ws, L, i) {
      Order(i, start, L);
      Order(last, i, L);
      ClearWordPage(ws, start, last, L, i);
    }
  }

  /** The words of RangeMask, as the program computes them. */
  lemma MaskWords(x: nat, w: nat, start: nat, last: nat, L: nat)
    requires L > 0 && start <= last && Fits(x, L)
    ensures w == WordOf(start, L) < WordOf(last, L) ==>
              RangeMask(w, start, last, L) == Shl(Below(L), BitOf(start, L), L)
    ensures WordOf(start, L) < w < WordOf(last, L) ==> And(x, RangeMask(w, start, last, L)) == x
    ensures WordOf(start, L) < WordOf(last, L) == w ==>
              RangeMask(w, start, last, L) == Shr(Below(L), L - 1 - BitOf(last, L))
    ensures w == WordOf(start, L) == WordOf(last, L) ==>
              RangeMask(w, start, last, L)
              == And(Shl(Below(L), BitOf(start, L), L), Shr(Below(L), L - 1 - BitOf(last, L)))
  {
    hide And, Not, Shl, Shr, Below, Bit;
    forall k | 0 <= k < L ensures Bit(And(x, Below(L)), k) == Bit(x, k) {
      BitAnd(x, Below(L), k);
      BitBelow(L, k);
    }
    FitsAnd(x, Below(L), L);
    SameBits(And(x, Below(L)), x, L);
  }

  /** zend_mm_bitset_is_free_range */
  method IsFreeRange(a: array<nat>, L: nat, start: nat, len: nat) returns (r: bool)
    requires Wellformed(a[..], L) && len > 0 && start + len <= Pages(a[..], L)
    ensures WordLength(L) && r == FreeRange(a[..], L, start, len)
  {
    hide Bit, Shl, Shr, Or, And, Not, Below, Fits, Pages, FreeRange, Used, RangeMask, WordOf, BitOf;
    ghost var ws, last := a[..], start + len - 1;
    Positive(L);
    InRange(ws, L, last);
    Order(last, start, L);
    var pos := WordOf(start, L);
    var end := WordOf(start + len - 1, L);
    var bit := BitOf(start, L);
    if len == 1 {
      var marked := IsSet(a, L, start);
      FreePage(ws, L, start);
      return !marked;
    }
    MaskWords(ws[pos], pos, start, last, L);
    MaskWords(ws[end], end, start, last, L);
    if pos != end {
      if And(a[pos], Shl(Below(L), bit, L)) != 0 {
        MarkedPage(ws, pos, start, len, L);
        return false;
      }
      pos := pos + 1;
      while pos != end
        invariant WordOf(start, L) < pos <= end == WordOf(last, L) < a.Length
        invariant ClearWords(ws, WordOf(start, L), pos, start, last, L)
      {
        MaskWords(ws[pos], pos, start, last, L);
        if a[pos] != 0 {
          MarkedPage(ws, pos, start, len, L);
          return false;
        }
        pos := pos + 1;
      }
      end := BitOf(start + len - 1, L);
      r := And(a[pos], Shr(Below(L), L - 1 - end)) == 0;
    } else {
      end := BitOf(start + len - 1, L);
      r := And(a[pos], And(Shl(Below(L), bit, L), Shr(Below(L), L - 1 - end))) == 0;
    }
    if r {
      AllClear(ws, start, last, L);
    } else {
      MarkedPage(ws, pos, start, len, L);
    }
  }

  lemma FreePage(ws: seq<nat>, L: nat, i: nat)
    requires L > 0
    ensures FreeRange(ws, L, i, 1) <==> !Used(ws, L, i)
  {
  }

}
