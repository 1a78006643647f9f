// The page search of zend_mm_alloc_pages inside one chunk: a best-fit scan over the words of the
// page bitset that stops early at the chunk's free_tail mark.
module BestFit {
  import opened Words
  import opened PageBitset

  // ---- what is searched for -------------------------------------------------------------------

  /** Pages s .. e-1 are a maximal run of free pages. */
  ghost predicate FreeRun(ws: seq<nat>, L: nat, s: nat, e: nat)
    requires L > 0
  {
    && 0 < s < e <= Pages(ws, L)
    && FreeRange(ws, L, s, e - s)
    && Used(ws, L, s - 1)
    && (e == Pages(ws, L) || Used(ws, L, e))
  }

  /** The run s .. e-1 holds n pages and no other run that does is shorter, or as short and left of it. */
  ghost predicate Best(ws: seq<nat>, L: nat, n: nat, s: nat, e: nat)
    requires L > 0
  {
    && FreeRun(ws, L, s, e) && n <= e - s
    && forall s': nat, e': nat | FreeRun(ws, L, s', e') && n <= e' - s' ::
         e - s < e' - s' || (e - s == e' - s' && s <= s')
  }

  ghost predicate NoFit(ws: seq<nat>, L: nat, n: nat)
    requires L > 0
  {
    forall s: nat, e: nat | FreeRun(ws, L, s, e) :: e - s < n
  }

  /** Any free pages lie in a maximal run. */
  lemma RunAround(ws: seq<nat>, L: nat, x: nat, y: nat) returns (s: nat, e: nat)
    requires L > 0 && 0 < x < y <= Pages(ws, L) && FreeRange(ws, L, x, y - x) && Used(ws, L, 0)
    ensures FreeRun(ws, L, s, e) && s <= x && y <= e
  {
    hide Used, Pages;
    s, e := x, y;
    while !Used(ws, L, s - 1)
      invariant 0 < s <= x && forall i | s <= i < y :: !Used(ws, L, i)
      decreases s
    {
      s := s - 1;
    }
    while e < Pages(ws, L) && !Used(ws, L, e)
      invariant y <= e <= Pages(ws, L) && forall i | s <= i < e :: !Used(ws, L, i)
    {
      e := e + 1;
    }
  }

  /**
   * At tail and beyond no marked page follows a free one: no allocation begins there after a gap.
   * The mark may be stale, that is, pages beyond it may well be in use.
   */
  ghost predicate TailMark(ws: seq<nat>, L: nat, tail: nat)
    requires L > 0
  {
    forall i | tail <= i < Pages(ws, L) && 0 < i && Used(ws, L, i) :: Used(ws, L, i - 1)
  }

  /** Past the mark, free pages go on to the end of the chunk. */
  lemma {:induction false} FreeToTheEnd(ws: seq<nat>, L: nat, tail: nat, i: nat, j: nat)
    requires L > 0 && TailMark(ws, L, tail)
    requires 0 < i && tail <= i <= j < Pages(ws, L) && !Used(ws, L, i - 1)
    ensures !Used(ws, L, j)
    decreases j - i
  {
    hide Used, Pages;
    if i < j {
      FreeToTheEnd(ws, L, tail, i, j - 1);
    }
  }

  // ---- the progress of the scan ------------------------------------------------------------------

  /** All pages of lo .. hi-1 are marked. */
  ghost predicate UsedRange(ws: seq<nat>, L: nat, lo: nat, hi: nat)
    requires L > 0
  {
    forall i | lo <= i < hi :: Used(ws, L, i)
  }

  /** tmp is word w, with the bits of the pages below f set. */
  ghost predicate Filled(tmp: nat, ws: seq<nat>, L: nat, w: nat, f: nat)
    requires L > 0
  {
    && Fits(tmp, L)
    && forall k | 0 <= k < L :: Bit(tmp, k) <==> w * L + k < f || Used(ws, L, w * L + k)
  }

  /** tmp is word w, with the bits of the pages up to p cleared. */
  ghost predicate Cleared(tmp: nat, ws: seq<nat>, L: nat, w: nat, p: nat)
    requires L > 0
  {
    && Fits(tmp, L)
    && forall k | 0 <= k < L :: Bit(tmp, k) <==> p < w * L + k && Used(ws, L, w * L + k)
  }

  lemma LoadFilled(ws: seq<nat>, L: nat, w: nat, f: nat)
    requires Wellformed(ws, L) && L > 0 && w < |ws| && f <= w * L
    ensures Filled(ws[w], ws, L, w, f)
  {
    hide Bit, Fits;
    forall k | 0 <= k < L ensures Bit(ws[w], k) <==> w * L + k < f || Used(ws, L, w * L + k) {
      At(w, k, L);
    }
  }

  lemma LoadCleared(ws: seq<nat>, L: nat, w: nat, p: nat)
    requires Wellformed(ws, L) && L > 0 && w < |ws| && p < w * L
    ensures Cleared(ws[w], ws, L, w, p)
  {
    hide Bit, Fits;
    forall k | 0 <= k < L ensures Bit(ws[w], k) <==> p < w * L + k && Used(ws, L, w * L + k) {
      At(w, k, L);
    }
  }

  /** A page of word w is bit i - w * L. */
  lemma AllOnes(ws: seq<nat>, L: nat, w: nat, f: nat, i: nat)
    requires L > 0 && Filled(Below(L), ws, L, w, f)
    requires f <= i && w * L <= i < w * L + L
    ensures Used(ws, L, i)
  {
    hide Bit, Used;
    BitBelow(L, i - w * L);
    assert w * L + (i - w * L) == i;
  }

  lemma AllZeros(ws: seq<nat>, L: nat, w: nat, p: nat, i: nat)
    requires L > 0 && Cleared(0, ws, L, w, p)
    requires p < i && w * L <= i < w * L + L
    ensures !Used(ws, L, i)
  {
    hide Bit, Used;
    FitsBit(0, 0, i - w * L);
    assert w * L + (i - w * L) == i;
  }

  /** After skipping the marked pages, k is the bit of the first free page. */
  lemma FirstFree(tmp: nat, ws: seq<nat>, L: nat, w: nat, f: nat, n: nat)
    requires L > 0 && Filled(tmp, ws, L, w, f) && n < L && Trailing(tmp, n, true)
    requires f < w * L + L && (f < w * L ==> UsedRange(ws, L, f, w * L))
    ensures f <= w * L + n && !Used(ws, L, w * L + n) && UsedRange(ws, L, f, w * L + n)
    ensures Cleared(And(tmp, tmp + 1), ws, L, w, w * L + n)
  {
    hide Bit, Used, And;
    assert !Bit(tmp, n);
    forall i | f <= i < w * L + n ensures Used(ws, L, i) {
      if w * L <= i {
        assert w * L + (i - w * L) == i && Bit(tmp, i - w * L);
      }
    }
    var rest := And(tmp, tmp + 1);
    forall k | 0 <= k < L ensures Bit(rest, k) <==> w * L + n < w * L + k && Used(ws, L, w * L + k) {
      ClearTrailingOnes(tmp, n, k);
    }
    FitsAnd(tmp, tmp + 1, L);
  }

  /** After skipping the free pages, n is the bit of the first marked one. */
  lemma FirstUsed(tmp: nat, ws: seq<nat>, L: nat, w: nat, p: nat, n: nat)
    requires L > 0 && Cleared(tmp, ws, L, w, p) && n < L && Trailing(tmp, n, false) && tmp > 0
    requires !Used(ws, L, p) && p < w * L + L && (p < w * L ==> FreeRange(ws, L, p, w * L - p))
    ensures p < w * L + n && Used(ws, L, w * L + n) && FreeRange(ws, L, p, w * L + n - p)
    ensures Filled(Or(tmp, tmp - 1), ws, L, w, w * L + n)
  {
    hide Bit, Used, Or;
    assert Bit(tmp, n);
    forall i | p <= i < w * L + n ensures !Used(ws, L, i) {
      if w * L <= i && p < i {
        assert w * L + (i - w * L) == i && !Bit(tmp, i - w * L);
      }
    }
    var rest := Or(tmp, tmp - 1);
    forall k | 0 <= k < L ensures Bit(rest, k) <==> w * L + k < w * L + n || Used(ws, L, w * L + k) {
      SetTrailingZeros(tmp, n, k);
    }
    FitsLess(tmp, tmp - 1, L);
    FitsOr(tmp, tmp - 1, L);
  }

  lemma {:induction false} FitsLess(x: nat, y: nat, L: nat)
    requires Fits(x, L) && y <= x
    ensures Fits(y, L)
    decreases L
  {
    if L > 0 {
      FitsLess(x / 2, y / 2, L - 1);
    }
  }

  // ---- the best run so far ------------------------------------------------------------------------

  /**
   * Of the free runs that end at f or before, none fits exactly, and best (if positive) is the
   * leftmost of the shortest that fit.
   */
  ghost predicate Scored(ws: seq<nat>, L: nat, n: nat, f: nat, best: int, bestLen: nat)
    requires L > 0
  {
    && (best > 0 ==> FreeRun(ws, L, best, best + bestLen) && n < bestLen && best + bestLen <= f)
    && (best <= 0 ==> bestLen == Pages(ws, L))
    && forall s: nat, e: nat | FreeRun(ws, L, s, e) && e <= f && n <= e - s ::
         best > 0 && n < e - s && (bestLen < e - s || (bestLen == e - s && best <= s))
  }

  /** A page range of marked pages contains no free run. */
  lemma NoRunInside(ws: seq<nat>, L: nat, f: nat, p: nat, s: nat, e: nat)
    requires L > 0 && FreeRun(ws, L, s, e) && f <= p && UsedRange(ws, L, f, p) && Used(ws, L, f)
    ensures e <= f || p <= s
  {
    hide Used, Pages;
    assert Used(ws, L, f) && !Used(ws, L, s);
  }

  /** The run that starts at p, the first free page after f. */
  lemma RunFrom(ws: seq<nat>, L: nat, f: nat, p: nat, e: nat)
    requires L > 0 && f < p < e <= Pages(ws, L)
    requires UsedRange(ws, L, f, p) && FreeRange(ws, L, p, e - p)
    requires e == Pages(ws, L) || Used(ws, L, e)
    ensures FreeRun(ws, L, p, e)
  {
    hide Used, Pages;
  }

  /** Two free runs that share a page are the same run. */
  lemma SameRun(ws: seq<nat>, L: nat, s: nat, e: nat, s': nat, e': nat)
    requires L > 0 && FreeRun(ws, L, s, e) && FreeRun(ws, L, s', e') && s < e' && s' < e
    ensures s == s' && e == e'
  {
    hide Used, Pages;
  }

  /** Taking the run p .. e-1 into the score moves the frontier from f to e. */
  lemma Score(ws: seq<nat>, L: nat, n: nat, f: nat, best: int, bestLen: nat, p: nat, e: nat)
    requires L > 0 && Scored(ws, L, n, f, best, bestLen) && FreeRun(ws, L, p, e)
    requires f < p && UsedRange(ws, L, f, p) && Used(ws, L, f)
    ensures e - p < n ==> Scored(ws, L, n, e, best, bestLen)
    ensures n < e - p && bestLen <= e - p ==> Scored(ws, L, n, e, best, bestLen)
    ensures n < e - p < bestLen ==> Scored(ws, L, n, e, p, e - p)
    ensures e - p == n ==> Best(ws, L, n, p, e)
  {
    hide Used, Pages, FreeRange, UsedRange;
    forall s: nat, e': nat | FreeRun(ws, L, s, e')
      ensures e' <= f || (s == p && e' == e) || e <= s
    {
      NoRunInside(ws, L, f, p, s, e');
      if s < e && p < e' {
        SameRun(ws, L, s, e', p, e);
      }
    }
  }

  // ---- the search ---------------------------------------------------------------------------------

  /**
   * What the search leaves in free_tail: the mark as it was, or a mark after which all pages are
   * free once the pages found are taken.
   */
  ghost predicate NewMark(ws: seq<nat>, L: nat, n: nat, tail: nat, tail': nat, found: bool, s: nat)
    requires L > 0
  {
    || tail' == tail
    || (tail' <= Pages(ws, L) && FreeRange(ws, L, tail', Pages(ws, L) - tail'))
    || (found && tail' == s + n <= Pages(ws, L) && FreeRange(ws, L, s, Pages(ws, L) - s))
  }

  /** The scan stands in word w, at the marked page f; the pages from f up to the word are marked. */
  ghost predicate AtUsed(tmp: nat, ws: seq<nat>, L: nat, w: nat, f: nat)
    requires L > 0
  {
    && w < |ws| && f < w * L + L && Used(ws, L, f)
    && Filled(tmp, ws, L, w, f) && UsedRange(ws, L, f, w * L)
  }

  /** The scan stands in word w and has seen only free pages since p. */
  ghost predicate AtFree(tmp: nat, ws: seq<nat>, L: nat, w: nat, p: nat)
    requires L > 0
  {
    && w < |ws| && p < w * L + L && !Used(ws, L, p)
    && Cleared(tmp, ws, L, w, p) && (p < w * L ==> FreeRange(ws, L, p, w * L - p))
  }

  lemma WordAllUsed(ws: seq<nat>, L: nat, w: nat, f: nat)
    requires L > 0 && AtUsed(Below(L), ws, L, w, f)
    ensures UsedRange(ws, L, f, (w + 1) * L) && f < (w + 1) * L
  {
    hide Used, Filled, Bit, Fits;
    assert (w + 1) * L == w * L + L;
    forall i | f <= i < w * L + L ensures Used(ws, L, i) {
      if w * L <= i {
        AllOnes(ws, L, w, f, i);
      }
    }
  }

  /** From a word with a free page on to its first free page. */
  lemma ToFree(tmp: nat, ws: seq<nat>, L: nat, w: nat, f: nat, k: nat)
    requires L > 0 && AtUsed(tmp, ws, L, w, f) && k < L && Trailing(tmp, k, true)
    ensures f < w * L + k < Pages(ws, L) && UsedRange(ws, L, f, w * L + k)
    ensures AtFree(And(tmp, tmp + 1), ws, L, w, w * L + k)
  {
    hide Used, Trailing, Filled, Cleared, And;
    FirstFree(tmp, ws, L, w, f, k);
    InWord(ws, L, w, k);
  }

  /** From a word with a marked page on to its first marked page. */
  lemma ToUsed(tmp: nat, ws: seq<nat>, L: nat, w: nat, p: nat, k: nat)
    requires L > 0 && AtFree(tmp, ws, L, w, p) && tmp > 0 && k < L && Trailing(tmp, k, false)
    ensures p < w * L + k < Pages(ws, L) && FreeRange(ws, L, p, w * L + k - p)
    ensures Used(ws, L, w * L + k) && AtUsed(Or(tmp, tmp - 1), ws, L, w, w * L + k)
  {
    hide Used, Trailing, Filled, Cleared, Or;
    FirstUsed(tmp, ws, L, w, p, k);
    InWord(ws, L, w, k);
  }

  lemma StartAtUsed(ws: seq<nat>, L: nat)
    requires Wellformed(ws, L) && |ws| > 0 && L > 0 && Used(ws, L, 0)
    ensures AtUsed(ws[0], ws, L, 0, 0)
  {
    hide Used, Filled;
    LoadFilled(ws, L, 0, 0);
  }

  lemma AtUsedFacts(tmp: nat, ws: seq<nat>, L: nat, w: nat, f: nat)
    requires L > 0 && AtUsed(tmp, ws, L, w, f)
    ensures Fits(tmp, L) && Used(ws, L, f) && f < Pages(ws, L)
  {
    Rows(w, |ws|, L);
  }

  lemma AtFreeFacts(tmp: nat, ws: seq<nat>, L: nat, w: nat, p: nat)
    requires L > 0 && AtFree(tmp, ws, L, w, p)
    ensures Fits(tmp, L)
  {
  }

  lemma InWord(ws: seq<nat>, L: nat, w: nat, k: nat)
    requires w < |ws| && k < L
    ensures w * L + k < Pages(ws, L)
  {
    Rows(w, |ws|, L);
  }

  /** The inner loop over words without a free page. */
  method SkipUsed(ws: seq<nat>, L: nat, w0: nat, tmp0: nat, ghost f: nat)
    returns (ended: bool, w: nat, tmp: nat)
    requires Wellformed(ws, L) && L > 0 && AtUsed(tmp0, ws, L, w0, f)
    ensures ended ==> UsedRange(ws, L, f, Pages(ws, L))
    ensures !ended ==> AtUsed(tmp, ws, L, w, f) && tmp != Below(L)
  {
    w, tmp := w0, tmp0;
    while tmp == Below(L)
      invariant AtUsed(tmp, ws, L, w, f)
      decreases |ws| - w
    {
      hide Used, Filled, UsedRange;
      WordAllUsed(ws, L, w, f);
      w := w + 1;
      if w == |ws| {
        return true, w, tmp;
      }
      LoadFilled(ws, L, w, f);
      tmp := ws[w];
    }
    ended := false;
  }

  /** The inner loop over words without a marked page, with its early exit at the mark. */
  method SkipFree(ws: seq<nat>, L: nat, w0: nat, tmp0: nat, p: nat, freeTail: nat)
    returns (ended: bool, w: nat, tmp: nat)
    requires Wellformed(ws, L) && L > 0 && 0 < p && AtFree(tmp0, ws, L, w0, p)
    requires TailMark(ws, L, freeTail)
    ensures ended ==> p < Pages(ws, L) && FreeRange(ws, L, p, Pages(ws, L) - p)
    ensures !ended ==> AtFree(tmp, ws, L, w, p) && tmp != 0
  {
    w, tmp := w0, tmp0;
    while tmp == 0
      invariant AtFree(tmp, ws, L, w, p)
      decreases |ws| - w
    {
      hide Used, Cleared, Bit, Fits;
      forall i | p <= i < w * L + L ensures !Used(ws, L, i) {
        if w * L <= i && p < i {
          AllZeros(ws, L, w, p, i);
        }
      }
      w := w + 1;
      Rows(w - 1, w, L);
      if freeTail <= w * L || w == |ws| {
        TailIsFree(ws, L, freeTail, w, p);
        return true, w, tmp;
      }
      LoadCleared(ws, L, w, p);
      tmp := ws[w];
    }
    ended := false;
  }

  lemma TailIsFree(ws: seq<nat>, L: nat, freeTail: nat, w: nat, p: nat)
    requires L > 0 && 0 < p < w * L && w <= |ws| && FreeRange(ws, L, p, w * L - p)
    requires TailMark(ws, L, freeTail)
    requires freeTail <= w * L || w == |ws|
    ensures p < Pages(ws, L) && FreeRange(ws, L, p, Pages(ws, L) - p)
  {
    hide Used;
    if w < |ws| {
      Rows(w, |ws|, L);
      forall i | w * L <= i < Pages(ws, L) ensures !Used(ws, L, i) {
        assert !Used(ws, L, w * L - 1);
        FreeToTheEnd(ws, L, freeTail, w * L, i);
      }
    }
  }

  lemma ScoredStart(ws: seq<nat>, L: nat, n: nat)
    requires L > 0
    ensures Scored(ws, L, n, 0, -1, Pages(ws, L))
  {
  }

  /** A run that ends inside the chunk begins before the mark. */
  lemma BeforeMark(ws: seq<nat>, L: nat, tail: nat, s: nat, e: nat)
    requires L > 0 && TailMark(ws, L, tail) && FreeRun(ws, L, s, e) && e < Pages(ws, L)
    ensures e < tail
  {
    hide Used, Pages;
    assert !Used(ws, L, e - 1);
  }

  /** The scan ran out of words: the score decides. */
  lemma ScanEnds(ws: seq<nat>, L: nat, n: nat, f: nat, best: int, bestLen: nat, tail: nat)
    requires L > 0 && Scored(ws, L, n, f, best, bestLen) && TailMark(ws, L, tail)
    requires UsedRange(ws, L, f, Pages(ws, L)) && Used(ws, L, f) && f < Pages(ws, L)
    ensures best > 0 ==> Best(ws, L, n, best, best + bestLen) && best + n <= best + bestLen < tail
    ensures best <= 0 ==> NoFit(ws, L, n)
  {
    hide Used, Pages, FreeRun, UsedRange, TailMark;
    forall s: nat, e: nat | FreeRun(ws, L, s, e) ensures e <= f {
      RunBounds(ws, L, s, e);
      NoRunInside(ws, L, f, Pages(ws, L), s, e);
    }
    if best > 0 {
      BeforeMark(ws, L, tail, best, best + bestLen);
    }
  }

  lemma RunBounds(ws: seq<nat>, L: nat, s: nat, e: nat)
    requires L > 0 && FreeRun(ws, L, s, e)
    ensures 0 < s < e <= Pages(ws, L)
  {
  }

  /** The scan met a run p that lasts to the end of the chunk. */
  lemma TailEnds(ws: seq<nat>, L: nat, n: nat, f: nat, best: int, bestLen: nat, p: nat)
    requires L > 0 && Scored(ws, L, n, f, best, bestLen) && Used(ws, L, f)
    requires f < p < Pages(ws, L) && UsedRange(ws, L, f, p) && FreeRange(ws, L, p, Pages(ws, L) - p)
    ensures n <= Pages(ws, L) - p < bestLen ==> Best(ws, L, n, p, Pages(ws, L))
    ensures !(n <= Pages(ws, L) - p < bestLen) ==>
              && (best > 0 ==> Best(ws, L, n, best, best + bestLen) && best + n <= best + bestLen < p)
              && (best <= 0 ==> NoFit(ws, L, n))
  {
    hide Used, Pages, FreeRun, UsedRange, FreeRange;
    RunFrom(ws, L, f, p, Pages(ws, L));
    forall s: nat, e: nat | FreeRun(ws, L, s, e) ensures e <= f || (s == p && e == Pages(ws, L)) {
      RunBounds(ws, L, s, e);
      NoRunInside(ws, L, f, p, s, e);
      if p < e {
        SameRun(ws, L, s, e, p, Pages(ws, L));
      }
    }
    if best > 0 {
      RunBounds(ws, L, best, best + bestLen);
    }
  }

  /**
   * The best-fit search of zend_mm_alloc_pages.  With any mark that meets TailMark, stale or not,
   * it returns the leftmost of the shortest free runs of n pages or more, and fails just when
   * there is none.
   */
  method FindPages(ws: seq<nat>, L: nat, freeTail: nat, n: nat)
    returns (found: bool, pageNum: nat, freeTail': nat)
    requires Wellformed(ws, L) && |ws| > 0 && n > 0 && L > 0
    requires Used(ws, L, 0) && TailMark(ws, L, freeTail)
    ensures found ==> exists e: nat :: Best(ws, L, n, pageNum, e)
    ensures !found ==> NoFit(ws, L, n)
    ensures NewMark(ws, L, n, freeTail, freeTail', found, pageNum)
    ensures found ==> pageNum < pageNum + n <= freeTail'
  {
    hide Used, AtUsed, AtFree, Trailing, Best, FreeRun, TailMark, FreeRange, UsedRange, NoFit, Pages, Fits;
    hide And, Or, Below, Scored;
    var best: int := -1;
    var bestLen: nat := Pages(ws, L);
    var w: nat, tmp: nat := 0, ws[0];
    freeTail' := freeTail;
    ghost var f: nat := 0;
    StartAtUsed(ws, L);
    ScoredStart(ws, L, n);
    while true
      invariant Scored(ws, L, n, f, best, bestLen) && AtUsed(tmp, ws, L, w, f)
      invariant freeTail' == freeTail
      decreases Pages(ws, L) - f
    {
      // skip allocated blocks
      AtUsedFacts(tmp, ws, L, w, f);
      var ended;
      ended, w, tmp := SkipUsed(ws, L, w, tmp, f);
      if ended {
        ScanEnds(ws, L, n, f, best, bestLen, freeTail);
        if best > 0 {
          return true, best, freeTail';
        } else {
          return false, 0, freeTail';
        }
      }
      AtUsedFacts(tmp, ws, L, w, f);
      // find first 0 bit, and reset the bits up to it
      var k := TrailingOnes(tmp, L);
      ToFree(tmp, ws, L, w, f, k);
      pageNum := w * L + k;
      tmp := And(tmp, tmp + 1);
      // skip free blocks
      ended, w, tmp := SkipFree(ws, L, w, tmp, pageNum, freeTail);
      if ended {
        var len := Pages(ws, L) - pageNum;
        TailEnds(ws, L, n, f, best, bestLen, pageNum);
        if n <= len < bestLen {
          freeTail' := pageNum + n;
          return true, pageNum, freeTail';
        } else {
          freeTail' := pageNum;
          if best > 0 {
            return true, best, freeTail';
          } else {
            return false, 0, freeTail';
          }
        }
      }
      AtFreeFacts(tmp, ws, L, w, pageNum);
      // find first 1 bit
      k := TrailingZeros(tmp, L);
      ToUsed(tmp, ws, L, w, pageNum, k);
      var len := w * L + k - pageNum;
      RunFrom(ws, L, f, pageNum, w * L + k);
      Score(ws, L, n, f, best, bestLen, pageNum, w * L + k);
      if n <= len {
        if len == n {
          BeforeMark(ws, L, freeTail, pageNum, w * L + k);
          found := true;
          return;
        } else if len < bestLen {
          bestLen := len;
          best := pageNum;
        }
      }
      // set the bits up to it
      tmp := Or(tmp, tmp - 1);
      f := w * L + k;
    }
  }

}
