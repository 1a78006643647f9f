// The machine words of a page bitset.  A word is a natural number whose binary digits are
// the bits; the bitwise operators of C are the recursive functions below.  Nothing depends on
// how many bits a word has: the length L (32 or 64 in the program) is a parameter throughout.
module Words {

  /** Bit k of w. */
  predicate Bit(w: nat, k: nat)
    decreases k
  {
    if k == 0 then w % 2 == 1 else Bit(w / 2, k - 1)
  }

  /** w has no set bit at L or above. */
  predicate Fits(w: nat, L: nat)
    decreases L
  {
    if L == 0 then w == 0 else Fits(w / 2, L - 1)
  }

  function And(x: nat, y: nat): nat
    decreases x
  {
    if x == 0 then 0 else (if x % 2 == 1 && y % 2 == 1 then 1 else 0) + 2 * And(x / 2, y / 2)
  }

  function Or(x: nat, y: nat): nat
    decreases x + y
  {
    if x + y == 0 then 0 else (if x % 2 + y % 2 > 0 then 1 else 0) + 2 * Or(x / 2, y / 2)
  }

  /** ~x in words of L bits. */
  function Not(x: nat, L: nat): nat
    decreases L
  {
    if L == 0 then 0 else 1 - x % 2 + 2 * Not(x / 2, L - 1)
  }

  /** x << b in words of L bits. */
  function Shl(x: nat, b: nat, L: nat): nat
    decreases L
  {
    if L == 0 then 0
    else if b == 0 then x % 2 + 2 * Shl(x / 2, 0, L - 1)
    else 2 * Shl(x, b - 1, L - 1)
  }

  /** x >> b. */
  function Shr(x: nat, b: nat): nat
    decreases b
  {
    if b == 0 then x else Shr(x / 2, b - 1)
  }

  /** The word whose set bits are 0 .. n-1: 2^n - 1. */
  function Below(n: nat): nat
  {
    if n == 0 then 0 else 1 + 2 * Below(n - 1)
  }

  /** A word has 2, 4, 8, ... bits; the program's words have 32 or 64. */
  predicate WordLength(L: nat) {
    L == 2 || (L > 2 && L % 2 == 0 && WordLength(L / 2))
  }

  // ---- bits of the results ------------------------------------------------------------------

  lemma {:induction false} FitsBit(w: nat, L: nat, k: nat)
    requires Fits(w, L) && L <= k
    ensures !Bit(w, k)
    decreases k
  {
    if L == 0 {
      if k > 0 {
        FitsBit(w, L, k - 1);
      }
    } else {
      FitsBit(w / 2, L - 1, k - 1);
    }
  }

  lemma {:induction false} BitAnd(x: nat, y: nat, k: nat)
    ensures Bit(And(x, y), k) <==> Bit(x, k) && Bit(y, k)
    decreases k
  {
    if x == 0 {
      FitsBit(0, 0, k);
    } else if k > 0 {
      BitAnd(x / 2, y / 2, k - 1);
    }
  }

  lemma {:induction false} BitOr(x: nat, y: nat, k: nat)
    ensures Bit(Or(x, y), k) <==> Bit(x, k) || Bit(y, k)
    decreases k
  {
    if x + y == 0 {
      FitsBit(0, 0, k);
    } else if k > 0 {
      BitOr(x / 2, y / 2, k - 1);
    }
  }

  lemma {:induction false} BitNot(x: nat, L: nat, k: nat)
    ensures Bit(Not(x, L), k) <==> k < L && !Bit(x, k)
    decreases L
  {
    if L == 0 {
      FitsBit(0, 0, k);
    } else if k > 0 {
      BitNot(x / 2, L - 1, k - 1);
    }
  }

  lemma {:induction false} BitShl(x: nat, b: nat, L: nat, k: nat)
    ensures Bit(Shl(x, b, L), k) <==> b <= k < L && Bit(x, k - b)
    decreases L
  {
    if L == 0 {
      FitsBit(0, 0, k);
    } else if k > 0 {
      if b == 0 {
        BitShl(x / 2, 0, L - 1, k - 1);
      } else {
        BitShl(x, b - 1, L - 1, k - 1);
      }
    }
  }

  lemma {:induction false} BitShr(x: nat, b: nat, k: nat)
    ensures Bit(Shr(x, b), k) <==> Bit(x, b + k)
    decreases b
  {
    if b > 0 {
      BitShr(x / 2, b - 1, k);
    }
  }

  lemma {:induction false} BitBelow(n: nat, k: nat)
    ensures Bit(Below(n), k) <==> k < n
  {
    if n == 0 {
      FitsBit(0, 0, k);
    } else if k > 0 {
      BitBelow(n - 1, k - 1);
    }
  }

  /** Two words of L bits with the same bits are the same word. */
  lemma {:induction false} SameBits(x: nat, y: nat, L: nat)
    requires Fits(x, L) && Fits(y, L)
    requires forall k | 0 <= k < L :: Bit(x, k) == Bit(y, k)
    ensures x == y
    decreases L
  {
    if L > 0 {
      assert Bit(x, 0) == Bit(y, 0);
      forall k | 0 <= k < L - 1 ensures Bit(x / 2, k) == Bit(y / 2, k) {
        assert Bit(x, k + 1) == Bit(y, k + 1);
      }
      SameBits(x / 2, y / 2, L - 1);
    }
  }

  // ---- results that stay within L bits -------------------------------------------------------

  lemma FitsBelow(L: nat)
    ensures Fits(Below(L), L)
  {
  }

  lemma FitsZero(L: nat)
    ensures Fits(0, L)
  {
  }

  lemma FitsOne(L: nat)
    requires L > 0
    ensures Fits(1, L)
  {
    FitsZero(L - 1);
  }

  lemma {:induction false} FitsAnd(x: nat, y: nat, L: nat)
    requires Fits(x, L) || Fits(y, L)
    ensures Fits(And(x, y), L)
    decreases L
  {
    if x == 0 {
      FitsZero(L);
    } else if L > 0 {
      FitsAnd(x / 2, y / 2, L - 1);
    } else {
      AndZero(x);
    }
  }

  lemma {:induction false} FitsOr(x: nat, y: nat, L: nat)
    requires Fits(x, L) && Fits(y, L)
    ensures Fits(Or(x, y), L)
    decreases L
  {
    if x + y == 0 {
      FitsZero(L);
    } else if L > 0 {
      FitsOr(x / 2, y / 2, L - 1);
    }
  }

  lemma FitsNot(x: nat, L: nat)
    ensures Fits(Not(x, L), L)
  {
  }

  lemma {:induction false} FitsShl(x: nat, b: nat, L: nat)
    ensures Fits(Shl(x, b, L), L)
    decreases L
  {
    if L > 0 {
      if b == 0 {
        FitsShl(x / 2, 0, L - 1);
      } else {
        FitsShl(x, b - 1, L - 1);
      }
    }
  }

  lemma {:induction false} FitsShr(x: nat, b: nat, L: nat)
    requires Fits(x, L)
    ensures Fits(Shr(x, b), L)
    decreases b
  {
    if b > 0 && L > 0 {
      FitsMore(x / 2, L - 1);
      FitsShr(x / 2, b - 1, L);
    } else if b > 0 {
      FitsShr(x / 2, b - 1, L);
    }
  }

  lemma {:induction false} FitsMore(x: nat, L: nat)
    requires Fits(x, L)
    ensures Fits(x, L + 1)
    decreases L
  {
    if L > 0 {
      FitsMore(x / 2, L - 1);
    }
  }

  // ---- counting the trailing bits ---------------------------------------------------------------

  /** n is the number of low bits of x that equal v, the first other bit being bit n. */
  ghost predicate Trailing(x: nat, n: nat, v: bool)
  {
    Bit(x, n) != v && forall j | 0 <= j < n :: Bit(x, j) == v
  }

  /** x & (x + 1) clears the trailing ones. */
  lemma {:induction false} ClearTrailingOnes(x: nat, n: nat, k: nat)
    requires Trailing(x, n, true)
    ensures Bit(And(x, x + 1), k) <==> n <= k && Bit(x, k)
    decreases n
  {
    if n == 0 {
      assert x % 2 == 0 && (x + 1) / 2 == x / 2;
      BitAnd(x, x + 1, k);
    } else {
      assert Bit(x, 0);
      assert (x + 1) / 2 == x / 2 + 1;
      assert Trailing(x / 2, n - 1, true) by { TrailingHalf(x, n, true); }
      if k > 0 {
        ClearTrailingOnes(x / 2, n - 1, k - 1);
      }
    }
  }

  /** x | (x - 1) sets the trailing zeros. */
  lemma {:induction false} SetTrailingZeros(x: nat, n: nat, k: nat)
    requires x > 0 && Trailing(x, n, false)
    ensures Bit(Or(x, x - 1), k) <==> k <= n || Bit(x, k)
    decreases n
  {
    hide Or;
    var h := x / 2;
    if n == 0 {
      assert Bit(x, 0) && (x - 1) / 2 == h;
      BitOr(x, x - 1, k);
    } else {
      assert !Bit(x, 0) && x == 2 * h;
      assert (x - 1) / 2 == h - 1 && (x - 1) % 2 == 1;
      OrHalf(x, x - 1);
      TrailingHalf(x, n, false);
      if k > 0 {
        SetTrailingZeros(h, n - 1, k - 1);
      }
    }
  }

  lemma OrHalf(x: nat, y: nat)
    requires y % 2 == 1
    ensures Or(x, y) == 1 + 2 * Or(x / 2, y / 2)
  {
  }

  lemma TrailingHalf(x: nat, n: nat, v: bool)
    requires n > 0 && Trailing(x, n, v)
    ensures Trailing(x / 2, n - 1, v)
  {
    forall j | 0 <= j < n - 1 ensures Bit(x / 2, j) == v {
      assert Bit(x, j + 1) == v;
    }
  }

  /** w is x without its n low bits, and those all equal v. */
  ghost predicate Scanned(x: nat, w: nat, n: nat, v: bool)
  {
    && (forall j | 0 <= j < n :: Bit(x, j) == v)
    && w == Shr(x, n)
  }

  lemma {:induction false} ShrSum(x: nat, n: nat, s: nat)
    ensures Shr(Shr(x, n), s) == Shr(x, n + s)
    decreases n
  {
    if n > 0 {
      ShrSum(x / 2, n - 1, s);
    }
  }

  /** One halving step: the low s bits of w are alike, so the scan skips them. */
  lemma SkipAlike(x: nat, w: nat, n: nat, s: nat, v: bool)
    requires Scanned(x, w, n, v)
    requires And(w, Below(s)) == if v then Below(s) else 0
    ensures Scanned(x, Shr(w, s), n + s, v)
  {
    ShrSum(x, n, s);
    forall j | n <= j < n + s ensures Bit(x, j) == v {
      BitShr(x, n, j - n);
      BitAnd(w, Below(s), j - n);
      BitBelow(s, j - n);
      FitsBit(0, 0, j - n);
    }
  }

  /** If the low s + t bits are not all equal to v but the low s bits are, the next t are not. */
  lemma NotAlike(w: nat, s: nat, t: nat, v: bool)
    requires And(w, Below(s + t)) != if v then Below(s + t) else 0
    requires And(w, Below(s)) == if v then Below(s) else 0
    ensures And(Shr(w, s), Below(t)) != if v then Below(t) else 0
    decreases s
  {
    if s > 0 {
      assert Below(s + t) / 2 == Below(s + t - 1) && Below(s) / 2 == Below(s - 1);
      AndHalf(w, s + t);
      AndHalf(w, s);
      NotAlike(w / 2, s - 1, t, v);
    }
  }

  lemma AndHalf(w: nat, s: nat)
    requires s > 0
    ensures And(w, Below(s)) == w % 2 + 2 * And(w / 2, Below(s - 1))
  {
  }

  /** The low s bits of w all equal v. */
  predicate Alike(w: nat, s: nat, v: bool) {
    And(w, Below(s)) == if v then Below(s) else 0
  }

  /** One line of the binary search: test the low s bits of w and skip them if they are alike. */
  method Halve(ghost x: nat, w: nat, n: nat, s: nat, v: bool) returns (w': nat, n': nat)
    requires Scanned(x, w, n, v) && !Alike(w, s + s, v)
    ensures Scanned(x, w', n', v) && !Alike(w', s, v)
    ensures n <= n' <= n + s
  {
    w', n' := w, n;
    if Alike(w, s, v) {
      SkipAlike(x, w, n, s, v);
      NotAlike(w, s, s, v);
      w', n' := Shr(w, s), n + s;
    }
  }

  lemma AndZero(x: nat)
    ensures And(x, 0) == 0
  {
  }

  /** The last step: of two bits that are not both v, the low one decides. */
  lemma LastBit(x: nat, w: nat, n: nat, v: bool)
    requires Scanned(x, w, n, v) && !Alike(w, 2, v)
    ensures Trailing(x, if (w % 2 == 1) == v then n + 1 else n, v)
  {
    AndHalf(w, 2);
    AndHalf(w / 2, 1);
    AndZero(w / 2 / 2);
    BitShr(x, n, 0);
    BitShr(x, n, 1);
    assert Below(2) == 3 && Below(1) == 1 && Bit(w, 1) == Bit(w / 2, 0);
  }

  /** A word of L bits whose bits all equal v is the word of all ones, or zero. */
  lemma AlikeWhole(w: nat, L: nat, v: bool)
    requires Fits(w, L) && Alike(w, L, v)
    ensures w == if v then Below(L) else 0
  {
    forall k | 0 <= k < L ensures Bit(w, k) == Bit(if v then Below(L) else 0, k) {
      BitAnd(w, Below(L), k);
      BitBelow(L, k);
      FitsBit(0, 0, k);
    }
    FitsBelow(L);
    FitsZero(L);
    SameBits(w, if v then Below(L) else 0, L);
  }

  /** Number of trailing set bits of a word of 64 or 32 bits (zend_mm_bitset_nts). */
  method TrailingOnes(bitset: nat, L: nat) returns (n: nat)
    requires WordLength(L)
    requires Fits(bitset, L)
    ensures bitset == Below(L) ==> n == L
    ensures bitset != Below(L) ==> n < L && Trailing(bitset, n, true)
  {
    if bitset == Below(L) {
      return L;
    }
    var w;
    w, n := LowPair(bitset, L, true);
    LastBit(bitset, w, n, true);
    return n + w % 2;
  }

  /** Number of trailing clear bits (zend_ulong_ntz). */
  method TrailingZeros(num: nat, L: nat) returns (n: nat)
    requires WordLength(L)
    requires Fits(num, L)
    ensures num == 0 ==> n == L
    ensures num != 0 ==> n < L && Trailing(num, n, false)
  {
    if num == 0 {
      return L;
    }
    var w;
    w, n := LowPair(num, L, false);
    LastBit(num, w, n, false);
    return n + 1 - w % 2;
  }

  /**
   * The halving steps that both counts share, from L / 2 bits down to 2: the program unrolls
   * them for words of 32 and 64 bits.
   */
  method LowPair(x: nat, L: nat, v: bool) returns (w: nat, n: nat)
    requires WordLength(L)
    requires Fits(x, L) && x != if v then Below(L) else 0
    ensures n < L - 1 && Scanned(x, w, n, v) && !Alike(w, 2, v)
  {
    if Alike(x, L, v) {
      AlikeWhole(x, L, v);
    }
    var s := L;
    w, n := x, 0;
    while s > 2
      invariant WordLength(s) && n + s <= L
      invariant Scanned(x, w, n, v) && !Alike(w, s, v)
    {
      s := s / 2;
      w, n := Halve(x, w, n, s, v);
    }
  }

}
