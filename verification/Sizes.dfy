// Constants, the bin table and the size-class formula of the memory manager.
module Sizes {

  const PAGE: nat := 4096
  const PAGES: nat := 512
  const CHUNK: nat := 2097152
  const BINS: nat := 30
  const MAX_SMALL: nat := 3072
  const MAX_LARGE: nat := 2093056

  const BIN_SIZE: seq<nat> := [
    8, 16, 24, 32, 40, 48, 56, 64, 80, 96, 112, 128, 160, 192, 224, 256, 320, 384, 448, 512,
    640, 768, 896, 1024, 1280, 1536, 1792, 2048, 2560, 3072]

  const BIN_ELEMENTS: seq<nat> := [
    512, 256, 170, 128, 102, 85, 73, 64, 51, 42, 36, 32, 25, 21, 18, 16, 64, 32, 9, 8,
    32, 16, 9, 8, 16, 8, 16, 8, 8, 4]

  const BIN_PAGES: seq<nat> := [
    1, 1, 1, 1, 1, 1, 1, 1, 1, 1, 1, 1, 1, 1, 1, 1, 5, 3, 1, 1, 5, 3, 2, 2, 5, 3, 7, 4, 5, 3]

  /** Size, number of slots and number of pages of a bin. */
  function BinSize(b: nat): nat
    requires b < BINS
  {
    BIN_SIZE[b]
  }

  function BinElements(b: nat): nat
    requires b < BINS
  {
    BIN_ELEMENTS[b]
  }

  function BinPages(b: nat): nat
    requires b < BINS
  {
    BIN_PAGES[b]
  }

  /** What the carving, the collector and the accounting need to know about the table. */
  lemma BinFacts(b: nat)
    requires b < BINS
    ensures 1 <= BinPages(b) <= 7
    ensures 4 <= BinElements(b) <= 512
    ensures b > 0 ==> BinElements(b) <= 511
    ensures 8 <= BinSize(b) <= MAX_SMALL
  {
  }

  /** Bin 0 has more slots than a 9-bit counter can count. */
  lemma BinFirst()
    ensures BinElements(0) == 512
  {
  }

  /** The slots of a bin fit its pages, and one more would not. */
  lemma BinFits(b: nat)
    requires b < BINS
    ensures BinSize(b) * BinElements(b) <= BinPages(b) * PAGE < BinSize(b) * (BinElements(b) + 1)
  {
    if b < 15 {
      BinFitsLow(b);
    } else {
      BinFitsHigh(b);
    }
  }

  lemma BinFitsLow(b: nat)
    requires b < 15
    ensures BinSize(b) * BinElements(b) <= BinPages(b) * PAGE < BinSize(b) * (BinElements(b) + 1)
  {
  }

  lemma BinFitsHigh(b: nat)
    requires 15 <= b < BINS
    ensures BinSize(b) * BinElements(b) <= BinPages(b) * PAGE < BinSize(b) * (BinElements(b) + 1)
  {
  }

  // ---- the size class of a request ---------------------------------------------------------------

  /** Number of binary digits. */
  function BitLength(x: nat): nat {
    if x == 0 then 0 else 1 + BitLength(x / 2)
  }

  function Power(n: nat): (p: nat)
    ensures p > 0
  {
    if n == 0 then 1 else 2 * Power(n - 1)
  }

  lemma {:induction false} BitLengthRange(x: nat, n: nat)
    requires 0 < n && Power(n - 1) <= x < Power(n)
    ensures BitLength(x) == n
  {
    if n == 1 {
      assert x == 1 && BitLength(0) == 0;
    } else {
      assert Power(n - 1) == 2 * Power(n - 2);
      BitLengthRange(x / 2, n - 1);
    }
  }

  /**
   * The highest set bit of a 16-bit number, counted from 1 (zend_mm_small_size_to_bit): each
   * test that succeeds shifts the number up by as many bits as it takes off the count.
   */
  method SmallSizeToBit(size: nat) returns (n: nat)
    requires 0 < size < 0x10000
    ensures n == BitLength(size)
  {
    n := 16;
    var x := size;
    Powers();
    if x <= 0x00ff {
      n, x := n - 8, x * 0x100;
    }
    if x <= 0x0fff {
      n, x := n - 4, x * 0x10;
    }
    if x <= 0x3fff {
      n, x := n - 2, x * 0x4;
    }
    if x <= 0x7fff {
      n := n - 1;
    }
    BitLengthRange(size, n);
  }

  lemma Powers()
    ensures Power(0) == 1 && Power(1) == 2 && Power(2) == 4 && Power(3) == 8 && Power(4) == 16
    ensures Power(5) == 32 && Power(6) == 64 && Power(7) == 128 && Power(8) == 256 && Power(9) == 512
    ensures Power(10) == 1024 && Power(11) == 2048 && Power(12) == 4096 && Power(13) == 8192
    ensures Power(14) == 16384 && Power(15) == 32768 && Power(16) == 65536
  {
  }

  /** The least size class that holds a request. */
  ghost predicate LeastBin(size: nat, b: nat) {
    b < BINS && size <= BinSize(b) && (b > 0 ==> BinSize(b - 1) < size)
  }

  lemma LeastBinUnique(size: nat, b: nat, c: nat)
    requires LeastBin(size, b) && LeastBin(size, c)
    ensures b == c
  {
    if b < c {
      BinsIncrease(b, c - 1);
    } else if c < b {
      BinsIncrease(c, b - 1);
    }
  }

  lemma {:induction false} BinsIncrease(b: nat, c: nat)
    requires b <= c < BINS
    ensures BinSize(b) <= BinSize(c)
    decreases c - b
  {
    if b < c {
      BinsIncrease(b + 1, c);
      BinStep(b);
    }
  }

  lemma BinStep(b: nat)
    requires b < BINS - 1
    ensures BinSize(b) < BinSize(b + 1)
  {
  }

  /** From bin 4 on, four classes to each power of two. */
  lemma BinSizeFormula(b: nat)
    requires 4 <= b < BINS
    ensures BinSize(b) == (5 + b % 4) * Power(b / 4 + 2)
  {
    Powers();
  }

  /**
   * The bin of a small request (zend_mm_small_size_to_bin).  It is the least class that holds
   * the request, and above 64 bytes it wastes less than a quarter of what was asked for.
   */
  method SmallSizeToBin(size: nat) returns (b: nat)
    requires size <= MAX_SMALL
    ensures b < BINS && LeastBin(size, b)
    ensures size > 64 ==> 4 * (BinSize(b) - size) < size
  {
    hide BinSize, LeastBin, BitLength, Power;
    if size <= 64 {
      b := (if size == 0 then 0 else size - 1) / 8;
      LowBins(size, b);
    } else {
      var t1 := size - 1;
      var n := SmallSizeToBit(t1);
      BitsOf(t1);
      var t2 := n - 3;
      t1 := t1 / Power(t2);
      t2 := t2 - 3;
      t2 := t2 * 4;
      b := t1 + t2;
      HighBins(size, n, b);
    }
  }

  lemma LowBins(size: nat, b: nat)
    requires size <= 64 && b == (if size == 0 then 0 else size - 1) / 8
    ensures b < BINS && LeastBin(size, b)
  {
  }

  lemma BitsOf(x: nat)
    requires 64 <= x < MAX_SMALL
    ensures 7 <= BitLength(x) <= 12
    ensures Power(BitLength(x) - 1) <= x < Power(BitLength(x))
  {
    Powers();
    BitLengthRange(x, if x < 128 then 7 else if x < 256 then 8 else if x < 512 then 9
                      else if x < 1024 then 10 else if x < 2048 then 11 else 12);
  }

  lemma HighBins(size: nat, n: nat, b: nat)
    requires 64 < size <= MAX_SMALL && n == BitLength(size - 1) && n >= 6
    requires b == (size - 1) / Power(n - 3) + 4 * (n - 6)
    ensures b < BINS && LeastBin(size, b) && 4 * (BinSize(b) - size) < size
  {
    hide BinSize;
    BitsOf(size - 1);
    PowerStep(n - 3);
    var p, m := Power(n - 3), (size - 1) / Power(n - 3);
    Quotient(size - 1, p);
    assert b / 4 + 2 == n - 3 && b % 4 == m - 4;
    Highest(size, n, m);
    BinSizeFormula(b);
    assert BinSize(b) == (m + 1) * p;
    Lower(b, m, p);
    Distribute(m, p);
  }

  lemma Distribute(m: nat, p: nat)
    ensures (m + 1) * p == m * p + p
  {
  }

  lemma PowerStep(t: nat)
    requires t > 0
    ensures Power(t - 1) * 2 == Power(t) && Power(t + 2) == 4 * Power(t) && Power(t + 3) == 8 * Power(t)
  {
  }

  /** The leading three digits of a number between 4p and 8p. */
  lemma Quotient(x: nat, p: nat)
    requires p > 0 && 4 * p <= x < 8 * p
    ensures 4 <= x / p <= 7 && (x / p) * p <= x < (x / p) * p + p
  {
  }

  lemma Highest(size: nat, n: nat, m: nat)
    requires size <= MAX_SMALL && 7 <= n <= 12 && m <= 7
    requires m * Power(n - 3) < size
    ensures m + 4 * (n - 6) < BINS
  {
    Powers();
  }

  /** The class below holds m * p bytes. */
  lemma Lower(b: nat, m: nat, p: nat)
    requires 8 <= b < BINS && m == 4 + b % 4 && p == Power(b / 4 + 2)
    ensures BinSize(b - 1) == m * p
  {
    hide BinSize, Power;
    BinSizeFormula(b - 1);
    PowerStep(b / 4 + 2);
    assert (b - 1) % 4 == if b % 4 == 0 then 3 else b % 4 - 1;
    assert (b - 1) / 4 == if b % 4 == 0 then b / 4 - 1 else b / 4;
    if b % 4 == 0 {
      assert BinSize(b - 1) == 8 * Power(b / 4 + 1) && p == 2 * Power(b / 4 + 1);
    }
  }
}
