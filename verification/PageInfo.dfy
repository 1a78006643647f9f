// The 32-bit entries of a chunk's page map.  Bit 31 marks pages of small runs, bit 30 the first
// page of a large run; pages of a small run after its first carry both.  The fields below do
// not overlap, so that the program's "or" is a sum here and its "mask and shift" a remainder of
// a quotient.
module PageInfo {
  import opened Sizes

  function Lrun(count: nat): nat {
    0x4000_0000 + count
  }

  function Srun(bin: nat): nat {
    0x8000_0000 + bin
  }

  function SrunEx(bin: nat, count: nat): nat {
    0x8000_0000 + bin + count * 0x1_0000
  }

  function Nrun(bin: nat, offset: nat): nat {
    0xc000_0000 + bin + offset * 0x1_0000
  }

  predicate IsSrun(info: nat) {
    (info / 0x8000_0000) % 2 == 1
  }

  predicate IsLrun(info: nat) {
    (info / 0x4000_0000) % 2 == 1
  }

  /** The 10 low bits. */
  function LrunPages(info: nat): nat {
    info % 0x400
  }

  /** The 5 low bits. */
  function SrunBin(info: nat): nat {
    info % 0x20
  }

  /** The 9 bits from bit 16 on, which hold a free counter or the offset inside a run. */
  function Counter(info: nat): nat {
    (info / 0x1_0000) % 0x200
  }

  lemma LrunFields(count: nat)
    requires count < 0x400
    ensures !IsSrun(Lrun(count)) && LrunPages(Lrun(count)) == count
  {
  }

  /** A counter of 512 does not fit its 9 bits: it reads back as 0. */
  lemma SrunFields(bin: nat, count: nat)
    requires bin < BINS && count <= 0x200
    ensures IsSrun(SrunEx(bin, count)) && !IsLrun(SrunEx(bin, count))
    ensures SrunBin(SrunEx(bin, count)) == bin
    ensures Counter(SrunEx(bin, count)) == if count == 0x200 then 0 else count
    ensures SrunEx(bin, 0) == Srun(bin)
  {
  }

  lemma NrunFields(bin: nat, offset: nat)
    requires bin < BINS && offset < 8
    ensures IsSrun(Nrun(bin, offset)) && IsLrun(Nrun(bin, offset))
    ensures SrunBin(Nrun(bin, offset)) == bin && Counter(Nrun(bin, offset)) == offset
  {
    var x := Nrun(bin, offset);
    assert x / 0x8000_0000 == 1 && x / 0x4000_0000 == 3 && x / 0x1_0000 == 0xc000 + offset;
    assert x == 0x20 * (0x600_0000 + offset * 0x800) + bin;
  }

  /** Number of pages of the run that begins with this entry. */
  function RunLen(info: nat): nat {
    if IsSrun(info) then (if SrunBin(info) < BINS then BinPages(SrunBin(info)) else 0)
    else LrunPages(info)
  }
}
