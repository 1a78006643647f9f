// The pages of one chunk: the bitset free_map, the page map, the two counters, and the ghost
// table that says which run owns each page.
module ChunkPages {
  import opened Sizes
  import opened PageInfo
  import opened PageBitset
  import BestFit
  import Words

  /** The bookkeeping in the first page of a chunk, without its ring links. */
  datatype Chunk = Chunk(freePages: int, freeTail: nat, num: nat, freeMap: seq<nat>, info: seq<nat>)

  /** For each page the first page of the run it belongs to, or -1 when it is free. */
  type Owners = seq<int>

  ghost predicate Head(own: Owners, s: int) {
    0 <= s < |own| && own[s] == s
  }

  /** The entries of the run that begins at page s. */
  ghost predicate RunInfo(info: seq<nat>, s: nat)
    requires s < |info|
  {
    var x := info[s];
    if IsSrun(x) then
      && !IsLrun(x) && SrunBin(x) < BINS && s + BinPages(SrunBin(x)) <= |info|
      && forall j | 1 <= j < BinPages(SrunBin(x)) :: info[s + j] == Nrun(SrunBin(x), j)
    else
      x == Lrun(LrunPages(x)) && 0 < LrunPages(x)
  }

  /** A run begins at s, with well-formed entries, and owns its pages. */
  ghost predicate RunAt(own: Owners, info: seq<nat>, s: nat)
    requires |own| == |info| == PAGES && s < PAGES
  {
    && RunInfo(info, s) && 0 < RunLen(info[s]) && s + RunLen(info[s]) <= PAGES
    && forall j | s <= j < s + RunLen(info[s]) :: own[j] == s
  }

  /** Each page is free or belongs to the run that its owner begins. */
  ghost predicate Partition(own: Owners, info: seq<nat>) {
    && |own| == |info| == PAGES
    && (forall s | 0 <= s < PAGES && own[s] == s :: RunAt(own, info, s))
    && (forall i | 0 <= i < PAGES && own[i] >= 0 ::
          own[i] <= i && own[own[i]] == own[i] && i < own[i] + RunLen(info[own[i]]))
  }

  ghost predicate SameBits(own: Owners, freeMap: seq<nat>, L: nat) {
    && Wellformed(freeMap, L) && Words.WordLength(L) && Pages(freeMap, L) == PAGES == |own|
    && forall i | 0 <= i < PAGES :: Used(freeMap, L, i) <==> own[i] >= 0
  }

  ghost function FreeCount(own: Owners): nat {
    if own == [] then 0 else FreeCount(own[..|own| - 1]) + if own[|own| - 1] < 0 then 1 else 0
  }

  /** Every run begins before the mark; a run that grew in place may extend past it. */
  ghost predicate HeadsBefore(own: Owners, tail: nat) {
    tail <= PAGES && forall s | 0 <= s < |own| && own[s] == s :: s < tail
  }

  /** No run carries a free counter: outside the collector all counters are zero. */
  ghost predicate NoCounters(own: Owners, info: seq<nat>)
    requires |own| == |info|
  {
    forall s | 0 <= s < |own| && own[s] == s && IsSrun(info[s]) :: info[s] == Srun(SrunBin(info[s]))
  }

  ghost predicate ChunkOk(c: Chunk, own: Owners, L: nat) {
    && Partition(own, c.info)
    && own[0] == 0 && c.info[0] == Lrun(1)
    && SameBits(own, c.freeMap, L)
    && c.freePages == FreeCount(own)
    && HeadsBefore(own, c.freeTail)
  }

  // ---- changing the owner of a range -----------------------------------------------------------

  function Fill(own: Owners, s: nat, n: nat, v: int): (r: Owners)
    ensures |r| == |own|
    ensures forall i | 0 <= i < |own| :: r[i] == if s <= i < s + n then v else own[i]
  {
    seq(|own|, i requires 0 <= i < |own| => if s <= i < s + n then v else own[i])
  }

  lemma {:induction false} TakeCount(own: Owners, s: nat, n: nat, v: int)
    requires s + n <= |own| && v >= 0
    requires forall i | s <= i < s + n :: own[i] < 0
    ensures FreeCount(Fill(own, s, n, v)) == FreeCount(own) - n
  {
    if own != [] {
      var k := |own| - 1;
      if s + n <= k {
        TakeCount(own[..k], s, n, v);
        assert Fill(own, s, n, v)[..k] == Fill(own[..k], s, n, v);
      } else if n == 0 {
        assert Fill(own, s, n, v) == own;
      } else {
        TakeCount(own[..k], s, n - 1, v);
        assert Fill(own, s, n, v)[..k] == Fill(own[..k], s, n - 1, v);
      }
    }
  }

  lemma FillBack(own: Owners, s: nat, n: nat, v: int)
    requires s + n <= |own|
    requires forall i | s <= i < s + n :: own[i] == v
    ensures Fill(Fill(own, s, n, -1), s, n, v) == own
  {
  }

  lemma GiveCount(own: Owners, s: nat, n: nat, v: int)
    requires s + n <= |own| && v >= 0
    requires forall i | s <= i < s + n :: own[i] == v
    ensures FreeCount(Fill(own, s, n, -1)) == FreeCount(own) + n
  {
    TakeCount(Fill(own, s, n, -1), s, n, v);
    FillBack(own, s, n, v);
  }

  // ---- taking and giving back runs -------------------------------------------------------------

  /** Marking pages s .. s+n-1 as a large run (the end of zend_mm_alloc_pages). */
  function TakeRun(c: Chunk, s: nat, n: nat, L: nat): Chunk
    requires L > 0 && n > 0 && s < |c.info|
  {
    c.(freePages := c.freePages - n,
       freeMap := SetRange(c.freeMap, s, n, L),
       info := c.info[s := Lrun(n)],
       freeTail := if s == c.freeTail then s + n else c.freeTail)
  }

  /** A run keeps its place when neither its pages nor their entries change. */
  lemma RunFrame(own: Owners, info: seq<nat>, own': Owners, info': seq<nat>, t: nat)
    requires |own| == |info| == |own'| == |info'| == PAGES && t < PAGES && RunAt(own, info, t)
    requires forall j | t <= j < t + RunLen(info[t]) :: own'[j] == t && info'[j] == info[j]
    ensures RunAt(own', info', t)
  {
    assert info'[t] == info[t];
    hide IsSrun, IsLrun, LrunPages, SrunBin, BinPages, Lrun, Nrun;
    assert IsSrun(info[t]) && SrunBin(info[t]) < BINS ==> RunLen(info[t]) == BinPages(SrunBin(info[t]));
  }

  lemma TakeRunPartition(own: Owners, info: seq<nat>, s: nat, n: nat)
    requires Partition(own, info) && 0 < n && 0 < s && s + n <= PAGES
    requires forall i | s <= i < s + n :: own[i] < 0
    ensures Partition(Fill(own, s, n, s), info[s := Lrun(n)])
    ensures NoCounters(own, info) ==> NoCounters(Fill(own, s, n, s), info[s := Lrun(n)])
  {
    hide RunInfo, RunLen;
    var own', info' := Fill(own, s, n, s), info[s := Lrun(n)];
    LargeRun(info', s, n);
    hide Lrun, IsSrun;
    forall t | 0 <= t < PAGES && own'[t] == t ensures RunAt(own', info', t) {
      if t != s {
        assert own[t] == t;
        RunFrame(own, info, own', info', t);
      }
    }
    forall i | 0 <= i < PAGES && own'[i] >= 0
      ensures own'[i] <= i && own'[own'[i]] == own'[i] && i < own'[i] + RunLen(info'[own'[i]])
    {
      if i < s || s + n <= i {
        assert own[own[i]] == own[i];
      }
    }
  }

  lemma LargeRun(info: seq<nat>, s: nat, n: nat)
    requires s < |info| && info[s] == Lrun(n) && 0 < n < 0x400
    ensures RunInfo(info, s) && RunLen(info[s]) == n && !IsSrun(info[s])
  {
    LrunFields(n);
  }

  lemma TakeRunOk(c: Chunk, own: Owners, L: nat, s: nat, n: nat)
    requires ChunkOk(c, own, L) && L > 0 && 0 < n && 0 < s && s + n <= PAGES
    requires forall i | s <= i < s + n :: own[i] < 0
    requires s <= c.freeTail
    ensures ChunkOk(TakeRun(c, s, n, L), Fill(own, s, n, s), L)
    ensures NoCounters(own, c.info) ==> NoCounters(Fill(own, s, n, s), TakeRun(c, s, n, L).info)
  {
    hide Partition, SameBits, FreeCount, NoCounters, SetRange;
    OwnersLength(c, own, L);
    TakeCount(own, s, n, s);
    SetBits(own, c.freeMap, L, s, n, s);
    TakeRunPartition(own, c.info, s, n);
  }

  lemma OwnersLength(c: Chunk, own: Owners, L: nat)
    requires ChunkOk(c, own, L)
    ensures |own| == |c.info| == PAGES
  {
  }

  lemma SetBits(own: Owners, freeMap: seq<nat>, L: nat, s: nat, n: nat, v: nat)
    requires SameBits(own, freeMap, L) && n > 0 && s + n <= PAGES && L > 0
    ensures SameBits(Fill(own, s, n, v), SetRange(freeMap, s, n, L), L)
  {
    hide Used, SetRange, Wellformed;
    RangesWellformed(freeMap, s, n, L);
    forall i | 0 <= i < PAGES
      ensures Used(SetRange(freeMap, s, n, L), L, i) <==> Fill(own, s, n, v)[i] >= 0
    {
      SetRangeUsed(freeMap, s, n, L, i);
    }
  }

  lemma ResetBits(own: Owners, freeMap: seq<nat>, L: nat, s: nat, n: nat)
    requires SameBits(own, freeMap, L) && n > 0 && s + n <= PAGES && L > 0
    ensures SameBits(Fill(own, s, n, -1), ResetRange(freeMap, s, n, L), L)
  {
    hide Used, ResetRange, Wellformed;
    RangesWellformed(freeMap, s, n, L);
    forall i | 0 <= i < PAGES
      ensures Used(ResetRange(freeMap, s, n, L), L, i) <==> Fill(own, s, n, -1)[i] >= 0
    {
      ResetRangeUsed(freeMap, s, n, L, i);
    }
  }

  /** Giving the whole run at s back (zend_mm_free_pages_ex). */
  function FreeRun(c: Chunk, s: nat, n: nat, L: nat): Chunk
    requires L > 0 && n > 0 && s < |c.info|
  {
    c.(freePages := c.freePages + n,
       freeMap := ResetRange(c.freeMap, s, n, L),
       info := c.info[s := 0],
       freeTail := if c.freeTail == s + n then s else c.freeTail)
  }

  lemma FreeRunPartition(own: Owners, info: seq<nat>, s: nat)
    requires Partition(own, info) && 0 < s && Head(own, s)
    ensures 0 < RunLen(info[s]) && s + RunLen(info[s]) <= PAGES
    ensures forall j | s <= j < s + RunLen(info[s]) :: own[j] == s
    ensures Partition(Fill(own, s, RunLen(info[s]), -1), info[s := 0])
    ensures NoCounters(own, info) ==> NoCounters(Fill(own, s, RunLen(info[s]), -1), info[s := 0])
  {
    hide RunInfo, RunLen;
    assert RunAt(own, info, s);
    var own', info' := Fill(own, s, RunLen(info[s]), -1), info[s := 0];
    hide IsSrun;
    forall t | 0 <= t < PAGES && own'[t] == t ensures RunAt(own', info', t) {
      RunFrame(own, info, own', info', t);
    }
  }

  lemma FreeRunOk(c: Chunk, own: Owners, L: nat, s: nat)
    requires ChunkOk(c, own, L) && L > 0 && 0 < s && Head(own, s)
    ensures RunLen(c.info[s]) > 0
    ensures ChunkOk(FreeRun(c, s, RunLen(c.info[s]), L), Fill(own, s, RunLen(c.info[s]), -1), L)
    ensures NoCounters(own, c.info) ==>
              NoCounters(Fill(own, s, RunLen(c.info[s]), -1), FreeRun(c, s, RunLen(c.info[s]), L).info)
  {
    hide Partition, SameBits, FreeCount, NoCounters, ResetRange, RunLen;
    OwnersLength(c, own, L);
    FreeRunPartition(own, c.info, s);
    GiveCount(own, s, RunLen(c.info[s]), s);
    ResetBits(own, c.freeMap, L, s, RunLen(c.info[s]));
  }

  // ---- resizing a large run in place ---------------------------------------------------------------

  /** The tail of the large run at s goes back, m of its n pages stay. */
  function ShrinkRun(c: Chunk, s: nat, n: nat, m: nat, L: nat): Chunk
    requires L > 0 && 0 < m < n && s < |c.info|
  {
    c.(info := c.info[s := Lrun(m)],
       freePages := c.freePages + (n - m),
       freeMap := ResetRange(c.freeMap, s + m, n - m, L))
  }

  /** The large run at s takes the free pages behind it; free_tail stays where it is. */
  function GrowRun(c: Chunk, s: nat, n: nat, m: nat, L: nat): Chunk
    requires L > 0 && 0 < n < m && s < |c.info|
  {
    c.(freePages := c.freePages - (m - n),
       freeMap := SetRange(c.freeMap, s + n, m - n, L),
       info := c.info[s := Lrun(m)])
  }

  lemma ShrinkPartition(own: Owners, info: seq<nat>, s: nat, m: nat)
    requires Partition(own, info) && Head(own, s) && !IsSrun(info[s]) && 0 < m < RunLen(info[s])
    ensures s + RunLen(info[s]) <= PAGES && forall j | s <= j < s + RunLen(info[s]) :: own[j] == s
    ensures Partition(Fill(own, s + m, RunLen(info[s]) - m, -1), info[s := Lrun(m)])
    ensures NoCounters(own, info) ==>
              NoCounters(Fill(own, s + m, RunLen(info[s]) - m, -1), info[s := Lrun(m)])
  {
    hide RunInfo, RunLen;
    assert RunAt(own, info, s);
    var n := RunLen(info[s]);
    var own', info' := Fill(own, s + m, n - m, -1), info[s := Lrun(m)];
    LargeRun(info', s, m);
    hide Lrun, IsSrun;
    forall t | 0 <= t < PAGES && own'[t] == t ensures RunAt(own', info', t) {
      if t != s {
        assert own[t] == t;
        RunFrame(own, info, own', info', t);
      }
    }
    forall i | 0 <= i < PAGES && own'[i] >= 0
      ensures own'[i] <= i && own'[own'[i]] == own'[i] && i < own'[i] + RunLen(info'[own'[i]])
    {
      assert own[own[i]] == own[i];
    }
  }

  lemma ShrinkRunOk(c: Chunk, own: Owners, L: nat, s: nat, m: nat)
    requires ChunkOk(c, own, L) && L > 0 && 0 < s && Head(own, s)
    requires !IsSrun(c.info[s]) && 0 < m < RunLen(c.info[s])
    ensures ChunkOk(ShrinkRun(c, s, RunLen(c.info[s]), m, L), Fill(own, s + m, RunLen(c.info[s]) - m, -1), L)
    ensures NoCounters(own, c.info) ==>
              NoCounters(Fill(own, s + m, RunLen(c.info[s]) - m, -1), ShrinkRun(c, s, RunLen(c.info[s]), m, L).info)
  {
    hide Partition, SameBits, FreeCount, NoCounters, ResetRange, RunLen;
    OwnersLength(c, own, L);
    ShrinkPartition(own, c.info, s, m);
    GiveCount(own, s + m, RunLen(c.info[s]) - m, s);
    ResetBits(own, c.freeMap, L, s + m, RunLen(c.info[s]) - m);
  }

  lemma GrowPartition(own: Owners, info: seq<nat>, s: nat, m: nat)
    requires Partition(own, info) && Head(own, s) && !IsSrun(info[s]) && RunLen(info[s]) < m && s + m <= PAGES
    requires forall i | s + RunLen(info[s]) <= i < s + m :: own[i] < 0
    requires s > 0
    ensures 0 < RunLen(info[s])
    ensures Partition(Fill(own, s + RunLen(info[s]), m - RunLen(info[s]), s), info[s := Lrun(m)])
    ensures NoCounters(own, info) ==>
              NoCounters(Fill(own, s + RunLen(info[s]), m - RunLen(info[s]), s), info[s := Lrun(m)])
  {
    hide RunInfo, RunLen;
    assert RunAt(own, info, s);
    var n := RunLen(info[s]);
    var own', info' := Fill(own, s + n, m - n, s), info[s := Lrun(m)];
    LargeRun(info', s, m);
    hide Lrun, IsSrun;
    forall t | 0 <= t < PAGES && own'[t] == t ensures RunAt(own', info', t) {
      if t != s {
        assert own[t] == t;
        RunFrame(own, info, own', info', t);
      }
    }
    forall i | 0 <= i < PAGES && own'[i] >= 0
      ensures own'[i] <= i && own'[own'[i]] == own'[i] && i < own'[i] + RunLen(info'[own'[i]])
    {
      if i < s + n || s + m <= i {
        assert own[own[i]] == own[i];
      }
    }
  }

  lemma GrowRunOk(c: Chunk, own: Owners, L: nat, s: nat, m: nat)
    requires ChunkOk(c, own, L) && L > 0 && 0 < s && Head(own, s)
    requires !IsSrun(c.info[s]) && RunLen(c.info[s]) < m && s + m <= PAGES
    requires forall i | s + RunLen(c.info[s]) <= i < s + m :: own[i] < 0
    ensures 0 < RunLen(c.info[s])
    ensures ChunkOk(GrowRun(c, s, RunLen(c.info[s]), m, L),
                    Fill(own, s + RunLen(c.info[s]), m - RunLen(c.info[s]), s), L)
    ensures NoCounters(own, c.info) ==>
              NoCounters(Fill(own, s + RunLen(c.info[s]), m - RunLen(c.info[s]), s),
                         GrowRun(c, s, RunLen(c.info[s]), m, L).info)
  {
    hide Partition, SameBits, FreeCount, NoCounters, SetRange, RunLen;
    OwnersLength(c, own, L);
    GrowPartition(own, c.info, s, m);
    var n := RunLen(c.info[s]);
    TakeCount(own, s + n, m - n, s);
    SetBits(own, c.freeMap, L, s + n, m - n, s);
  }

  // ---- entries of small runs --------------------------------------------------------------------------

  /** The entries of a run of bin b carved at page s (zend_mm_alloc_small_slow). */
  function CarveInfo(info: seq<nat>, s: nat, b: nat): (r: seq<nat>)
    requires b < BINS
    ensures |r| == |info|
  {
    seq(|info|, i requires 0 <= i < |info| => CarvedEntry(info, s, b, i))
  }

  function CarvedEntry(info: seq<nat>, s: nat, b: nat, i: nat): nat
    requires b < BINS && i < |info|
  {
    if i == s then Srun(b) else if s < i < s + BinPages(b) then Nrun(b, i - s) else info[i]
  }

  lemma SmallRun(info: seq<nat>, s: nat, b: nat, k: nat)
    requires b < BINS && k <= 512 && s + BinPages(b) <= |info| && 0 < BinPages(b)
    requires info[s] == SrunEx(b, k)
    requires forall j | s < j < s + BinPages(b) :: info[j] == Nrun(b, j - s)
    ensures RunInfo(info, s) && RunLen(info[s]) == BinPages(b)
    ensures IsSrun(info[s]) && !IsLrun(info[s]) && SrunBin(info[s]) == b
  {
    SrunFields(b, k);
    hide Nrun, SrunEx, IsSrun, IsLrun, BinPages;
  }

  lemma CarvePartition(own: Owners, info: seq<nat>, s: nat, b: nat)
    requires Partition(own, info) && Head(own, s) && b < BINS
    requires !IsSrun(info[s]) && RunLen(info[s]) == BinPages(b)
    ensures Partition(own, CarveInfo(info, s, b)) && RunLen(CarveInfo(info, s, b)[s]) == BinPages(b)
    ensures IsSrun(CarveInfo(info, s, b)[s]) && SrunBin(CarveInfo(info, s, b)[s]) == b
    ensures NoCounters(own, info) ==> NoCounters(own, CarveInfo(info, s, b))
  {
    hide RunInfo, RunLen, BinPages;
    assert RunAt(own, info, s);
    var info' := CarveInfo(info, s, b);
    SrunFields(b, 0);
    SmallRun(info', s, b, 0);
    hide Srun, Nrun, IsSrun;
    forall t | 0 <= t < PAGES && own[t] == t ensures RunAt(own, info', t) {
      if t != s {
        assert RunAt(own, info, t);
        RunFrame(own, info, own, info', t);
      }
    }
    SameLengths(own, info, info');
  }

  /** A partition depends on the entries only through the lengths of the runs. */
  lemma SameLengths(own: Owners, info: seq<nat>, info': seq<nat>)
    requires Partition(own, info) && |info'| == PAGES
    requires forall t | 0 <= t < PAGES && own[t] == t :: RunAt(own, info', t)
    requires forall t | 0 <= t < PAGES && own[t] == t :: RunLen(info'[t]) == RunLen(info[t])
    ensures Partition(own, info')
  {
    hide RunLen, RunAt;
    forall i | 0 <= i < PAGES && own[i] >= 0
      ensures own[i] <= i && own[own[i]] == own[i] && i < own[i] + RunLen(info'[own[i]])
    {
      assert own[own[i]] == own[i];
      assert RunLen(info'[own[i]]) == RunLen(info[own[i]]);
    }
  }

  /** Writing a free counter into the entry of a small run. */
  lemma CounterPartition(own: Owners, info: seq<nat>, s: nat, k: nat)
    requires Partition(own, info) && Head(own, s) && IsSrun(info[s]) && k <= 512
    ensures SrunBin(info[s]) < BINS
    ensures Partition(own, info[s := SrunEx(SrunBin(info[s]), k)])
    ensures RunLen(SrunEx(SrunBin(info[s]), k)) == RunLen(info[s])
    ensures IsSrun(SrunEx(SrunBin(info[s]), k)) && SrunBin(SrunEx(SrunBin(info[s]), k)) == SrunBin(info[s])
  {
    hide BinPages;
    assert RunAt(own, info, s);
    var b := SrunBin(info[s]);
    var info' := info[s := SrunEx(b, k)];
    SrunFields(b, k);
    forall j | s < j < s + BinPages(b) ensures info'[j] == Nrun(b, j - s) {
      assert info[s + (j - s)] == Nrun(b, j - s);
    }
    hide Nrun, SrunEx, IsSrun, IsLrun, SrunBin;
    SmallRun(info', s, b, k);
    hide RunInfo, RunLen;
    forall t | 0 <= t < PAGES && own[t] == t ensures RunAt(own, info', t) {
      if t != s {
        assert RunAt(own, info, t);
        RunFrame(own, info, own, info', t);
      }
    }
    SameLengths(own, info, info');
  }

  // ---- chunks without runs ----------------------------------------------------------------------------

  /** The owners of a chunk in use only for its own header. */
  function NoOwners(): (own: Owners)
    ensures |own| == PAGES && own[0] == 0
    ensures forall i | 0 < i < PAGES :: own[i] < 0
  {
    seq(PAGES, i => if i == 0 then 0 else -1)
  }

  lemma {:induction false} AllFreeCount(own: Owners)
    requires forall i | 0 <= i < |own| :: own[i] < 0
    ensures FreeCount(own) == |own|
  {
    if own != [] {
      AllFreeCount(own[..|own| - 1]);
    }
  }

  lemma {:induction false} CountBound(own: Owners)
    ensures FreeCount(own) <= |own|
  {
    if own != [] {
      CountBound(own[..|own| - 1]);
    }
  }

  /** 511 free pages: the header is the only run.  This is the program's test for an unused chunk. */
  lemma {:induction false} OnlyHeader(own: Owners)
    requires |own| > 0 && own[0] >= 0
    ensures FreeCount(own) == |own| - 1 <==> forall i | 0 < i < |own| :: own[i] < 0
    ensures FreeCount(own) < |own|
  {
    var k := |own| - 1;
    if k > 0 {
      OnlyHeader(own[..k]);
      CountBound(own[..k]);
    } else {
      assert own[..k] == [];
    }
  }

  /** zend_mm_chunk_init, apart from the ring links: only the first word and entry are written. */
  function InitChunk(num: nat, freeMap: seq<nat>, info: seq<nat>): Chunk
    requires |freeMap| > 0 && |info| > 0
  {
    Chunk(PAGES - 1, 1, num, freeMap[0 := 1], info[0 := Lrun(1)])
  }

  /** A chunk whose other words are clear is ready for use, whatever its old entries say. */
  lemma InitOk(num: nat, freeMap: seq<nat>, info: seq<nat>, L: nat)
    requires Wellformed(freeMap, L) && Pages(freeMap, L) == PAGES && |info| == PAGES && L > 0
    requires forall i | 0 < i < PAGES :: !Used(freeMap, L, i)
    ensures |freeMap| > 0
    ensures ChunkOk(InitChunk(num, freeMap, info), NoOwners(), L)
    ensures NoCounters(NoOwners(), InitChunk(num, freeMap, info).info)
  {
    assert |freeMap| > 0;
    HeaderBits(freeMap, L);
    LargeRun(info[0 := Lrun(1)], 0, 1);
    LrunFields(1);
    OnlyHeader(NoOwners());
  }

  lemma HeaderBits(freeMap: seq<nat>, L: nat)
    requires Wellformed(freeMap, L) && Pages(freeMap, L) == PAGES && |freeMap| > 0 && L > 0
    requires forall i | 0 < i < PAGES :: !Used(freeMap, L, i)
    ensures SameBits(NoOwners(), freeMap[0 := 1], L)
  {
    hide Words.Bit, Words.Fits;
    Words.FitsOne(L);
    At(0, 0, L);
    var first := freeMap[0 := 1];
    forall i | 0 <= i < PAGES ensures Used(first, L, i) <==> i == 0 {
      if i == 0 {
        OneBit(0);
      } else if WordOf(i, L) == 0 {
        FirstWord(i, L);
        OneBit(BitOf(i, L));
      } else {
        assert !Used(freeMap, L, i);
      }
    }
  }

  lemma OneBit(k: nat)
    ensures Words.Bit(1, k) <==> k == 0
  {
    if k > 0 {
      Words.FitsBit(1, 1, k);
    }
  }

  lemma FirstWord(i: nat, L: nat)
    requires L > 0 && WordOf(i, L) == 0
    ensures BitOf(i, L) == i
  {
  }

  /** A chunk taken from the cache is as good as a fresh one: same bits, counters and header entry. */
  lemma ReusedEqualsFresh(num: nat, used: Chunk, zeroed: Chunk, L: nat)
    requires L > 0 && ChunkOk(used, NoOwners(), L)
    requires Wellformed(zeroed.freeMap, L) && |zeroed.freeMap| == |used.freeMap| && |zeroed.info| == PAGES
    requires forall i | 0 <= i < PAGES :: !Used(zeroed.freeMap, L, i)
    ensures |used.freeMap| > 0
    ensures var reused, new1 := InitChunk(num, used.freeMap, used.info), InitChunk(num, zeroed.freeMap, zeroed.info);
            && reused.freeMap == new1.freeMap && reused.freePages == new1.freePages
            && reused.freeTail == new1.freeTail && reused.num == new1.num && reused.info[0] == new1.info[0]
  {
    assert |used.freeMap| > 0;
    HeaderBits(used.freeMap, L);
    HeaderBits(zeroed.freeMap, L);
    SamePages(used.freeMap[0 := 1], zeroed.freeMap[0 := 1], L);
  }

  // ---- the search in terms of owners ---------------------------------------------------------------------

  lemma MarkIsTailMark(c: Chunk, own: Owners, L: nat)
    requires ChunkOk(c, own, L) && L > 0
    ensures BestFit.TailMark(c.freeMap, L, c.freeTail) && Used(c.freeMap, L, 0)
  {
    hide Used, Pages, RunLen, RunAt;
    assert own[0] >= 0;
    forall i | c.freeTail <= i < PAGES && 0 < i && Used(c.freeMap, L, i)
      ensures Used(c.freeMap, L, i - 1)
    {
      assert own[i] >= 0 && own[own[i]] == own[i];
      OwnedBetween(own, c.info, i, i - 1);
    }
  }

  /** Pages between the first page of a run and one of its pages belong to it. */
  lemma OwnedBetween(own: Owners, info: seq<nat>, i: nat, j: nat)
    requires Partition(own, info) && i < PAGES && 0 <= own[i] <= j <= i
    ensures own[j] == own[i]
  {
    assert RunAt(own, info, own[i]);
  }

  /** The pages that the search found are free, and the mark it leaves lies after every run. */
  lemma FoundIsFree(c: Chunk, own: Owners, L: nat, n: nat, tail: nat, found: bool, s: nat)
    requires ChunkOk(c, own, L) && L > 0 && 0 < n
    requires found ==> exists e: nat :: BestFit.Best(c.freeMap, L, n, s, e)
    requires BestFit.NewMark(c.freeMap, L, n, c.freeTail, tail, found, s)
    ensures found ==> 0 < s && s + n <= PAGES && forall i | s <= i < s + n :: own[i] < 0
    ensures HeadsBefore(own, tail)
  {
    hide Used, Pages, RunLen, RunAt;
    if found {
      var e: nat :| BestFit.Best(c.freeMap, L, n, s, e);
    }
    forall t | 0 <= t < PAGES && own[t] == t ensures t < tail {
      assert Used(c.freeMap, L, t);
    }
  }

  // ---- the pages behind the mark ---------------------------------------------------------------------------

  /** All pages from the mark on are free. */
  ghost predicate TailFree(own: Owners, tail: nat) {
    forall i | tail <= i < |own| :: own[i] < 0
  }

  /** The search, and the run then taken, keep the pages behind the mark free. */
  lemma TakeKeepsTail(c: Chunk, own: Owners, L: nat, n: nat, tail: nat, found: bool, s: nat)
    requires ChunkOk(c, own, L) && L > 0 && 0 < n && TailFree(own, c.freeTail)
    requires BestFit.NewMark(c.freeMap, L, n, c.freeTail, tail, found, s) && (found ==> s + n <= tail && s < |c.info|)
    ensures !found ==> TailFree(own, tail)
    ensures found ==> TailFree(Fill(own, s, n, s), TakeRun(c.(freeTail := tail), s, n, L).freeTail)
  {
    hide Used, Partition, Wellformed, HeadsBefore, FreeCount;
    forall i | tail <= i < |own| ensures tail <= c.freeTail || own[i] < 0 {
      assert Used(c.freeMap, L, i) <==> own[i] >= 0;
    }
    forall i | tail <= i < |own| ensures own[i] < 0 || found {
      assert Used(c.freeMap, L, i) <==> own[i] >= 0;
    }
    forall i | tail <= i < |own| ensures own[i] < 0 {
      assert Used(c.freeMap, L, i) <==> own[i] >= 0;
    }
  }

  /** So do a run taken at the mark itself, a run given back, and a run cut short. */
  lemma StepsKeepTail(c: Chunk, own: Owners, L: nat, s: nat, n: nat, m: nat)
    requires L > 0 && TailFree(own, c.freeTail) && s < |c.info| && 0 < m < n
    ensures s == c.freeTail ==> TailFree(Fill(own, s, n, s), TakeRun(c, s, n, L).freeTail)
    ensures TailFree(Fill(own, s, n, -1), FreeRun(c, s, n, L).freeTail)
    ensures TailFree(Fill(own, s + m, n - m, -1), ShrinkRun(c, s, n, m, L).freeTail)
  {
  }

  /** Growth in place keeps them free just when the run does not grow past the mark. */
  lemma GrowKeepsTailExactly(c: Chunk, own: Owners, L: nat, s: nat, n: nat, m: nat)
    requires L > 0 && TailFree(own, c.freeTail) && s < |c.info| && 0 < n < m && s + m <= |own|
    ensures TailFree(Fill(own, s + n, m - n, s), GrowRun(c, s, n, m, L).freeTail) <==> s + m <= c.freeTail
  {
    var own' := Fill(own, s + n, m - n, s);
    if s + m > c.freeTail {
      assert own'[s + m - 1] == s;
    }
  }

  /** The smallest case: a chunk whose only run, page 1, grows by the page behind it. */
  lemma GrowthBreaksTail(num: nat, freeMap: seq<nat>, info: seq<nat>, L: nat)
    requires Wellformed(freeMap, L) && Pages(freeMap, L) == PAGES && |info| == PAGES && L > 0
    requires forall i | 0 < i < PAGES :: !Used(freeMap, L, i)
    ensures |freeMap| > 0
    ensures var c, own := TakeRun(InitChunk(num, freeMap, info), 1, 1, L), Fill(NoOwners(), 1, 1, 1);
            && ChunkOk(c, own, L) && TailFree(own, c.freeTail)
            && ChunkOk(GrowRun(c, 1, 1, 2, L), Fill(own, 2, 1, 1), L)
            && !TailFree(Fill(own, 2, 1, 1), GrowRun(c, 1, 1, 2, L).freeTail)
  {
    hide Partition, SameBits, HeadsBefore, FreeCount, NoCounters, SetRange, Used, Wellformed, Lrun, RunLen, IsSrun;
    InitOk(num, freeMap, info, L);
    var c0 := InitChunk(num, freeMap, info);
    TakeRunOk(c0, NoOwners(), L, 1, 1);
    var c, own := TakeRun(c0, 1, 1, L), Fill(NoOwners(), 1, 1, 1);
    LargeRun(c.info, 1, 1);
    GrowRunOk(c, own, L, 1, 2);
    GrowKeepsTailExactly(c, own, L, 1, 1, 2);
  }
}
