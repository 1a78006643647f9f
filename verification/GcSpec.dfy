// What the collector is for: the small runs all of whose slots are free, how many free slots a
// run has, and what is left when those runs are given back.
module GcSpec {
  import opened Sizes
  import opened PageInfo
  import opened Addresses
  import opened ChunkPages
  import opened Blocks
  import opened BlockSteps

  /** The run of p begins at page s of chunk a. */
  ghost predicate Hit(t: Tables, p: Address, a: Address, s: nat) {
    Base(p) == a && InRun(t, p, s)
  }

  /** Number of addresses in the list that lie in the run at page s of chunk a. */
  ghost function Hits(t: Tables, q: seq<Address>, a: Address, s: nat): nat {
    if q == [] then 0
    else Hits(t, q[..|q| - 1], a, s) + if Hit(t, q[|q| - 1], a, s) then 1 else 0
  }

  /** The small run at page s of chunk a, of a bin that the collector can count, has only free slots. */
  ghost predicate Dead(t: Tables, free: Lists, a: Address, s: nat) {
    && a in t && |t[a].own| == |t[a].info| == PAGES && 0 < s < PAGES && t[a].own[s] == s
    && IsSrun(t[a].info[s]) && 0 < SrunBin(t[a].info[s]) < BINS && |free| == BINS
    && Hits(t, free[SrunBin(t[a].info[s])], a, s) == BinElements(SrunBin(t[a].info[s]))
  }

  // ---- counting free slots is counting slots that are not live ------------------------------------

  ghost function HitSet(t: Tables, q: seq<Address>, a: Address, s: nat): set<Address> {
    set p | p in q && Hit(t, p, a, s)
  }

  lemma {:induction false} HitsIsSize(t: Tables, q: seq<Address>, a: Address, s: nat)
    requires Distinct(q)
    ensures Hits(t, q, a, s) == |HitSet(t, q, a, s)|
  {
    hide Hit;
    if q != [] {
      var k := |q| - 1;
      HitsIsSize(t, q[..k], a, s);
      assert q == q[..k] + [q[k]];
      assert q[k] !in q[..k];
      if Hit(t, q[k], a, s) {
        assert HitSet(t, q, a, s) == HitSet(t, q[..k], a, s) + {q[k]};
      } else {
        assert HitSet(t, q, a, s) == HitSet(t, q[..k], a, s);
      }
    }
  }

  ghost function SlotSet(a: Address, s: nat, b: nat, n: nat): set<Address>
    requires b < BINS
  {
    set k: nat | k < n :: SlotAddress(a, s, b, k)
  }

  lemma {:induction false} SlotSetSize(a: Address, s: nat, b: nat, n: nat)
    requires b < BINS
    ensures |SlotSet(a, s, b, n)| == n
  {
    hide SlotAddress;
    if n > 0 {
      SlotSetSize(a, s, b, n - 1);
      forall k: nat | k < n - 1 ensures SlotAddress(a, s, b, k) != SlotAddress(a, s, b, n - 1) {
        SlotsDiffer(a, s, b, k, n - 1);
      }
      assert SlotAddress(a, s, b, n - 1) !in SlotSet(a, s, b, n - 1);
      assert SlotSet(a, s, b, n) == SlotSet(a, s, b, n - 1) + {SlotAddress(a, s, b, n - 1)};
    }
  }

  lemma {:induction false} SubsetSize(x: set<Address>, y: set<Address>)
    requires x <= y
    ensures |x| <= |y| && (|x| == |y| ==> x == y)
  {
    if x == {} {
      if y != {} {
        var e :| e in y;
        assert |y| > 0;
      }
    } else {
      var e :| e in x;
      SubsetSize(x - {e}, y - {e});
      assert x == (x - {e}) + {e} && y == (y - {e}) + {e};
    }
  }

  /** The listed slots of a run are among its slots, so there are at most as many. */
  lemma HitsBound(t: Tables, q: seq<Address>, a: Address, s: nat, b: nat)
    requires TablesOk(t) && Distinct(q) && (forall p | p in q :: SlotOf(t, p, b))
    requires b < BINS && SmallRunAt(t, a, s, b)
    ensures Hits(t, q, a, s) <= BinElements(b)
    ensures Hits(t, q, a, s) == BinElements(b) <==>
              forall k: nat | k < BinElements(b) :: SlotAddress(a, s, b, k) in q
  {
    hide BinElements, SlotAddress, SlotOf, SmallRunAt, Hit, TablesOk;
    HitsIsSize(t, q, a, s);
    SlotSetSize(a, s, b, BinElements(b));
    var h, all := HitSet(t, q, a, s), SlotSet(a, s, b, BinElements(b));
    forall p | p in h ensures p in all {
      HitIsSlot(t, p, a, s, b);
    }
    SubsetSize(h, all);
    forall k: nat | k < BinElements(b) && SlotAddress(a, s, b, k) in q
      ensures SlotAddress(a, s, b, k) in h
    {
      SlotIsHit(t, a, s, b, k);
    }
    if h == all {
      forall k: nat | k < BinElements(b) ensures SlotAddress(a, s, b, k) in q {
        assert SlotAddress(a, s, b, k) in all;
      }
    }
    if forall k: nat | k < BinElements(b) :: SlotAddress(a, s, b, k) in q {
      assert all <= h;
    }
  }

  lemma HitIsSlot(t: Tables, p: Address, a: Address, s: nat, b: nat)
    requires TablesOk(t) && SlotOf(t, p, b) && Hit(t, p, a, s) && b < BINS && SmallRunAt(t, a, s, b)
    ensures exists k: nat :: k < BinElements(b) && p == SlotAddress(a, s, b, k)
  {
    hide OnGrid, BinElements, SlotAddress, BinPages, TableOk;
    var h: nat :| SlotIn(t, p, h, b);
    SlotEntry(t, p, h, b);
    RunSlots(t, a, s, b, p, b);
  }

  lemma SlotIsHit(t: Tables, a: Address, s: nat, b: nat, k: nat)
    requires b < BINS && SmallRunAt(t, a, s, b) && k < BinElements(b)
    ensures Hit(t, SlotAddress(a, s, b, k), a, s)
  {
    hide OnGrid, BinElements, SlotAddress, BinPages, SmallRunAt;
    SlotIsSlot(t, a, s, b, k);
  }

  /** The head of a small run carries a whole run. */
  lemma HeadIsRun(t: Tables, a: Address, s: nat)
    requires TablesOk(t) && a in t && 0 < s < PAGES
    requires |t[a].own| == |t[a].info| == PAGES && t[a].own[s] == s && IsSrun(t[a].info[s])
    ensures SmallRunAt(t, a, s, SrunBin(t[a].info[s]))
  {
    assert TableOk(a, t[a]);
    assert RunAt(t[a].own, t[a].info, s);
  }

  /** Dead runs are those without a live slot. */
  lemma DeadMeansNoneLive(t: Tables, free: Lists, huge: Ledger, live: Ledger, a: Address, s: nat)
    requires BlocksOk(t, free, huge, live) && a in t && 0 < s < PAGES
    requires |t[a].own| == |t[a].info| == PAGES && t[a].own[s] == s && IsSrun(t[a].info[s])
    requires SrunBin(t[a].info[s]) > 0
    ensures Dead(t, free, a, s) <==>
              forall p, b: nat | SlotIn(t, p, s, b) && Base(p) == a :: p !in live
  {
    hide TablesOk, NothingLost, LiveOk, BinElements, SlotAddress, OnGrid, SlotIn, IsSrun, SrunBin;
    HeadIsRun(t, a, s);
    var b := SrunBin(t[a].info[s]);
    assert b < BINS;
    HitsBound(t, free[b], a, s, b);
    forall k: nat | k < BinElements(b)
      ensures SlotIn(t, SlotAddress(a, s, b, k), s, b) && Base(SlotAddress(a, s, b, k)) == a
      ensures SlotAddress(a, s, b, k) in live <==> SlotAddress(a, s, b, k) !in free[b]
    {
      SlotFreeOrLive(t, free, live, a, s, b, k);
    }
    forall p, c: nat | SlotIn(t, p, s, c) && Base(p) == a
      ensures exists k: nat :: k < BinElements(b) && p == SlotAddress(a, s, b, k)
    {
      SlotInRunAt(t, a, s, b, p, c);
    }
  }

  lemma SlotFreeOrLive(t: Tables, free: Lists, live: Ledger, a: Address, s: nat, b: nat, k: nat)
    requires b < BINS && SmallRunAt(t, a, s, b) && k < BinElements(b)
    requires ListsOk(t, free, live) && NothingLost(t, free, live)
    ensures SlotIn(t, SlotAddress(a, s, b, k), s, b) && Base(SlotAddress(a, s, b, k)) == a
    ensures SlotAddress(a, s, b, k) in live <==> SlotAddress(a, s, b, k) !in free[b]
  {
    hide SmallRunAt, BinElements, SlotAddress, SlotIn, Distinct;
    SlotIsSlot(t, a, s, b, k);
    hide SlotOf;
  }

  lemma SlotInRunAt(t: Tables, a: Address, s: nat, b: nat, p: Address, c: nat)
    requires TablesOk(t) && b < BINS && SmallRunAt(t, a, s, b) && SlotIn(t, p, s, c) && Base(p) == a
    ensures exists k: nat :: k < BinElements(b) && p == SlotAddress(a, s, b, k)
  {
    hide OnGrid, BinElements, SlotAddress, BinPages, TablesOk;
    SlotEntry(t, p, s, c);
    RunSlots(t, a, s, b, p, c);
  }

  // ---- what is left -------------------------------------------------------------------------------------

  /** The free slot p lies in a dead run. */
  ghost predicate DeadSlot(t: Tables, free: Lists, p: Address) {
    && Base(p) in t && |t[Base(p)].own| == PAGES
    && t[Base(p)].own[PageNum(p)] > 0 && Dead(t, free, Base(p), t[Base(p)].own[PageNum(p)])
  }

  /** The list without the slots of dead runs, in the same order. */
  ghost function Survivors(t: Tables, free: Lists, q: seq<Address>): seq<Address> {
    if q == [] then []
    else Survivors(t, free, q[..|q| - 1]) + if DeadSlot(t, free, q[|q| - 1]) then [] else [q[|q| - 1]]
  }

  lemma {:induction false} SurvivorsMembers(t: Tables, free: Lists, q: seq<Address>)
    ensures forall p :: p in Survivors(t, free, q) <==> p in q && !DeadSlot(t, free, p)
    ensures Distinct(q) ==> Distinct(Survivors(t, free, q))
  {
    hide DeadSlot;
    if q != [] {
      var k := |q| - 1;
      SurvivorsMembers(t, free, q[..k]);
      assert q == q[..k] + [q[k]];
      assert Distinct(q) ==> q[k] !in q[..k];
    }
  }

  /** A chunk whose dead runs were given back, all else being kept. */
  ghost predicate Swept(t: Tables, free: Lists, a: Address, y: Table)
    requires a in t
  {
    && |t[a].own| == |t[a].info| == |y.own| == |y.info| == PAGES
    && (forall i | 0 <= i < PAGES ::
          y.own[i] == if t[a].own[i] > 0 && Dead(t, free, a, t[a].own[i]) then -1 else t[a].own[i])
    && (forall s | 0 <= s < PAGES && y.own[s] == s :: y.info[s] == t[a].info[s])
  }

  /** A chunk that has nothing but dead runs. */
  ghost predicate AllDead(t: Tables, free: Lists, a: Address)
    requires a in t
  {
    && |t[a].own| == |t[a].info| == PAGES
    && forall i | 0 <= i < PAGES && t[a].own[i] > 0 :: Dead(t, free, a, t[a].own[i])
  }

  /** t' is t after the dead runs were given back; chunks left without runs may be gone. */
  ghost predicate Collected(t: Tables, free: Lists, t': Tables) {
    && (forall a | a in t' :: a in t && Swept(t, free, a, t'[a]))
    && (forall a | a in t && a !in t' :: AllDead(t, free, a))
  }

  lemma CollectedSlot(t: Tables, free: Lists, t': Tables, p: Address, h: nat, b: nat)
    requires TablesOk(t) && Collected(t, free, t')
    ensures SlotIn(t', p, h, b) <==> SlotIn(t, p, h, b) && !DeadSlot(t, free, p)
  {
    hide OnGrid, IsSrun, SrunBin, Dead, RunAt, RunLen;
    if Base(p) in t {
      assert TableOk(Base(p), t[Base(p)]);
    }
  }

  lemma CollectedLarge(t: Tables, free: Lists, t': Tables, p: Address, n: nat)
    requires TablesOk(t) && Collected(t, free, t')
    ensures LargeOf(t', p, n) <==> LargeOf(t, p, n)
  {
    hide OnGrid, IsSrun, SrunBin, RunAt, RunLen, Hits, LrunPages;
    if Base(p) in t {
      assert TableOk(Base(p), t[Base(p)]);
    }
  }

  lemma LiveNotDead(t: Tables, free: Lists, huge: Ledger, live: Ledger, p: Address)
    requires BlocksOk(t, free, huge, live) && p in live
    ensures forall b: nat | SlotOf(t, p, b) :: !DeadSlot(t, free, p)
  {
    hide OnGrid, TableOk, ListsOk, NothingLost, LiveOk;
    forall b: nat | SlotOf(t, p, b) ensures !DeadSlot(t, free, p) {
      var h: nat :| SlotIn(t, p, h, b);
      SlotEntry(t, p, h, b);
      if DeadSlot(t, free, p) {
        DeadMeansNoneLive(t, free, huge, live, Base(p), h);
      }
    }
  }

  /** Giving back the dead runs and filtering the lists leaves every block and every live byte in place. */
  lemma CollectBlocks(t: Tables, free: Lists, t': Tables, free': Lists, huge: Ledger, live: Ledger)
    requires BlocksOk(t, free, huge, live) && TablesOk(t') && Collected(t, free, t')
    requires |free'| == BINS && forall b | 0 <= b < BINS :: free'[b] == Survivors(t, free, free[b])
    ensures BlocksOk(t', free', huge, live)
  {
    hide TableOk, Dead, Survivors, OnGrid;
    forall p, b: nat
      ensures SlotOf(t', p, b) <==> SlotOf(t, p, b) && !DeadSlot(t, free, p)
      ensures SlotOf(t', p, b) ==> b < BINS
    {
      CollectedSlots(t, free, t', p, b);
      SlotBin(t', p, b);
    }
    forall p, n: nat ensures LargeOf(t', p, n) <==> LargeOf(t, p, n) {
      CollectedLarge(t, free, t', p, n);
    }
    forall b | 0 <= b < BINS
      ensures Distinct(free'[b]) && forall p :: p in free'[b] <==> p in free[b] && !DeadSlot(t, free, p)
    {
      SurvivorsMembers(t, free, free[b]);
    }
    hide SlotOf, LargeOf, DeadSlot, Collected, Distinct;
    assert ListsOk(t', free', live) && NothingLost(t', free', live);
    forall p | p in live ensures BlockOf(t', huge, p, live[p]) {
      LiveNotDead(t, free, huge, live, p);
      assert BlockOf(t, huge, p, live[p]);
    }
  }

  lemma CollectedSlots(t: Tables, free: Lists, t': Tables, p: Address, b: nat)
    requires TablesOk(t) && Collected(t, free, t')
    ensures SlotOf(t', p, b) <==> SlotOf(t, p, b) && !DeadSlot(t, free, p)
  {
    hide SlotIn, DeadSlot, TablesOk, Collected;
    forall h: nat ensures SlotIn(t', p, h, b) <==> SlotIn(t, p, h, b) && !DeadSlot(t, free, p) {
      CollectedSlot(t, free, t', p, h, b);
    }
  }

  /** After a collection no run is dead: a second one finds nothing. */
  lemma NoneDeadAfter(t: Tables, free: Lists, t': Tables, free': Lists, huge: Ledger, live: Ledger, a: Address, s: nat)
    requires BlocksOk(t, free, huge, live) && BlocksOk(t', free', huge, live) && Collected(t, free, t')
    ensures !Dead(t', free', a, s)
  {
    hide BlocksOk, TableOk, OnGrid, Hits;
    if Dead(t', free', a, s) {
      var x := t[a];
      assert x.own[s] == s && x.info[s] == t'[a].info[s];
      assert !Dead(t, free, a, s);
      hide Swept, Dead;
      TablesFromBlocks(t, free, huge, live);
      DeadMeansNoneLive(t, free, huge, live, a, s);
      DeadMeansNoneLive(t', free', huge, live, a, s);
      forall p, b: nat | SlotIn(t, p, s, b) && Base(p) == a ensures SlotIn(t', p, s, b) {
        CollectedSlot(t, free, t', p, s, b);
      }
    }
  }

  lemma TablesFromBlocks(t: Tables, free: Lists, huge: Ledger, live: Ledger)
    requires BlocksOk(t, free, huge, live)
    ensures TablesOk(t) && ListsOk(t, free, live)
  {
  }
}
