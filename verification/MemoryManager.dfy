// The memory manager as the program sees it: an object whose requests change it in place.  Beside
// the heap it keeps the bytes of memory and, for every block of the program, what was last
// written there.
module MemoryManager {
  import opened Sizes
  import opened Addresses
  import opened Regions
  import opened HeapInv
  import opened HeapChunks
  import opened GcRing
  import opened HeapPages
  import opened HeapBlocks
  import opened HeapRequests
  import opened HeapSafety
  import opened HeapRealloc
  import opened HeapTotals
  import opened Memory
  import HeapHuge

  /** The values last written to the bytes of a block, by offset. */
  type Content = map<nat, nat>

  type Contents = map<Address, Content>

  /** The bytes of c are in the n bytes at p. */
  ghost predicate Intact(c: Content, m: Bytes, p: Address, n: nat) {
    forall i | i in c :: i < n && ByteAt(m, p + i) == c[i]
  }

  /** Every byte that the program wrote to one of its blocks is still there. */
  ghost predicate Faithful(known: Contents, m: Bytes, users: Ledger) {
    known.Keys == users.Keys && forall p | p in known :: Intact(known[p], m, p, users[p])
  }

  /** The first k bytes. */
  function FirstBytes(c: Content, k: nat): Content {
    map i | i in c && i < k :: c[i]
  }

  function Written(c: Content, i: nat, v: nat): Content {
    c[i := v]
  }

  lemma IntactMoved(c: Content, m: Bytes, m': Bytes, p: Address, q: Address, n0: nat, n: nat, k: nat)
    requires Intact(c, m, p, n0) && SameBytes(m, p, m', q, k) && k <= n
    ensures Intact(FirstBytes(c, k), m', q, n)
  {
    forall i | i in FirstBytes(c, k) ensures ByteAt(m', q + i) == c[i] {
      assert ByteAt(m', q + i) == ByteAt(m, p + (q + i - q));
    }
  }

  lemma IntactSame(c: Content, m: Bytes, m': Bytes, p: Address, n: nat)
    requires Intact(c, m, p, n) && SameBytes(m, p, m', p, n)
    ensures Intact(c, m', p, n)
  {
    IntactMoved(c, m, m', p, p, n, n, n);
    assert FirstBytes(c, n) == c;
  }

  lemma IntactWritten(c: Content, m: Bytes, p: Address, n: nat, i: nat, v: nat)
    requires Intact(c, m, p, n) && i < n
    ensures Intact(Written(c, i, v), m[p + i := v], p, n)
  {
  }

  lemma IntactApart(c: Content, m: Bytes, p: Address, n: nat, a: Address, v: nat)
    requires Intact(c, m, p, n) && !(p <= a < p + n)
    ensures Intact(c, m[a := v], p, n)
  {
  }

  lemma NothingKnown(m: Bytes, p: Address, n: nat)
    ensures Intact(map[], m, p, n)
  {
  }

  lemma FaithfulGrant(known: Contents, m: Bytes, users: Ledger, p: Address, n: nat)
    requires Faithful(known, m, users) && p !in users
    ensures Faithful(known[p := map[]], m, users[p := n])
  {
    hide Intact;
    NothingKnown(m, p, n);
  }

  lemma FaithfulFree(known: Contents, m: Bytes, users: Ledger, p: Address)
    requires Faithful(known, m, users)
    ensures Faithful(known - {p}, m, users - {p})
  {
    hide Intact;
  }

  lemma FaithfulMove(h0: Heap, h: Heap, m0: Bytes, m: Bytes, known: Contents, p: Address, q: Address, n: nat, k: nat)
    requires Faithful(known, m0, Users(h0)) && Moved(h0, h, p, q, n) && k <= n && k <= Users(h0)[p]
    requires BytesKept(m0, m, h, p, q, k)
    ensures p in known && Faithful((known - {p})[q := FirstBytes(known[p], k)], m, Users(h))
  {
    hide Valid, Intact, IsNode, SameBytes;
    var known' := (known - {p})[q := FirstBytes(known[p], k)];
    forall r | r in known' ensures Intact(known'[r], m, r, Users(h)[r]) {
      if r == q {
        IntactMoved(known[p], m0, m, p, q, Users(h0)[p], n, k);
      } else {
        IntactSame(known[r], m0, m, r, Users(h)[r]);
      }
    }
  }

  /** Writing inside one block reaches no byte of another. */
  lemma FaithfulWrite(h: Heap, m: Bytes, known: Contents, p: Address, i: nat, v: nat)
    requires Valid(h) && Faithful(known, m, Users(h)) && p in Users(h) && i < Users(h)[p]
    ensures p in known && Faithful(known[p := Written(known[p], i, v)], m[p + i := v], Users(h))
  {
    hide Sound, Accounts, HugeOk, Intact, IsNode, CoreOk;
    ValidSound(h);
    var known', m' := known[p := Written(known[p], i, v)], m[p + i := v];
    forall q | q in known' ensures Intact(known'[q], m', q, Users(h)[q]) {
      if q == p {
        IntactWritten(known[p], m, p, Users(h)[p], i, v);
      } else {
        LiveApart(h.core, p, q);
        IntactApart(known[q], m, q, Users(h)[q], p + i, v);
      }
    }
  }

  // ---- the object -------------------------------------------------------------------------------------------

  datatype Request =
    | Allocate(size: nat)
    | Release(ptr: Address)
    | Resize(ptr: Address, size: nat, copySize: nat)
    | Store(ptr: Address, offset: nat, value: nat)
    | Collect

  /** Lost is the end: the request has deleted the main chunk. Foreign pointers are not passed on. */
  datatype Answer = Served | Denied | Foreign | Lost

  /** The request names p as the block to give back or to resize. */
  predicate Touches(r: Request, p: Address) {
    (r.Release? && r.ptr == p) || (r.Resize? && r.ptr == p)
  }

  predicate NeverTouched(requests: seq<Request>, p: Address) {
    forall r | r in requests :: !Touches(r, p)
  }

  /** Some block of the program in the main chunk is not what the request gives back. */
  ghost predicate Spared(h: Heap, r: Request) {
    exists p :: p in Users(h) && !Touches(r, p) && InMain(h.core, p)
  }

  /**
   * What refused requests leave behind: each small one the charge for its class, each huge one that
   * the system had no memory for at most a node and a region, and the others nothing.
   */
  ghost predicate Charged(h0: Heap, h: Heap, small: nat, huge: nat) {
    && h0.stats.lost + 8 * small <= h.stats.lost <= h0.stats.lost + MAX_SMALL * small + NODE_SIZE * huge
    && (forall q | q in h0.core.leaked :: q in h.core.leaked && h.core.leaked[q] == h0.core.leaked[q])
    && |h.core.leaked| <= |h0.core.leaked| + huge
    && (huge == 0 ==> h.core.leaked == h0.core.leaked)
  }

  function Small(r: Request): nat {
    if (r.Allocate? || r.Resize?) && r.size <= MAX_SMALL then 1 else 0
  }

  function Huge(r: Request): nat {
    if (r.Allocate? || r.Resize?) && r.size > MAX_LARGE then 1 else 0
  }

  /** The heap, and what the program knows of the bytes of its blocks. */
  datatype View = View(heap: Heap, known: Contents)

  /** Chunks that hold nothing but dead runs have left the ring, the others keep their order, and no dead run is left. */
  ghost predicate Swept(h0: Heap, h: Heap) {
    h.core.ring == Remaining(T(h0.core), h0.core.free, h0.core.ring) && NothingDead(h)
  }

  /** The program has got a block for the request, and knows nothing of its bytes. */
  ghost predicate NewBlock(v: View, size: nat, w: View) {
    exists p: Address, n: nat ::
      RoundsTo(size, n) && Granted(v.heap, w.heap, p, n) && (Offset(p) == 0 <==> size > MAX_LARGE)
      && w.known == v.known[p := map[]]
  }

  /** The block at p has moved or stayed, and as much of its bytes is known as was copied. */
  ghost predicate NewPlace(v: View, p: Address, size: nat, copySize: nat, w: View) {
    exists q: Address, n: nat ::
      RoundsTo(size, n) && Moved(v.heap, w.heap, p, q, n) && (Offset(q) == 0 <==> size > MAX_LARGE)
      && w.known == (v.known - {p})[q := Carried(p, Users(v.heap), v.known, copySize)]
  }

  /** What a served request does to the heap, and to what the program knows of the bytes of its blocks. */
  ghost predicate Effect(v: View, r: Request, w: View) {
    match r
    case Allocate(size) => NewBlock(v, size, w)
    case Release(p) => if p == 0 then w == v else Freed(v.heap, w.heap, p) && w.known == v.known - {p}
    case Resize(p, size, copySize) => if p == 0 then NewBlock(v, size, w) else NewPlace(v, p, size, copySize, w)
    case Store(p, i, x) => w.heap == v.heap && p in v.known && w.known == v.known[p := Written(v.known[p], i, x)]
    case Collect => AsBefore(v.heap, w.heap) && Swept(v.heap, w.heap) && w.known == v.known
  }

  /** What is known of a block after its move: as much as was copied. */
  function Carried(p: Address, was: Ledger, knew: Contents, copySize: nat): Content {
    if p in was && p in knew then FirstBytes(knew[p], Min(was[p], copySize)) else map[]
  }

  /** What memory the system has refused during a request: a mapping, or to extend one. */
  datatype Refusals = Refusals(mapping: bool, extending: bool)

  /** The request may cost the main chunk. */
  ghost predicate MayLoseBy(h: Heap, r: Request, no: Refusals) {
    match r
    case Allocate(size) => !Anchored(h.core) && MustCollect(h, size, no.mapping)
    case Release(p) => p in Users(h) && HeapHuge.EmptiesMain(h.core, p)
    case Resize(p, size, _) => MayLose(h, p, size, no.mapping, no.extending)
    case Store(_, _, _) => false
    case Collect => !Anchored(h.core)
  }

  /** It does, unless it is denied. */
  ghost predicate MustLoseBy(h: Heap, r: Request, no: Refusals) {
    match r
    case Allocate(size) => !Anchored(h.core) && MustCollect(h, size, no.mapping)
    case Release(p) => p in Users(h) && HeapHuge.EmptiesMain(h.core, p)
    case Resize(p, size, _) => MustLose(h, p, size, no.mapping, no.extending)
    case Store(_, _, _) => false
    case Collect => !Anchored(h.core)
  }

  /** The program keeps to its own blocks, and has no more bytes copied than the new size. */
  predicate LegalFor(users: Ledger, r: Request) {
    match r
    case Allocate(size) => true
    case Release(p) => p == 0 || p in users
    case Resize(p, size, copySize) => p == 0 || (p in users && copySize <= size)
    case Store(p, i, v) => p in users && i < users[p]
    case Collect => true
  }

  /**
   * One request that did not cost the main chunk: what it was answered, whether the system refused
   * the memory it was denied, and what has changed.
   */
  ghost predicate Stepped(v: View, r: Request, answer: Answer, no: Refusals, w: View) {
    && Valid(w.heap) && SameSettings(v.heap, w.heap)
    && (LegalFor(Users(v.heap), r) && MustLoseBy(v.heap, r, no) ==>
          answer.Denied? && r.Resize? && InMain(v.heap.core, r.ptr))
    && match answer
       case Served =>
         && LegalFor(Users(v.heap), r) && Effect(v, r, w)
       case Denied =>
         && DeniedOf(v.heap, r, w.heap, no) && Users(w.heap) == Users(v.heap) && w.known == v.known
       case Foreign => !LegalFor(Users(v.heap), r) && w == v
       case Lost => false
  }

  /** A request was denied: either the system has refused memory, or the limit stands in the way of what is left. */
  ghost predicate DeniedOf(h0: Heap, r: Request, h: Heap, no: Refusals) {
    && (r.Allocate? || r.Resize?) && Refused(h0, h, r.size)
    && (!no.mapping ==> h.core.leaked == h0.core.leaked)
    && var p := if r.Resize? then r.ptr else 0;
       CollectsFor(h0, p, r.size, no.mapping, no.extending) && NoneLeftFor(h, p, r.size, no.mapping, no.extending)
  }

  /** How many small requests were refused. */
  function DeniedSmall(requests: seq<Request>, answers: seq<Answer>): nat
    requires |answers| <= |requests|
  {
    if answers == [] then 0
    else
      var k := |answers| - 1;
      DeniedSmall(requests, answers[..k]) + if answers[k].Denied? then Small(requests[k]) else 0
  }

  /** How many huge ones, for want of memory that the system refused. */
  function DeniedHuge(requests: seq<Request>, answers: seq<Answer>, refusals: seq<Refusals>): nat
    requires |refusals| == |answers| <= |requests|
  {
    if answers == [] then 0
    else
      var k := |answers| - 1;
      DeniedHuge(requests, answers[..k], refusals[..k])
      + if answers[k].Denied? && refusals[k].mapping then Huge(requests[k]) else 0
  }

  /** What was last written to a block of n bytes: by these requests, or before. */
  function Replayed(requests: seq<Request>, p: Address, n: nat, c: Content): Content {
    if requests == [] then c
    else
      var before, r := Replayed(requests[..|requests| - 1], p, n, c), requests[|requests| - 1];
      if r.Store? && r.ptr == p && r.offset < n then Written(before, r.offset, r.value) else before
  }

  class Manager {
    var core: State
    var counters: Counters
    var stats: Stats
    var hugeList: seq<HugeBlock>
    var bytes: Bytes
    var known: Contents

    function Now(): Heap
      reads this
    {
      Heap(core, counters, stats, hugeList)
    }

    function Held(): Ledger
      reads this
    {
      Users(Now())
    }

    ghost predicate Ok()
      reads this
    {
      Valid(Now()) && Faithful(known, bytes, Held())
    }

    function Seen(): View
      reads this
    {
      View(Now(), known)
    }

    /** The object over a heap without blocks. */
    constructor (h: Heap, m: Bytes)
      requires Valid(h) && Users(h) == map[]
      ensures Ok() && Now() == h && Held() == map[] && known == map[] && bytes == m
    {
      core, counters, stats, hugeList := h.core, h.counters, h.stats, h.hugeList;
      bytes, known := m, map[];
    }

    method Set(h: Heap)
      modifies `core, `counters, `stats, `hugeList
      ensures Now() == h
    {
      core, counters, stats, hugeList := h.core, h.counters, h.stats, h.hugeList;
    }

    /** emalloc */
    method Alloc(size: nat) returns (ok: bool, p: Address, ruined: bool, ghost refused: bool)
      requires Ok()
      modifies this
      ensures ruined <==> !Anchored(old(core)) && MustCollect(old(Now()), size, refused)
      ensures ruined ==> Ruined(Now())
      ensures !ruined ==> Ok() && SameSettings(old(Now()), Now()) && bytes == old(bytes)
      ensures !ruined && ok ==> exists n: nat :: RoundsTo(size, n) && Granted(old(Now()), Now(), p, n)
      ensures !ruined && ok ==> (Offset(p) == 0 <==> size > MAX_LARGE) && known == old(known)[p := map[]]
      ensures !ruined && !ok ==> Held() == old(Held()) && known == old(known)
      ensures !ruined && !ok ==> Refused(old(Now()), Now(), size) && MustCollect(old(Now()), size, refused)
      ensures !ruined && !ok ==> NoneLeft(Now(), size, refused) && (!refused ==> core.leaked == old(core.leaked))
    {
      hide NoneLeft;
      hide Valid, RoundsTo, Faithful, Ruined, Anchored, MustCollect, Granted, Refused, NothingLeaks, Users;
      var h;
      ok, h, p, ruined, refused := HeapRequests.Alloc(Now(), size);
      ghost var before := Now();
      Set(h);
      if ruined {
      } else if ok {
        ghost var n: nat :| RoundsTo(size, n) && Granted(before, h, p, n);
        GrantedFacts(before, h, p, n);
        FaithfulGrant(known, bytes, Users(before), p, n);
        known := known[p := map[]];
      } else {
        RefusedFacts(before, h, size);
      }
    }

    /** efree */
    method Free(p: Address) returns (ruined: bool)
      requires Ok() && (p == 0 || p in Held())
      modifies this
      ensures ruined <==> p != 0 && HeapHuge.EmptiesMain(old(core), p)
      ensures ruined ==> Ruined(Now())
      ensures !ruined ==> Ok() && SameSettings(old(Now()), Now()) && bytes == old(bytes)
      ensures !ruined && p != 0 ==> Freed(old(Now()), Now(), p) && known == old(known) - {p}
      ensures p == 0 ==> Now() == old(Now()) && known == old(known)
    {
      hide Valid, Faithful, HeapHuge.EmptiesMain, Ruined, Users, Freed, NothingLeaks;
      NullNotLive(Now());
      ghost var before := Now();
      ruined := p != 0 && HeapHuge.EmptiesMain(core, p);
      var h := HeapRequests.Free(Now(), p);
      Set(h);
      if !ruined {
        if p != 0 {
          FreedFacts(before, h, p);
        }
        FaithfulFree(known, bytes, Users(before), p);
        AbsentKey(Users(before), p);
        KnownKeys(known, bytes, Users(before));
        AbsentContent(known, p);
        known := known - {p};
      }
    }

    /** erealloc, which asks for no more bytes to be copied than the new size. */
    method Realloc(p: Address, size: nat, copySize: nat)
        returns (ok: bool, q: Address, ruined: bool, ghost refused: bool, ghost stuck: bool)
      requires Ok() && (p != 0 ==> p in Held() && copySize <= size)
      modifies this
      ensures ruined ==> Ruined(Now()) && MayLose(old(Now()), p, size, refused, stuck)
      ensures MustLose(old(Now()), p, size, refused, stuck) ==> !ok && (ruined || InMain(old(core), p))
      ensures !ruined ==> Ok() && SameSettings(old(Now()), Now())
      ensures !ruined && ok ==> exists n: nat ::
                RoundsTo(size, n) && if p == 0 then Granted(old(Now()), Now(), q, n) else Moved(old(Now()), Now(), p, q, n)
      ensures !ruined && ok ==> (Offset(q) == 0 <==> size > MAX_LARGE)
      ensures !ruined && ok && p != 0 ==>
                p in old(known) && known == (old(known) - {p})[q := FirstBytes(old(known)[p], Min(old(Held())[p], copySize))]
      ensures !ruined && ok && p == 0 ==> known == old(known)[q := map[]]
      ensures !ruined && !ok ==> Held() == old(Held()) && known == old(known) && bytes == old(bytes)
                                 && Refused(old(Now()), Now(), size) && CollectsFor(old(Now()), p, size, refused, stuck)
      ensures !ruined && !ok ==> NoneLeftFor(Now(), p, size, refused, stuck)
      ensures !ruined && !ok && !refused ==> core.leaked == old(core.leaked)
    {
      hide NoneLeftFor;
      hide Valid, Faithful, BytesKept, Ruined, MayLose, MustLose, CollectsFor, TakesMain;
      hide Refused, Granted, Moved, Users, RoundsTo;
      var before, m0 := Now(), bytes;
      NullNotLive(before);
      var h, m;
      ok, h, m, q, ruined, refused, stuck := HeapRealloc.Realloc(Now(), bytes, p, size, copySize);
      Set(h);
      bytes := m;
      if ruined {
      } else if !ok {
        RefusedFacts(before, h, size);
      } else if p == 0 {
        ghost var n: nat :| RoundsTo(size, n) && Granted(before, h, q, n);
        GrantedFacts(before, h, q, n);
        AbsentKey(Users(before), p);
        FaithfulGrant(known, bytes, Users(before), q, n);
        known := known[q := map[]];
      } else {
        ghost var n: nat :| RoundsTo(size, n) && Moved(before, h, p, q, n)
          && (Min(Users(before)[p], copySize) <= n ==> BytesKept(m0, m, h, p, q, Min(Users(before)[p], copySize)));
        AtLeast(size, n);
        MovedFacts(before, h, p, q, n);
        FaithfulMove(before, h, m0, m, known, p, q, n, Min(Users(before)[p], copySize));
        KnownBlock(known, m0, Users(before), p);
        var k := Min(Users(before)[p], copySize);
        known := (known - {p})[q := FirstBytes(known[p], k)];
      }
    }

    /** Reading and writing a byte of one of the program's blocks. */
    method Store(p: Address, i: nat, v: nat)
      requires Ok() && p in Held() && i < Held()[p]
      modifies `bytes, `known
      ensures Ok() && p in old(known) && known == old(known)[p := Written(old(known)[p], i, v)]
    {
      hide Valid, Faithful;
      FaithfulWrite(Now(), bytes, known, p, i, v);
      bytes := bytes[p + i := v];
      known := known[p := Written(known[p], i, v)];
    }

    /** A byte that was written reads back, whatever requests were made in between. */
    method Load(p: Address, i: nat) returns (v: nat)
      requires Ok() && p in Held()
      ensures p in known && (i in known[p] ==> v == known[p][i])
    {
      hide Valid;
      v := ByteAt(bytes, p + i);
    }

    /** zend_mm_gc */
    method Gc() returns (freed: nat, ruined: bool)
      requires Ok()
      modifies this
      ensures ruined <==> !Anchored(old(core))
      ensures ruined ==> Ruined(Now())
      ensures !ruined ==> Ok() && AsBefore(old(Now()), Now()) && Held() == old(Held())
      ensures !ruined ==> known == old(known) && bytes == old(bytes)
      ensures !ruined ==> freed == PAGE * DeadPages(T(old(core)), old(core.free), old(core.ring))
      ensures !ruined ==> Swept(old(Now()), Now())
    {
      hide Remaining;
      hide Valid, Faithful, GcDone, DeadPages, UsedPages, Users, Sound, CoreOk;
      hide LayoutOk, T, Anchored, AsBefore, MainGone, Tidy;
      ghost var before := Now();
      ValidSound(before);
      var h;
      h, freed, ruined := GcRing.Gc(Now());
      Set(h);
      if !ruined {
        GcIsAsBefore(before, h);
        SecondGcFindsNothing(before, h);
        RingAfter(before, h);
        SameHeld(before, h);
      }
    }

    /**
     * One request of the program.  It ends with the loss of the main chunk only under MayLoseBy, so
     * never while another block of the program is there; unless it is denied, it loses and leaks nothing.
     */
    method Serve(r: Request) returns (answer: Answer, ghost no: Refusals)
      requires Ok()
      modifies this
      ensures answer.Lost? ==> Ruined(Now()) && MayLoseBy(old(Now()), r, no) && !Spared(old(Now()), r)
      ensures old(LegalFor(Held(), r)) && MustLoseBy(old(Now()), r, no) ==>
                answer.Lost? || (answer.Denied? && r.Resize? && InMain(old(core), r.ptr))
      ensures !answer.Lost? ==> Ok() && Stepped(old(Seen()), r, answer, no, Seen())
      ensures answer.Denied? || answer.Foreign? ==> bytes == old(bytes)
    {
      hide Valid, Faithful, Ruined, Users, Spared, Charged, RoundsTo, Refused, NothingLeaks, Anchored;
      hide HeapHuge.EmptiesMain, MustCollect, MayLose, MustLose, FitsInPlace, Grows, DeadPages, FirstBytes;
      ghost var before := Now();
      NothingCharged(before, Now());
      NullNotLive(before);
      forall no: Refusals ensures Spared(before, r) ==> !MayLoseBy(before, r, no) {
        SparedKeeps(before, r, no);
      }
      no := Refusals(false, false);
      if !LegalFor(Held(), r) {
        return Foreign, no;
      }
      answer := Served;
      match r {
        case Allocate(size) =>
          var ok, p, ruined;
          ghost var refused;
          ok, p, ruined, refused := Alloc(size);
          no := Refusals(refused, false);
          answer := if ruined then Lost else if ok then Served else Denied;
          if answer.Denied? {
            RefusedFacts(before, Now(), size);
          }
        case Release(p) =>
          var ruined := Free(p);
          answer := if ruined then Lost else Served;
        case Resize(p, size, copySize) =>
          KnownKeys(known, bytes, Held());
          var ok, q, ruined;
          ghost var refused, stuck;
          ok, q, ruined, refused, stuck := Realloc(p, size, copySize);
          no := Refusals(refused, stuck);
          answer := if ruined then Lost else if ok then Served else Denied;
          if answer.Denied? {
            RefusedFacts(before, Now(), size);
          }
        case Store(p, i, v) =>
          Store(p, i, v);
        case Collect =>
          var freed, ruined := Gc();
          answer := if ruined then Lost else Served;
          if answer.Served? {
            SameHeld(before, Now());
          }
      }
    }

    /**
     * Every run: all that a valid heap promises holds after any requests in any order, until one
     * of them deletes the main chunk; that never happens while the program keeps another block
     * there.  The trace shows each step.  A block that the program neither gives back nor resizes
     * keeps its place and size, and holds what was last written to it.  Small requests that were
     * refused are charged for, huge ones may leak if the system has no memory for them, and nothing
     * else is lost or leaked.
     */
    method Run(requests: seq<Request>)
        returns (answers: seq<Answer>, ghost refusals: seq<Refusals>, ghost trace: seq<View>)
      requires Ok()
      modifies this
      ensures |refusals| == |answers| <= |requests| && |trace| == |answers| + 1 && trace[0] == old(Seen())
      ensures forall i | 0 <= i < |answers| :: Stepped(trace[i], requests[i], answers[i], refusals[i], trace[i + 1])
      ensures var n := |answers|; n < |requests| ==>
                && Ruined(Now()) && !Spared(trace[n].heap, requests[n])
                && exists no :: MayLoseBy(trace[n].heap, requests[n], no)
      ensures (exists p :: p in old(Held()) && InMain(old(core), p) && NeverTouched(requests, p)) ==> |answers| == |requests|
      ensures |answers| == |requests| ==> Ok() && trace[|answers|] == Seen() && SameSettings(old(Now()), Now())
      ensures |answers| == |requests| ==>
                Charged(old(Now()), Now(), DeniedSmall(requests, answers), DeniedHuge(requests, answers, refusals))
      ensures |answers| == |requests| && DeniedHuge(requests, answers, refusals) == 0 ==>
                (Exact(Now()) <==> Exact(old(Now())) && DeniedSmall(requests, answers) == 0)
      ensures |answers| == |requests| ==> forall p | p in old(Held()) && NeverTouched(requests, p) ::
                && p in Held() && Held()[p] == old(Held())[p]
                && p in known && p in old(known) && known[p] == Replayed(requests, p, Held()[p], old(known)[p])
    {
      hide Valid, Faithful, Ruined, Users, Charged, Effect, Replayed, Written, Stepped, DeniedSmall, DeniedHuge;
      hide Exact, Followed, MayLoseBy, MustLoseBy, Refused, Spared;
      answers, refusals, trace := [], [], [Seen()];
      NothingCharged(Now(), Now());
      NothingDenied(requests);
      NothingReplayed(Held(), known, bytes, requests);
      while |answers| < |requests|
        invariant |refusals| == |answers| <= |requests| && |trace| == |answers| + 1
        invariant trace[0] == old(Seen()) && trace[|answers|] == Seen()
        invariant forall i | 0 <= i < |answers| :: Stepped(trace[i], requests[i], answers[i], refusals[i], trace[i + 1])
        invariant Ok() && SameSettings(old(Now()), Now())
        invariant Charged(old(Now()), Now(), DeniedSmall(requests, answers), DeniedHuge(requests, answers, refusals))
        invariant Followed(requests, |answers|, old(Held()), old(known), Held(), known)
        decreases |requests| - |answers|
      {
        ghost var before, n := Seen(), |answers|;
        KnownKeys(known, bytes, Held());
        var r := requests[|answers|];
        var answer;
        ghost var no;
        answer, no := Serve(r);
        if answer.Lost? {
          NotSpared(before.heap, requests, n);
          FollowedHeld(requests, n, old(Held()), old(known), Users(before.heap), before.known);
          return;
        }
        FollowedNext(requests, n, old(Held()), old(known), before, Seen(), answer, no);
        ChargedNext(old(Now()), before, Seen(), requests, answers, refusals, answer, no);
        answers, refusals, trace := answers + [answer], refusals + [no], trace + [Seen()];
      }
      assert requests[..|answers|] == requests;
      FollowedHeld(requests, |answers|, old(Held()), old(known), Held(), known);
      ExactAfter(old(Now()), Now(), DeniedSmall(requests, answers));
    }
  }

  // ---- runs -------------------------------------------------------------------------------------------------

  /** After the first n requests: the blocks that none of them touches, and what is known of them. */
  ghost predicate Followed(requests: seq<Request>, n: nat, was: Ledger, knew: Contents, now: Ledger, known: Contents)
    requires n <= |requests|
  {
    forall p | p in was && NeverTouched(requests, p) ::
      && p in now && now[p] == was[p] && p in knew && p in known
      && known[p] == Replayed(requests[..n], p, was[p], knew[p])
  }

  lemma NothingReplayed(held: Ledger, known: Contents, m: Bytes, requests: seq<Request>)
    requires Faithful(known, m, held)
    ensures Followed(requests, 0, held, known, held, known)
  {
    hide Intact;
  }

  lemma KnownKeys(known: Contents, m: Bytes, users: Ledger)
    requires Faithful(known, m, users)
    ensures known.Keys == users.Keys
  {
    hide Intact;
  }

  lemma FollowedHeld(requests: seq<Request>, n: nat, was: Ledger, knew: Contents, now: Ledger, known: Contents)
    requires n <= |requests| && Followed(requests, n, was, knew, now, known)
    ensures forall p | p in was && NeverTouched(requests, p) ::
              && p in now && now[p] == was[p] && p in knew && p in known
              && known[p] == Replayed(requests[..n], p, was[p], knew[p])
  {
    hide Replayed;
  }

  /** One request leaves alone what it does not touch, but for what it writes there. */
  lemma EffectKeeps(v: View, r: Request, w: View, p: Address)
    requires LegalFor(Users(v.heap), r) && Effect(v, r, w) && p in Users(v.heap) && p in v.known && !Touches(r, p)
    ensures p in Users(w.heap) && Users(w.heap)[p] == Users(v.heap)[p] && p in w.known
    ensures w.known[p] == if r.Store? && r.ptr == p then Written(v.known[p], r.offset, r.value) else v.known[p]
  {
    hide RoundsTo, Written, Carried, Users, Granted, Freed, Moved, AsBefore, Swept, NewBlock, NewPlace;
    match r
    case Allocate(size) => NewBlockKeeps(v, size, w, p);
    case Release(q) =>
      if q != 0 {
        FreedFacts(v.heap, w.heap, q);
      }
    case Resize(q, size, copySize) =>
      if q == 0 {
        NewBlockKeeps(v, size, w, p);
      } else {
        NewPlaceKeeps(v, q, size, copySize, w, p);
      }
    case Store(q, i, x) =>
    case Collect => SameHeld(v.heap, w.heap);
  }

  lemma NewBlockKeeps(v: View, size: nat, w: View, p: Address)
    requires NewBlock(v, size, w) && p in Users(v.heap) && p in v.known
    ensures p in Users(w.heap) && Users(w.heap)[p] == Users(v.heap)[p] && p in w.known && w.known[p] == v.known[p]
  {
    hide RoundsTo, Users, Granted;
    var q: Address, n: nat :| Granted(v.heap, w.heap, q, n) && w.known == v.known[q := map[]];
    GrantedFacts(v.heap, w.heap, q, n);
  }

  lemma NewPlaceKeeps(v: View, p: Address, size: nat, copySize: nat, w: View, r: Address)
    requires NewPlace(v, p, size, copySize, w) && r in Users(v.heap) && r in v.known && r != p
    ensures r in Users(w.heap) && Users(w.heap)[r] == Users(v.heap)[r] && r in w.known && w.known[r] == v.known[r]
  {
    hide RoundsTo, Users, Moved, Carried;
    var q: Address, n: nat :| Moved(v.heap, w.heap, p, q, n)
                              && w.known == (v.known - {p})[q := Carried(p, Users(v.heap), v.known, copySize)];
    MovedFacts(v.heap, w.heap, p, q, n);
  }

  /** A served request loses and leaks nothing. */
  lemma EffectCharge(v: View, r: Request, w: View)
    requires Effect(v, r, w)
    ensures Charged(v.heap, w.heap, 0, 0)
  {
    hide RoundsTo, Written, Carried, Users, Valid, Swept, SameSettings, StillLive, ZerosKept, PeaksFollow, ChunkPeakFollows;
  }

  lemma FollowedNext(requests: seq<Request>, n: nat, was: Ledger, knew: Contents, v: View, w: View,
                     answer: Answer, no: Refusals)
    requires n < |requests| && Followed(requests, n, was, knew, Users(v.heap), v.known)
    requires Stepped(v, requests[n], answer, no, w)
    ensures Followed(requests, n + 1, was, knew, Users(w.heap), w.known)
  {
    hide Effect, Written, Valid, Users, Charged, Refused, CollectsFor;
    var r := requests[n];
    assert requests[..n + 1][..n] == requests[..n] && requests[..n + 1][n] == r;
    forall p | p in was && NeverTouched(requests, p)
      ensures p in Users(w.heap) && Users(w.heap)[p] == was[p] && p in knew && p in w.known
      ensures w.known[p] == Replayed(requests[..n + 1], p, was[p], knew[p])
    {
      assert !Touches(r, p);
      if answer.Served? {
        EffectKeeps(v, r, w, p);
      }
    }
  }

  lemma NothingDenied(requests: seq<Request>)
    ensures DeniedSmall(requests, []) == DeniedHuge(requests, [], []) == 0
  {
  }

  /** What one request leaves behind. */
  lemma SteppedCharge(v: View, r: Request, answer: Answer, no: Refusals, w: View)
    requires Stepped(v, r, answer, no, w)
    ensures SameSettings(v.heap, w.heap)
    ensures Charged(v.heap, w.heap, if answer.Denied? then Small(r) else 0,
                    if answer.Denied? && no.mapping then Huge(r) else 0)
  {
    hide Valid, Users, Effect, Refused, CollectsFor, NoneLeftFor, Swept, Charged;
    if answer.Denied? {
      RefusedCharge(v.heap, w.heap, r.size, no.mapping);
    } else if answer.Served? {
      EffectCharge(v, r, w);
    } else {
      NothingCharged(v.heap, w.heap);
    }
  }

  lemma DeniedNext(requests: seq<Request>, answers: seq<Answer>, refusals: seq<Refusals>, answer: Answer, no: Refusals)
    requires |refusals| == |answers| < |requests|
    ensures var r := requests[|answers|];
            && DeniedSmall(requests, answers + [answer])
                 == DeniedSmall(requests, answers) + (if answer.Denied? then Small(r) else 0)
            && DeniedHuge(requests, answers + [answer], refusals + [no])
                 == DeniedHuge(requests, answers, refusals) + if answer.Denied? && no.mapping then Huge(r) else 0
  {
    assert (answers + [answer])[..|answers|] == answers && (refusals + [no])[..|refusals|] == refusals;
  }

  lemma ChargedNext(h0: Heap, v: View, w: View, requests: seq<Request>, answers: seq<Answer>, refusals: seq<Refusals>,
                    answer: Answer, no: Refusals)
    requires |refusals| == |answers| < |requests| && Stepped(v, requests[|answers|], answer, no, w)
    requires Charged(h0, v.heap, DeniedSmall(requests, answers), DeniedHuge(requests, answers, refusals))
    ensures Charged(h0, w.heap, DeniedSmall(requests, answers + [answer]),
                    DeniedHuge(requests, answers + [answer], refusals + [no]))
    ensures SameSettings(v.heap, w.heap)
  {
    hide Stepped, SameSettings, Charged, Small, Huge, DeniedSmall, DeniedHuge;
    var r := requests[|answers|];
    SteppedCharge(v, r, answer, no, w);
    DeniedNext(requests, answers, refusals, answer, no);
    var s, g := if answer.Denied? then Small(r) else 0, if answer.Denied? && no.mapping then Huge(r) else 0;
    ChargedMore(h0, v.heap, w.heap, DeniedSmall(requests, answers), DeniedHuge(requests, answers, refusals), s, g);
  }

  /** Without huge requests that the system refused, size is exact after a run just when no small one was refused. */
  lemma ExactAfter(h0: Heap, h: Heap, small: nat)
    requires Valid(h0) && Valid(h)
    ensures Charged(h0, h, small, 0) ==> (Exact(h) <==> Exact(h0) && small == 0)
  {
    hide Valid, Sum, Users;
    Conservation(h0);
    Conservation(h);
    LostGrows(h0);
  }

  // ---- from the requests to the object ----------------------------------------------------------------------

  lemma GrantedFacts(h0: Heap, h: Heap, p: Address, n: nat)
    requires Granted(h0, h, p, n)
    ensures Valid(h) && SameSettings(h0, h) && p !in Users(h0) && Users(h) == Users(h0)[p := n]
    ensures NothingLeaks(h0, h, n + NodeCost(p))
  {
    hide Valid, IsNode;
  }

  lemma RefusedFacts(h0: Heap, h: Heap, size: nat)
    requires Refused(h0, h, size)
    ensures Valid(h) && SameSettings(h0, h) && Users(h) == Users(h0)
  {
    hide Valid, IsNode, ChargedClass;
  }

  lemma FreedFacts(h0: Heap, h: Heap, p: Address)
    requires Freed(h0, h, p)
    ensures Valid(h) && SameSettings(h0, h) && p in Users(h0) && Users(h) == Users(h0) - {p}
    ensures NothingLeaks(h0, h, -(Users(h0)[p] + NodeCost(p)))
  {
    hide Valid, Users;
  }

  lemma MovedFacts(h0: Heap, h: Heap, p: Address, q: Address, n: nat)
    requires Moved(h0, h, p, q, n)
    ensures Valid(h) && SameSettings(h0, h) && p in Users(h0) && (q == p || q !in Users(h0))
    ensures Users(h) == (Users(h0) - {p})[q := n]
    ensures h.stats.lost == h0.stats.lost && h.core.leaked == h0.core.leaked
  {
    hide Valid, IsNode;
  }

  lemma AtLeast(size: nat, n: nat)
    requires RoundsTo(size, n)
    ensures n >= size
  {
  }

  lemma NothingCharged(h0: Heap, h: Heap)
    requires h.stats.lost == h0.stats.lost && h.core.leaked == h0.core.leaked
    ensures Charged(h0, h, 0, 0)
  {
  }

  lemma NothingLost(h0: Heap, h: Heap, d: int)
    requires NothingLeaks(h0, h, d)
    ensures Charged(h0, h, 0, 0)
  {
  }

  lemma RefusedCharge(h0: Heap, h: Heap, size: nat, refused: bool)
    requires Refused(h0, h, size) && (!refused ==> h.core.leaked == h0.core.leaked)
    ensures Charged(h0, h, if size <= MAX_SMALL then 1 else 0, if size > MAX_LARGE && refused then 1 else 0)
  {
    hide Valid;
    if size <= MAX_SMALL {
      var b: nat :| LeastBin(size, b) && h.stats.lost - h0.stats.lost == BinSize(b);
      ClassBound(size, b);
    }
  }

  lemma ClassBound(size: nat, b: nat)
    requires LeastBin(size, b)
    ensures 8 <= BinSize(b) <= MAX_SMALL
  {
  }

  lemma ChargedMore(h0: Heap, h1: Heap, h: Heap, small: nat, huge: nat, s: nat, g: nat)
    requires Charged(h0, h1, small, huge) && Charged(h1, h, s, g)
    ensures Charged(h0, h, small + s, huge + g)
  {
  }

  /** A block of the program in the main chunk keeps it in use. */
  lemma SparedKeeps(h: Heap, r: Request, no: Refusals)
    requires Valid(h)
    ensures Spared(h, r) ==> !MayLoseBy(h, r, no)
  {
    hide Valid, MayLoseBy, Users, InMain;
    if Spared(h, r) {
      var p :| p in Users(h) && !Touches(r, p) && InMain(h.core, p);
      BlockKeeps(h, r, p, no);
    }
  }

  lemma BlockKeeps(h: Heap, r: Request, p: Address, no: Refusals)
    requires Valid(h) && p in Users(h) && !Touches(r, p) && InMain(h.core, p)
    ensures !MayLoseBy(h, r, no)
  {
    hide Valid, IsNode, HeapHuge.EmptiesMain, Sound, CoreOk, MustCollect, TakesMain, FitsInPlace, Grows;
    ValidSound(h);
    assert Anchor(h.core, p);
    if r.Release? && r.ptr in Users(h) {
      if Offset(r.ptr) == 0 {
        NotEmptying(h.core, r.ptr);
      } else {
        OthersAnchor(h, r.ptr);
      }
    }
  }

  lemma NotSpared(h: Heap, requests: seq<Request>, i: nat)
    requires i < |requests| && !Spared(h, requests[i])
    ensures forall p | p in Users(h) && InMain(h.core, p) :: !NeverTouched(requests, p)
  {
    hide Users, InMain, Touches;
    forall p | p in Users(h) && InMain(h.core, p) ensures !NeverTouched(requests, p) {
      assert Touches(requests[i], p);
    }
  }

  lemma SameHeld(h0: Heap, h: Heap)
    requires AsBefore(h0, h)
    ensures Users(h) == Users(h0) && Valid(h) && SameSettings(h0, h) && NothingLeaks(h0, h, 0)
  {
    hide Valid, IsNode;
  }

  lemma AbsentKey(users: Ledger, p: Address)
    ensures p !in users ==> users - {p} == users
  {
  }

  lemma AbsentContent(known: Contents, p: Address)
    ensures p !in known ==> known - {p} == known
  {
  }

  lemma KnownBlock(known: Contents, m: Bytes, users: Ledger, p: Address)
    requires Faithful(known, m, users) && p in users
    ensures p in known
  {
  }
}
