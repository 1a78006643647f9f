// The thread-safe resource manager: a table of threads, each with a slot for every resource type.
// Every operation below runs while the mutex is held, so each is one step of any interleaving.
module Tsrm {

  /** What malloc returned: allocations are numbered from 1, and 0 is the null pointer. */
  type Pointer = nat

  /** What was allocated: for which type, how large, whether a constructor was run on it and whether a destructor will be. */
  datatype Block = Block(typ: nat, size: nat, built: bool, hasDtor: bool)

  /** The allocations so far. */
  type Made = seq<Block>

  predicate HasDtor(made: Made, p: Pointer) {
    0 < p <= |made| && made[p - 1].hasDtor
  }

  datatype ResourceType = ResourceType(size: nat, hasCtor: bool, hasDtor: bool, done: bool)

  /** What is allocated for type j: malloc of its size, then its constructor if there is one. */
  function BlockFor(x: ResourceType, j: nat): Block {
    Block(j, x.size, x.hasCtor, x.hasDtor)
  }

  /** One thread: its storage array, as long as count. */
  datatype Entry = Entry(thread: nat, storage: seq<Pointer>)

  /** A bucket of the hash table, following the next links. */
  type Bucket = seq<Entry>

  /** THREAD_HASH_OF */
  function HashOf(thread: nat, size: nat): (b: nat)
    requires size > 0
    ensures b < size
  {
    thread % size
  }

  // ---- the invariant ----------------------------------------------------------------------------------------

  /** A thread has a slot for each type; the slot is null just when the type has been freed. */
  ghost predicate StorageOk(storage: seq<Pointer>, types: seq<ResourceType>) {
    |storage| == |types| && forall j | 0 <= j < |types| :: storage[j] == 0 <==> types[j].done
  }

  /** The threads of a bucket belong there, and each is there once. */
  ghost predicate BucketOk(q: Bucket, b: nat, size: nat, types: seq<ResourceType>)
    requires size > 0
  {
    && (forall i | 0 <= i < |q| :: HashOf(q[i].thread, size) == b && StorageOk(q[i].storage, types))
    && forall i, j | 0 <= i < j < |q| :: q[i].thread != q[j].thread
  }

  ghost predicate TableOk(table: seq<Bucket>, types: seq<ResourceType>) {
    |table| > 0 && forall b | 0 <= b < |table| :: BucketOk(table[b], b, |table|, types)
  }

  /** How many slots hold p. */
  ghost function InStorage(storage: seq<Pointer>, p: Pointer): nat {
    if storage == [] then 0 else InStorage(storage[..|storage| - 1], p) + if storage[|storage| - 1] == p then 1 else 0
  }

  ghost function InBucket(q: Bucket, p: Pointer): nat {
    if q == [] then 0 else InBucket(q[..|q| - 1], p) + InStorage(q[|q| - 1].storage, p)
  }

  ghost function InTable(table: seq<Bucket>, p: Pointer): nat {
    if table == [] then 0 else InTable(table[..|table| - 1], p) + InBucket(table[|table| - 1], p)
  }

  /** Each allocation so far is either held by exactly one slot or has been freed exactly once. */
  ghost predicate Conserved(table: seq<Bucket>, freed: multiset<Pointer>, made: nat) {
    forall p: Pointer | p > 0 :: InTable(table, p) + freed[p] == if p <= made then 1 else 0
  }

  /** A destructor has run exactly for the allocations that have been freed and whose type has one, as often. */
  ghost predicate Destroyed(destroyed: multiset<Pointer>, freed: multiset<Pointer>, made: Made) {
    forall p: Pointer | p > 0 :: destroyed[p] == if HasDtor(made, p) then freed[p] else 0
  }

  /** What slot j holds was allocated for type j, with its size, and built if it has a constructor. */
  ghost predicate KindsOk(storage: seq<Pointer>, types: seq<ResourceType>, made: Made) {
    forall j | 0 <= j < |storage| && storage[j] != 0 ::
      j < |types| && storage[j] <= |made| && made[storage[j] - 1] == BlockFor(types[j], j)
  }

  ghost predicate BucketKinds(q: Bucket, types: seq<ResourceType>, made: Made) {
    forall i | 0 <= i < |q| :: KindsOk(q[i].storage, types, made)
  }

  ghost predicate TableKinds(table: seq<Bucket>, types: seq<ResourceType>, made: Made) {
    forall b | 0 <= b < |table| :: BucketKinds(table[b], types, made)
  }

  /** The same types, perhaps more of them, and some of them done. */
  ghost predicate SameTypes(types: seq<ResourceType>, types': seq<ResourceType>) {
    |types| <= |types'| && forall j | 0 <= j < |types| :: types'[j] == types[j].(done := types'[j].done)
  }

  lemma BucketKindsLater(q: Bucket, types: seq<ResourceType>, made: Made, types': seq<ResourceType>, made': Made)
    requires BucketKinds(q, types, made) && SameTypes(types, types') && made <= made'
    ensures BucketKinds(q, types', made')
  {
    forall i | 0 <= i < |q| ensures KindsOk(q[i].storage, types', made') {
      assert KindsOk(q[i].storage, types, made);
    }
  }

  lemma KindsLater(table: seq<Bucket>, types: seq<ResourceType>, made: Made, types': seq<ResourceType>, made': Made)
    requires TableKinds(table, types, made) && SameTypes(types, types') && made <= made'
    ensures TableKinds(table, types', made')
  {
    hide BucketKinds;
    forall b | 0 <= b < |table| ensures BucketKinds(table[b], types', made') {
      BucketKindsLater(table[b], types, made, types', made');
    }
  }

  lemma KindsReplace(table: seq<Bucket>, types: seq<ResourceType>, made: Made, b: nat, q: Bucket)
    requires TableKinds(table, types, made) && b < |table| && BucketKinds(q, types, made)
    ensures TableKinds(table[b := q], types, made)
  {
    hide BucketKinds;
  }

  /** Nothing that is allocated only now has been freed or destroyed. */
  lemma DestroyedLater(table: seq<Bucket>, destroyed: multiset<Pointer>, freed: multiset<Pointer>, made: Made, made': Made)
    requires Destroyed(destroyed, freed, made) && Conserved(table, freed, |made|) && made <= made'
    ensures Destroyed(destroyed, freed, made')
  {
    forall p: Pointer | p > |made| ensures freed[p] == 0 {
      assert InTable(table, p) + freed[p] == 0;
    }
  }

  // ---- sums over the table ----------------------------------------------------------------------------------

  lemma InStoragePush(storage: seq<Pointer>, x: Pointer, p: Pointer)
    ensures InStorage(storage + [x], p) == InStorage(storage, p) + if x == p then 1 else 0
  {
    assert (storage + [x])[..|storage|] == storage;
  }

  lemma {:induction false} InStorageChange(storage: seq<Pointer>, j: nat, x: Pointer, p: Pointer)
    requires j < |storage|
    ensures InStorage(storage[j := x], p) + (if storage[j] == p then 1 else 0) == InStorage(storage, p) + if x == p then 1 else 0
    decreases |storage|
  {
    var k := |storage| - 1;
    if j < k {
      InStorageChange(storage[..k], j, x, p);
      assert storage[j := x][..k] == storage[..k][j := x];
    } else {
      assert storage[j := x][..k] == storage[..k];
    }
  }

  lemma InBucketPush(q: Bucket, e: Entry, p: Pointer)
    ensures InBucket(q + [e], p) == InBucket(q, p) + InStorage(e.storage, p)
  {
    assert (q + [e])[..|q|] == q;
  }

  lemma {:induction false} InBucketChange(q: Bucket, i: nat, e: Entry, p: Pointer)
    requires i < |q|
    ensures InBucket(q[i := e], p) + InStorage(q[i].storage, p) == InBucket(q, p) + InStorage(e.storage, p)
    decreases |q|
  {
    var k := |q| - 1;
    if i < k {
      InBucketChange(q[..k], i, e, p);
      assert q[i := e][..k] == q[..k][i := e];
    } else {
      assert q[i := e][..k] == q[..k];
    }
  }

  lemma {:induction false} InBucketCut(q: Bucket, i: nat, p: Pointer)
    requires i < |q|
    ensures InBucket(q, p) == InBucket(q[..i] + q[i + 1..], p) + InStorage(q[i].storage, p)
    decreases |q|
  {
    var k := |q| - 1;
    var r := q[..i] + q[i + 1..];
    if i < k {
      InBucketCut(q[..k], i, p);
      assert r[..k - 1] == q[..k][..i] + q[..k][i + 1..] && r[k - 1] == q[k];
    } else {
      assert r == q[..k];
    }
  }

  lemma {:induction false} InTableChange(table: seq<Bucket>, b: nat, q: Bucket, p: Pointer)
    requires b < |table|
    ensures InTable(table[b := q], p) + InBucket(table[b], p) == InTable(table, p) + InBucket(q, p)
    decreases |table|
  {
    var k := |table| - 1;
    if b < k {
      InTableChange(table[..k], b, q, p);
      assert table[b := q][..k] == table[..k][b := q];
    } else {
      assert table[b := q][..k] == table[..k];
    }
  }

  // ---- one storage array, one bucket --------------------------------------------------------------------------

  /** The allocations made0 + 1 .. made. */
  function MadeSince(made0: nat, made: nat, p: Pointer): nat {
    if made0 < p <= made then 1 else 0
  }

  /** The loop of allocate_new_resource: a slot for every type, null where the type has been freed. */
  method NewStorage(types: seq<ResourceType>, made0: Made) returns (storage: seq<Pointer>, made: Made)
    ensures StorageOk(storage, types) && made0 <= made && KindsOk(storage, types, made)
    ensures forall p: Pointer | p > 0 :: InStorage(storage, p) == MadeSince(|made0|, |made|, p)
  {
    storage, made := [], made0;
    var i := 0;
    while i < |types|
      invariant i <= |types| && |storage| == i && made0 <= made && KindsOk(storage, types, made)
      invariant forall j | 0 <= j < i :: storage[j] == 0 <==> types[j].done
      invariant forall p: Pointer | p > 0 :: InStorage(storage, p) == MadeSince(|made0|, |made|, p)
    {
      ghost var before := storage;
      if types[i].done {
        storage := storage + [0];
      } else {
        made := made + [BlockFor(types[i], i)];
        storage := storage + [|made|];
      }
      forall p: Pointer | p > 0 ensures InStorage(storage, p) == MadeSince(|made0|, |made|, p) {
        InStoragePush(before, storage[i], p);
      }
      i := i + 1;
    }
  }

  /** One entry more has a slot for the new type. */
  lemma SlotPushed(q: Bucket, r: Bucket, i: nat, made0: nat, made: nat)
    requires i < |r| && made0 <= made && forall p: Pointer | p > 0 :: InBucket(r, p) == InBucket(q, p) + MadeSince(made0, made, p)
    ensures forall p: Pointer | p > 0 ::
              InBucket(r[i := Entry(r[i].thread, r[i].storage + [made + 1])], p) == InBucket(q, p) + MadeSince(made0, made + 1, p)
  {
    var e := Entry(r[i].thread, r[i].storage + [made + 1]);
    forall p: Pointer | p > 0 ensures InBucket(r[i := e], p) == InBucket(q, p) + MadeSince(made0, made + 1, p) {
      InBucketChange(r, i, e, p);
      InStoragePush(r[i].storage, made + 1, p);
    }
  }

  /** ts_allocate_id for the threads of one bucket: each gets a slot for the new type. */
  method ExtendBucket(q: Bucket, made0: Made, x: Block) returns (r: Bucket, made: Made)
    ensures |r| == |q| && |made| == |made0| + |q|
    ensures made0 <= made && forall k | |made0| <= k < |made| :: made[k] == x
    ensures forall i | 0 <= i < |q| :: r[i] == Entry(q[i].thread, q[i].storage + [|made0| + i + 1])
    ensures forall p: Pointer | p > 0 :: InBucket(r, p) == InBucket(q, p) + MadeSince(|made0|, |made|, p)
  {
    hide InBucket, InStorage;
    r, made := q, made0;
    var i := 0;
    while i < |q|
      invariant i <= |q| && |r| == |q| && |made| == |made0| + i
      invariant made0 <= made && forall k | |made0| <= k < |made| :: made[k] == x
      invariant forall k | 0 <= k < |q| :: r[k] == if k < i then Entry(q[k].thread, q[k].storage + [|made0| + k + 1]) else q[k]
      invariant forall p: Pointer | p > 0 :: InBucket(r, p) == InBucket(q, p) + MadeSince(|made0|, |made|, p)
    {
      SlotPushed(q, r, i, |made0|, |made|);
      made := made + [x];
      r := r[i := Entry(r[i].thread, r[i].storage + [|made|])];
      i := i + 1;
    }
  }

  /** ts_free_id for the threads of one bucket: the slot is freed if it is not null, and cleared. */
  method ClearBucket(q: Bucket, j: nat, hasDtor: bool, ghost made: Made,
                     freed0: multiset<Pointer>, destroyed0: multiset<Pointer>)
      returns (r: Bucket, freed: multiset<Pointer>, destroyed: multiset<Pointer>)
    requires forall i | 0 <= i < |q| :: j < |q[i].storage|
    requires forall i | 0 <= i < |q| && q[i].storage[j] != 0 :: HasDtor(made, q[i].storage[j]) == hasDtor
    requires Destroyed(destroyed0, freed0, made)
    ensures |r| == |q| && forall i | 0 <= i < |q| :: r[i] == Entry(q[i].thread, q[i].storage[j := 0])
    ensures forall p: Pointer | p > 0 :: InBucket(r, p) + freed[p] == InBucket(q, p) + freed0[p]
    ensures destroyed[0] == destroyed0[0]
    ensures Destroyed(destroyed, freed, made)
  {
    r, freed, destroyed := q, freed0, destroyed0;
    var i := 0;
    while i < |q|
      invariant i <= |q| && |r| == |q|
      invariant forall k | 0 <= k < |q| :: r[k] == if k < i then Entry(q[k].thread, q[k].storage[j := 0]) else q[k]
      invariant forall p: Pointer | p > 0 :: InBucket(r, p) + freed[p] == InBucket(q, p) + freed0[p]
      invariant destroyed[0] == destroyed0[0]
      invariant Destroyed(destroyed, freed, made)
    {
      ghost var before := r;
      var e := Entry(r[i].thread, r[i].storage[j := 0]);
      if r[i].storage[j] != 0 {
        if hasDtor {
          destroyed := destroyed + multiset{r[i].storage[j]};
        }
        freed := freed + multiset{r[i].storage[j]};
      }
      r := r[i := e];
      forall p: Pointer | p > 0 ensures InBucket(r, p) + freed[p] == InBucket(q, p) + freed0[p] {
        InBucketChange(before, i, e, p);
        InStorageChange(before[i].storage, j, 0, p);
      }
      i := i + 1;
    }
  }

  /** How many types have been freed although their destructors are still there. */
  ghost function FreedWithDtor(types: seq<ResourceType>, n: nat): nat
    requires n <= |types|
  {
    if n == 0 then 0 else FreedWithDtor(types, n - 1) + if types[n - 1].done && types[n - 1].hasDtor then 1 else 0
  }

  /** There is none exactly when no type that was freed had a destructor. */
  lemma {:induction false} NoneFreedWithDtor(types: seq<ResourceType>, n: nat)
    requires n <= |types|
    ensures FreedWithDtor(types, n) == 0 <==> forall j | 0 <= j < n :: !(types[j].done && types[j].hasDtor)
  {
    if n > 0 {
      NoneFreedWithDtor(types, n - 1);
    }
  }

  /**
   * Freeing the slots of one thread.  tsrm_shutdown skips null slots and asks whether the type is
   * done; ts_free_thread does neither, and so hands a null pointer to a destructor once for every
   * type that was freed before and has one.
   */
  method FreeStorage(storage: seq<Pointer>, types: seq<ResourceType>, careful: bool, ghost made: Made,
                     freed0: multiset<Pointer>, destroyed0: multiset<Pointer>)
      returns (freed: multiset<Pointer>, destroyed: multiset<Pointer>)
    requires StorageOk(storage, types) && KindsOk(storage, types, made) && Destroyed(destroyed0, freed0, made)
    ensures forall p: Pointer | p > 0 :: freed[p] == freed0[p] + InStorage(storage, p)
    ensures Destroyed(destroyed, freed, made)
    ensures destroyed[0] == destroyed0[0] + if careful then 0 else FreedWithDtor(types, |types|)
  {
    freed, destroyed := freed0, destroyed0;
    var i := 0;
    while i < |storage|
      invariant i <= |storage|
      invariant forall p: Pointer | p > 0 :: freed[p] == freed0[p] + InStorage(storage[..i], p)
      invariant Destroyed(destroyed, freed, made)
      invariant destroyed[0] == destroyed0[0] + if careful then 0 else FreedWithDtor(types, i)
    {
      var x := storage[i];
      forall p: Pointer ensures InStorage(storage[..i + 1], p) == InStorage(storage[..i], p) + if x == p then 1 else 0 {
        assert storage[..i + 1] == storage[..i] + [x];
        InStoragePush(storage[..i], x, p);
      }
      if types[i].hasDtor && (!careful || (x != 0 && !types[i].done)) {
        destroyed := destroyed + multiset{x};
      }
      if x != 0 {
        freed := freed + multiset{x};
      }
      i := i + 1;
    }
    assert storage[..i] == storage;
  }

  /** Freeing all the threads of a bucket. */
  method FreeBucket(q: Bucket, types: seq<ResourceType>, ghost made: Made,
                    freed0: multiset<Pointer>, destroyed0: multiset<Pointer>)
      returns (freed: multiset<Pointer>, destroyed: multiset<Pointer>)
    requires forall i | 0 <= i < |q| :: StorageOk(q[i].storage, types)
    requires BucketKinds(q, types, made) && Destroyed(destroyed0, freed0, made)
    ensures forall p: Pointer | p > 0 :: freed[p] == freed0[p] + InBucket(q, p)
    ensures Destroyed(destroyed, freed, made)
    ensures destroyed[0] == destroyed0[0]
  {
    hide StorageOk, KindsOk, Destroyed;
    freed, destroyed := freed0, destroyed0;
    var i := 0;
    while i < |q|
      invariant i <= |q| && destroyed[0] == destroyed0[0]
      invariant forall p: Pointer | p > 0 :: freed[p] == freed0[p] + InBucket(q[..i], p)
      invariant Destroyed(destroyed, freed, made)
    {
      freed, destroyed := FreeStorage(q[i].storage, types, true, made, freed, destroyed);
      forall p: Pointer ensures InBucket(q[..i + 1], p) == InBucket(q[..i], p) + InStorage(q[i].storage, p) {
        assert q[..i + 1] == q[..i] + [q[i]];
        InBucketPush(q[..i], q[i], p);
      }
      i := i + 1;
    }
    assert q[..i] == q;
  }

  // ---- what the steps keep --------------------------------------------------------------------------------------

  /** Replacing a bucket: what it gains or loses was allocated or freed. */
  lemma BucketStep(table: seq<Bucket>, b: nat, q: Bucket, freed: multiset<Pointer>, freed': multiset<Pointer>,
                   made: nat, made': nat)
    requires b < |table| && Conserved(table, freed, made) && made <= made'
    requires forall p: Pointer | p > 0 ::
               InBucket(q, p) + freed'[p] == InBucket(table[b], p) + freed[p] + MadeSince(made, made', p)
    ensures Conserved(table[b := q], freed', made')
  {
    hide InBucket, InTable;
    forall p: Pointer | p > 0 ensures InTable(table[b := q], p) + freed'[p] == if p <= made' then 1 else 0 {
      InTableChange(table, b, q, p);
    }
  }

  lemma ExtendedOk(q: Bucket, r: Bucket, b: nat, size: nat, types: seq<ResourceType>, x: ResourceType, made: nat)
    requires size > 0 && BucketOk(q, b, size, types) && !x.done && |r| == |q|
    requires forall i | 0 <= i < |q| :: r[i] == Entry(q[i].thread, q[i].storage + [made + i + 1])
    ensures BucketOk(r, b, size, types + [x])
  {
  }

  lemma ClearedOk(q: Bucket, r: Bucket, b: nat, size: nat, types: seq<ResourceType>, j: nat)
    requires size > 0 && BucketOk(q, b, size, types) && j < |types| && |r| == |q|
    requires forall i | 0 <= i < |q| :: j < |q[i].storage| && r[i] == Entry(q[i].thread, q[i].storage[j := 0])
    ensures BucketOk(r, b, size, types[j := types[j].(done := true)])
  {
  }

  lemma AddedOk(q: Bucket, e: Entry, b: nat, size: nat, types: seq<ResourceType>)
    requires size > 0 && BucketOk(q, b, size, types) && HashOf(e.thread, size) == b && StorageOk(e.storage, types)
    requires forall i | 0 <= i < |q| :: q[i].thread != e.thread
    ensures BucketOk(q + [e], b, size, types)
  {
    hide StorageOk;
  }

  lemma CutOk(q: Bucket, i: nat, b: nat, size: nat, types: seq<ResourceType>)
    requires size > 0 && BucketOk(q, b, size, types) && i < |q|
    ensures BucketOk(q[..i] + q[i + 1..], b, size, types)
    ensures forall e | e in q[..i] + q[i + 1..] :: e.thread != q[i].thread
  {
    hide StorageOk;
  }

  lemma ExtendedKinds(q: Bucket, r: Bucket, types: seq<ResourceType>, x: ResourceType, made: Made, made': Made)
    requires BucketKinds(q, types, made) && |r| == |q| && |made'| == |made| + |q| && made <= made'
    requires forall k | |made| <= k < |made'| :: made'[k] == BlockFor(x, |types|)
    requires forall i | 0 <= i < |q| :: |q[i].storage| == |types| && r[i] == Entry(q[i].thread, q[i].storage + [|made| + i + 1])
    ensures BucketKinds(r, types + [x], made')
  {
    forall i | 0 <= i < |r| ensures KindsOk(r[i].storage, types + [x], made') {
      assert KindsOk(q[i].storage, types, made);
    }
  }

  lemma ClearedKinds(q: Bucket, r: Bucket, types: seq<ResourceType>, j: nat, made: Made)
    requires BucketKinds(q, types, made) && |r| == |q|
    requires forall i | 0 <= i < |q| :: j < |q[i].storage| && r[i] == Entry(q[i].thread, q[i].storage[j := 0])
    ensures BucketKinds(r, types, made)
  {
    forall i | 0 <= i < |r| ensures KindsOk(r[i].storage, types, made) {
      assert KindsOk(q[i].storage, types, made);
    }
  }

  // ---- the table ------------------------------------------------------------------------------------------------

  /** Where a thread is in its bucket; |q| when it is not there. */
  method FindThread(q: Bucket, thread: nat) returns (i: nat)
    ensures i <= |q| && (i < |q| ==> q[i].thread == thread)
    ensures forall k | 0 <= k < i :: q[k].thread != thread
  {
    i := 0;
    while i < |q|
      invariant i <= |q| && forall k | 0 <= k < i :: q[k].thread != thread
    {
      if q[i].thread == thread {
        return;
      }
      i := i + 1;
    }
  }

  /** The buckets below n are as the new list of types asks for, the others as the old one does. */
  ghost predicate PartlyOk(table: seq<Bucket>, n: nat, types: seq<ResourceType>, types': seq<ResourceType>) {
    && |table| > 0
    && forall b | 0 <= b < |table| :: BucketOk(table[b], b, |table|, if b < n then types' else types)
  }

  lemma PartlyNext(table: seq<Bucket>, n: nat, types: seq<ResourceType>, types': seq<ResourceType>, q: Bucket)
    requires PartlyOk(table, n, types, types') && n < |table| && BucketOk(q, n, |table|, types')
    ensures PartlyOk(table[n := q], n + 1, types, types')
  {
    hide BucketOk;
  }

  lemma PartlyEnds(table: seq<Bucket>, types: seq<ResourceType>, types': seq<ResourceType>)
    ensures TableOk(table, types) ==> PartlyOk(table, 0, types, types')
    ensures PartlyOk(table, |table|, types, types') ==> TableOk(table, types')
  {
    hide BucketOk;
  }

  lemma BucketOf(table: seq<Bucket>, types: seq<ResourceType>, b: nat)
    requires TableOk(table, types) && b < |table|
    ensures BucketOk(table[b], b, |table|, types)
    ensures forall i | 0 <= i < |table[b]| :: StorageOk(table[b][i].storage, types) && |table[b][i].storage| == |types|
  {
  }

  lemma ReplaceBucket(table: seq<Bucket>, types: seq<ResourceType>, b: nat, q: Bucket)
    requires TableOk(table, types) && b < |table| && BucketOk(q, b, |table|, types)
    ensures TableOk(table[b := q], types)
  {
    hide BucketOk;
  }

  /** Entries keep their places, threads and slots; there may be more of each. */
  ghost predicate BucketExtends(q0: Bucket, q: Bucket) {
    |q0| <= |q| && forall i | 0 <= i < |q0| :: q[i].thread == q0[i].thread && q0[i].storage <= q[i].storage
  }

  ghost predicate Extends(t0: seq<Bucket>, t: seq<Bucket>) {
    |t0| == |t| && forall b | 0 <= b < |t| :: BucketExtends(t0[b], t[b])
  }

  lemma ExtendsRefl(t: seq<Bucket>)
    ensures Extends(t, t)
  {
  }

  /** Every thread of the first n buckets has one slot more, at the end, and nothing else has changed. */
  ghost predicate SlotAdded(t0: seq<Bucket>, t: seq<Bucket>, n: nat) {
    |t0| == |t| && forall b | 0 <= b < |t| :: if b < n then BucketSlotAdded(t0[b], t[b]) else t[b] == t0[b]
  }

  ghost predicate BucketSlotAdded(q0: Bucket, q: Bucket) {
    && |q0| == |q|
    && forall i | 0 <= i < |q| ::
         q[i].thread == q0[i].thread && |q[i].storage| == |q0[i].storage| + 1 && q0[i].storage <= q[i].storage
  }

  lemma NoSlotAdded(t: seq<Bucket>)
    ensures SlotAdded(t, t, 0)
  {
  }

  lemma SlotAddedNext(t0: seq<Bucket>, t: seq<Bucket>, n: nat, q: Bucket)
    requires SlotAdded(t0, t, n) && n < |t| && BucketSlotAdded(t[n], q)
    ensures SlotAdded(t0, t[n := q], n + 1)
  {
    hide BucketSlotAdded;
  }

  lemma SlotAddedExtends(t0: seq<Bucket>, t: seq<Bucket>)
    requires SlotAdded(t0, t, |t|)
    ensures Extends(t0, t)
  {
    forall b | 0 <= b < |t| ensures BucketExtends(t0[b], t[b]) {
      assert BucketSlotAdded(t0[b], t[b]);
    }
  }

  /** The thread has an entry at the end of its bucket, and nothing else has changed. */
  ghost predicate ThreadAdded(t0: seq<Bucket>, t: seq<Bucket>, thread: nat) {
    && |t0| > 0
    && var b := HashOf(thread, |t0|);
       exists e: Entry :: e.thread == thread && t == t0[b := t0[b] + [e]]
  }

  lemma ThreadAddedExtends(t0: seq<Bucket>, t: seq<Bucket>, thread: nat)
    requires ThreadAdded(t0, t, thread)
    ensures Extends(t0, t) && Known(t, thread)
  {
    var b := HashOf(thread, |t0|);
    var e: Entry :| e.thread == thread && t == t0[b := t0[b] + [e]];
    assert t[b][|t0[b]|].thread == thread;
  }

  /** The slots of type j are null, all else is as it was. */
  ghost predicate Cleared(t0: seq<Bucket>, t: seq<Bucket>, n: nat, j: nat) {
    |t0| == |t| && forall b | 0 <= b < |t| :: if b < n then BucketCleared(t0[b], t[b], j) else t[b] == t0[b]
  }

  ghost predicate BucketCleared(q0: Bucket, q: Bucket, j: nat) {
    |q0| == |q| && forall i | 0 <= i < |q| :: j < |q0[i].storage| && q[i] == Entry(q0[i].thread, q0[i].storage[j := 0])
  }

  lemma NoneCleared(t: seq<Bucket>, j: nat)
    ensures Cleared(t, t, 0, j)
  {
  }

  lemma ClearedNext(t0: seq<Bucket>, t: seq<Bucket>, n: nat, j: nat, q: Bucket)
    requires Cleared(t0, t, n, j) && n < |t| && BucketCleared(t[n], q, j)
    ensures Cleared(t0, t[n := q], n + 1, j)
  {
    hide BucketCleared;
  }

  /** A pointer that was handed out stays in its slot while types and threads are added. */
  lemma SlotStays(t0: seq<Bucket>, t: seq<Bucket>, thread: nat, j: nat, p: Pointer)
    requires Extends(t0, t) && HasSlot(t0, thread, j, p)
    ensures HasSlot(t, thread, j, p)
  {
    var b, i :| 0 <= b < |t0| && 0 <= i < |t0[b]| && t0[b][i].thread == thread
                && j < |t0[b][i].storage| && t0[b][i].storage[j] == p;
    assert BucketExtends(t0[b], t[b]) && t[b][i].thread == thread && t[b][i].storage[j] == p;
  }

  /** Freeing one type leaves the slots of the others alone. */
  lemma OtherSlotStays(t0: seq<Bucket>, t: seq<Bucket>, thread: nat, j: nat, k: nat, p: Pointer)
    requires Cleared(t0, t, |t|, k) && j != k && HasSlot(t0, thread, j, p)
    ensures HasSlot(t, thread, j, p)
  {
    var b, i :| 0 <= b < |t0| && 0 <= i < |t0[b]| && t0[b][i].thread == thread
                && j < |t0[b][i].storage| && t0[b][i].storage[j] == p;
    assert BucketCleared(t0[b], t[b], k) && t[b][i].thread == thread && t[b][i].storage[j] == p;
  }

  /** Freeing one thread leaves the slots of the others alone. */
  lemma OtherThreadStays(table: seq<Bucket>, b: nat, k: nat, thread: nat, j: nat, p: Pointer)
    requires b < |table| && k < |table[b]| && table[b][k].thread != thread && HasSlot(table, thread, j, p)
    ensures HasSlot(table[b := table[b][..k] + table[b][k + 1..]], thread, j, p)
  {
    var c, i :| 0 <= c < |table| && 0 <= i < |table[c]| && table[c][i].thread == thread
                && j < |table[c][i].storage| && table[c][i].storage[j] == p;
    var q := table[b][..k] + table[b][k + 1..];
    var t := table[b := q];
    if c == b {
      assert t[b][if i < k then i else i - 1] == table[b][i];
    } else {
      assert t[c][i] == table[c][i];
    }
  }

  /** The step takes type j from the thread. */
  predicate Takes(step: Step, thread: nat, j: nat) {
    step == FreeThread(thread) || step == FreeType(j + 1)
  }

  /** Every slot that the step does not take is there with the pointer it had. */
  ghost predicate SlotsStay(t0: seq<Bucket>, t: seq<Bucket>, step: Step) {
    forall thread, j, p | HasSlot(t0, thread, j, p) && !Takes(step, thread, j) :: HasSlot(t, thread, j, p)
  }

  /** And none of the first n steps. */
  ghost predicate SlotsKept(t0: seq<Bucket>, t: seq<Bucket>, steps: seq<Step>, n: nat)
    requires n <= |steps|
  {
    forall thread, j, p | HasSlot(t0, thread, j, p) && (forall k | 0 <= k < n :: !Takes(steps[k], thread, j)) ::
      HasSlot(t, thread, j, p)
  }

  lemma SlotsKeptNext(t0: seq<Bucket>, t1: seq<Bucket>, t: seq<Bucket>, steps: seq<Step>, n: nat)
    requires n < |steps| && SlotsKept(t0, t1, steps, n) && SlotsStay(t1, t, steps[n])
    ensures SlotsKept(t0, t, steps, n + 1)
  {
    hide HasSlot, Takes;
  }

  lemma ExtendedSlots(t0: seq<Bucket>, t: seq<Bucket>, step: Step)
    requires Extends(t0, t)
    ensures SlotsStay(t0, t, step)
  {
    hide Extends, HasSlot;
    forall thread, j, p | HasSlot(t0, thread, j, p) ensures HasSlot(t, thread, j, p) {
      SlotStays(t0, t, thread, j, p);
    }
  }

  lemma ClearedSlots(t0: seq<Bucket>, t: seq<Bucket>, id: nat)
    requires id > 0 && Cleared(t0, t, |t|, id - 1)
    ensures SlotsStay(t0, t, FreeType(id))
  {
    hide Cleared, HasSlot;
    forall thread, j, p | HasSlot(t0, thread, j, p) && j != id - 1 ensures HasSlot(t, thread, j, p) {
      OtherSlotStays(t0, t, thread, j, id - 1, p);
    }
  }

  lemma CutSlots(t0: seq<Bucket>, t: seq<Bucket>, thread: nat, b: nat, i: nat)
    requires b < |t0| && i < |t0[b]| && t0[b][i].thread == thread && t == t0[b := t0[b][..i] + t0[b][i + 1..]]
    ensures SlotsStay(t0, t, FreeThread(thread))
  {
    hide HasSlot;
    forall other, j, p | HasSlot(t0, other, j, p) && other != thread ensures HasSlot(t, other, j, p) {
      OtherThreadStays(t0, b, i, other, j, p);
    }
  }

  lemma NoneTaken(t: seq<Bucket>, steps: seq<Step>)
    ensures SlotsKept(t, t, steps, 0)
  {
  }

  lemma SameSlots(t: seq<Bucket>, step: Step)
    ensures SlotsStay(t, t, step)
  {
  }

  /** The storage of a thread. */
  ghost predicate HasStorage(table: seq<Bucket>, thread: nat, storage: seq<Pointer>) {
    exists b, i :: 0 <= b < |table| && 0 <= i < |table[b]| && table[b][i] == Entry(thread, storage)
  }

  /** The slot of a thread for type j. */
  ghost predicate HasSlot(table: seq<Bucket>, thread: nat, j: nat, p: Pointer) {
    exists b, i :: 0 <= b < |table| && 0 <= i < |table[b]| && table[b][i].thread == thread
                   && j < |table[b][i].storage| && table[b][i].storage[j] == p
  }

  ghost predicate Known(table: seq<Bucket>, thread: nat) {
    |table| > 0 && exists i :: 0 <= i < |table[HashOf(thread, |table|)]| && table[HashOf(thread, |table|)][i].thread == thread
  }

  /** A thread is in the table at most once, and then in its own bucket. */
  lemma ThreadOnce(table: seq<Bucket>, types: seq<ResourceType>, b: nat, i: nat, c: nat, k: nat)
    requires TableOk(table, types) && b < |table| && i < |table[b]| && c < |table| && k < |table[c]|
    requires table[b][i].thread == table[c][k].thread
    ensures b == c == HashOf(table[b][i].thread, |table|) && i == k
  {
    hide StorageOk, HashOf;
    assert BucketOk(table[b], b, |table|, types) && BucketOk(table[c], c, |table|, types);
  }

  /** What ts_resource_ex returns: the address of the storage array, or what a slot holds. */
  datatype Fetched = Whole(storage: seq<Pointer>) | Slot(ptr: Pointer)

  datatype Step =
    | NewType(size: nat, hasCtor: bool, hasDtor: bool)
    | Fetch(id: nat, thread: nat)
    | FreeThread(thread: nat)
    | FreeType(id: nat)

  /** The manager at one moment. */
  datatype Snapshot = Snapshot(table: seq<Bucket>, types: seq<ResourceType>, made: Made,
                               freed: multiset<Pointer>, destroyed: multiset<Pointer>)

  /** What every moment of a run keeps. */
  ghost predicate SnapshotOk(s: Snapshot) {
    && TableOk(s.table, s.types) && TableKinds(s.table, s.types, s.made)
    && Conserved(s.table, s.freed, |s.made|) && Destroyed(s.destroyed, s.freed, s.made)
  }

  /** The entry of the thread is gone, and nothing else of the table. */
  ghost predicate ThreadCut(t0: seq<Bucket>, t: seq<Bucket>, thread: nat) {
    exists b, i :: 0 <= b < |t0| && 0 <= i < |t0[b]| && t0[b][i].thread == thread
                   && t == t0[b := t0[b][..i] + t0[b][i + 1..]]
  }

  /** What one operation does; one with an id that was never given out is not made. */
  ghost predicate Performed(s: Snapshot, step: Step, s': Snapshot) {
    && SlotsStay(s.table, s'.table, step)
    && match step
       case NewType(size, hasCtor, hasDtor) =>
         && s'.types == s.types + [ResourceType(size, hasCtor, hasDtor, false)]
         && SlotAdded(s.table, s'.table, |s'.table|)
         && s.made <= s'.made && s'.freed == s.freed && s'.destroyed == s.destroyed
       case Fetch(id, thread) =>
         if id > |s.types| || Known(s.table, thread) then s' == s
         else
           && s' == s.(table := s'.table, made := s'.made) && ThreadAdded(s.table, s'.table, thread)
           && s.made <= s'.made && Known(s'.table, thread)
       case FreeThread(thread) =>
         if !Known(s.table, thread) then s' == s
         else
           && s'.types == s.types && s'.made == s.made && ThreadCut(s.table, s'.table, thread) && !Known(s'.table, thread)
           && s'.destroyed[0] == s.destroyed[0] + FreedWithDtor(s.types, |s.types|)
       case FreeType(id) =>
         if !(0 < id <= |s.types|) then s' == s
         else
           && s'.types == s.types[id - 1 := s.types[id - 1].(done := true)] && s'.made == s.made
           && Cleared(s.table, s'.table, |s'.table|, id - 1) && s'.destroyed[0] == s.destroyed[0]
  }

  class Manager {
    var table: seq<Bucket>
    var types: seq<ResourceType>
    var made: Made
    var freed: multiset<Pointer>
    var destroyed: multiset<Pointer>

    ghost predicate Valid()
      reads this
    {
      SnapshotOk(Now())
    }

    function Now(): Snapshot
      reads this
    {
      Snapshot(table, types, made, freed, destroyed)
    }

    /** tsrm_startup */
    constructor (threads: nat)
      requires threads > 0
      ensures Valid() && |table| == threads && types == [] && freed == multiset{}
    {
      table := seq<Bucket>(threads, _ => []);
      types, made, freed, destroyed := [], [], multiset{}, multiset{};
      new;
      forall p: Pointer ensures InTable(table, p) == 0 {
        NothingInTable(table, p);
      }
    }

    /** ts_allocate_id: a new type, and a slot for it in every thread there is. */
    method AllocateId(size: nat, hasCtor: bool, hasDtor: bool) returns (id: nat)
      requires Valid()
      modifies this
      ensures Valid() && types == old(types) + [ResourceType(size, hasCtor, hasDtor, false)] && id == |types|
      ensures freed == old(freed) && destroyed == old(destroyed) && SlotAdded(old(table), table, |table|)
      ensures old(made) <= made && forall k | |old(made)| <= k < |made| :: made[k] == Block(id - 1, size, hasCtor, hasDtor)
    {
      hide TableOk, Conserved, BucketOk, StorageOk, PartlyOk, InTable;
      hide InBucket, Destroyed, SlotAdded, TableKinds, BucketKinds;
      NoSlotAdded(table);
      var x := ResourceType(size, hasCtor, hasDtor, false);
      ghost var types0 := types;
      PartlyEnds(table, types0, types0 + [x]);
      id := |types| + 1;
      KindsLater(table, types, made, types + [x], made);
      types := types + [x];
      var b := 0;
      while b < |table|
        invariant b <= |table| && PartlyOk(table, b, types0, types) && Conserved(table, freed, |made|)
        invariant TableKinds(table, types, made) && Destroyed(destroyed, freed, made)
        invariant types == types0 + [x] && id == |types| && freed == old(freed) && destroyed == old(destroyed)
        invariant SlotAdded(old(table), table, b) && |table| == |old(table)|
        invariant forall c | b <= c < |table| :: table[c] == old(table)[c]
        invariant old(made) <= made && forall k | |old(made)| <= k < |made| :: made[k] == BlockFor(x, |types0|)
      {
        BucketAhead(table, b, types0, types);
        var q, now := ExtendBucket(table[b], made, BlockFor(x, id - 1));
        ExtendedOk(table[b], q, b, |table|, types0, x, |made|);
        KindsOfOld(old(table), types0, old(made), b, made);
        ExtendedKinds(table[b], q, types0, x, made, now);
        KindsLater(table, types, made, types, now);
        KindsReplace(table, types, now, b, q);
        DestroyedLater(table, destroyed, freed, made, now);
        PartlyNext(table, b, types0, types, q);
        BucketStep(table, b, q, freed, freed, |made|, |now|);
        SlotAddedNext(old(table), table, b, q);
        table, made := table[b := q], now;
        b := b + 1;
      }
      PartlyEnds(table, types0, types);
    }

    /** allocate_new_resource, at the end of the bucket of the thread. */
    method AddThread(thread: nat)
      requires Valid() && |table| > 0
      requires forall i | 0 <= i < |table[HashOf(thread, |table|)]| :: table[HashOf(thread, |table|)][i].thread != thread
      modifies `table, `made
      ensures Valid() && old(made) <= made && ThreadAdded(old(table), table, thread)
    {
      hide TableOk, Conserved, BucketOk, StorageOk, InTable, InBucket, TableKinds, KindsOk, Destroyed;
      var b := HashOf(thread, |table|);
      var storage, now := NewStorage(types, made);
      var e := Entry(thread, storage);
      BucketOf(table, types, b);
      AddedOk(table[b], e, b, |table|, types);
      ReplaceBucket(table, types, b, table[b] + [e]);
      KindsLater(table, types, made, types, now);
      BucketKindsOf(table, types, now, b);
      KindsReplace(table, types, now, b, table[b] + [e]);
      DestroyedLater(table, destroyed, freed, made, now);
      forall p: Pointer | p > 0
        ensures InBucket(table[b] + [e], p) + freed[p] == InBucket(table[b], p) + freed[p] + MadeSince(|made|, |now|, p)
      {
        InBucketPush(table[b], e, p);
      }
      BucketStep(table, b, table[b] + [e], freed, freed, |made|, |now|);
      table, made := table[b := table[b] + [e]], now;
    }

    /**
     * ts_resource_ex: the slot of a thread, or for id 0 all its slots; the thread is entered in the
     * table if it is not there.  The call of itself after that finds the thread, and so the
     * recursion stops.  A thread that was known keeps every slot it had.
     */
    method Resource(id: nat, thread: nat) returns (r: Fetched)
      requires Valid() && id <= |types|
      modifies `table, `made
      ensures Valid()
      ensures if id == 0 then r.Whole? && HasStorage(table, thread, r.storage)
              else r.Slot? && HasSlot(table, thread, id - 1, r.ptr) && (r.ptr == 0 <==> types[id - 1].done)
      ensures old(Known(table, thread)) ==> table == old(table) && made == old(made)
      ensures !old(Known(table, thread)) ==> ThreadAdded(old(table), table, thread)
      ensures Known(table, thread) && old(made) <= made
      decreases if Known(table, thread) then 0 else 1
    {
      hide TableOk, Conserved, BucketOk, InTable, InBucket, StorageOk, TableKinds, Destroyed;
      TableNonEmpty(table, types);
      var b := HashOf(thread, |table|);
      var i := FindThread(table[b], thread);
      if i == |table[b]| {
        AddThread(thread);
        ThreadAddedExtends(old(table), table, thread);
        r := Resource(id, thread);
      } else {
        BucketOf(table, types, b);
        if id == 0 {
          r := Whole(table[b][i].storage);
        } else {
          SlotOfType(table[b][i].storage, types, id - 1);
          r := Slot(table[b][i].storage[id - 1]);
        }
      }
    }

    /** ts_free_thread for the calling thread. */
    method Free(thread: nat)
      requires Valid()
      modifies `table, `freed, `destroyed
      ensures Valid() && !Known(table, thread)
      ensures old(Known(table, thread)) ==>
                exists b, i :: 0 <= b < |old(table)| && 0 <= i < |old(table)[b]| && old(table)[b][i].thread == thread
                               && table == old(table)[b := old(table)[b][..i] + old(table)[b][i + 1..]]
      ensures !old(Known(table, thread)) ==> table == old(table) && freed == old(freed) && destroyed == old(destroyed)
      ensures old(Known(table, thread)) ==> destroyed[0] == old(destroyed[0]) + FreedWithDtor(types, |types|)
    {
      hide TableOk, Conserved, BucketOk, InTable, InBucket, StorageOk, InStorage, TableKinds, KindsOk, Destroyed;
      TableNonEmpty(table, types);
      var b := HashOf(thread, |table|);
      BucketOf(table, types, b);
      var i := FindThread(table[b], thread);
      if i < |table[b]| {
        ghost var freed0 := freed;
        var q := table[b][..i] + table[b][i + 1..];
        BucketKindsOf(table, types, made, b);
        freed, destroyed := FreeStorage(table[b][i].storage, types, false, made, freed, destroyed);
        CutOk(table[b], i, b, |table|, types);
        ReplaceBucket(table, types, b, q);
        KindsReplace(table, types, made, b, q);
        forall p: Pointer | p > 0
          ensures InBucket(q, p) + freed[p] == InBucket(table[b], p) + freed0[p] + MadeSince(|made|, |made|, p)
        {
          InBucketCut(table[b], i, p);
        }
        BucketStep(table, b, q, freed0, freed, |made|, |made|);
        table := table[b := q];
        assert forall k | 0 <= k < |q| :: q[k] in q;
      }
    }

    /** ts_free_id: the slots of a type are freed in every thread, and stay null from then on. */
    method FreeId(id: nat)
      requires Valid() && 0 < id <= |types|
      modifies `table, `types, `freed, `destroyed
      ensures Valid() && types == old(types)[id - 1 := old(types)[id - 1].(done := true)]
      ensures Cleared(old(table), table, |table|, id - 1) && destroyed[0] == old(destroyed[0])
    {
      hide TableOk, Conserved, BucketOk, StorageOk, PartlyOk, InTable;
      hide InBucket, Destroyed, Cleared, TableKinds, KindsOk;
      var j := id - 1;
      NoneCleared(table, j);
      ghost var types0, types1 := types, types[j := types[j].(done := true)];
      PartlyEnds(table, types0, types1);
      var b := 0;
      while b < |table|
        invariant b <= |table| && PartlyOk(table, b, types0, types1) && Conserved(table, freed, |made|)
        invariant types == types0 && Cleared(old(table), table, b, j) && destroyed[0] == old(destroyed[0])
        invariant Destroyed(destroyed, freed, made) && TableKinds(table, types, made)
      {
        BucketAhead(table, b, types0, types1);
        BucketKindsOf(table, types, made, b);
        KindsOfSlot(table[b], types, j, made);
        var q, now, gone := ClearBucket(table[b], j, types[j].hasDtor, made, freed, destroyed);
        ClearedKinds(table[b], q, types, j, made);
        KindsReplace(table, types, made, b, q);
        ClearedOk(table[b], q, b, |table|, types0, j);
        PartlyNext(table, b, types0, types1, q);
        BucketStep(table, b, q, freed, now, |made|, |made|);
        ClearedNext(old(table), table, b, j, q);
        table, freed, destroyed := table[b := q], now, gone;
        b := b + 1;
      }
      PartlyEnds(table, types0, types1);
      KindsLater(table, types, made, types1, made);
      types := types[j := types[j].(done := true)];
    }

    /** One mutex-held operation: what it does, and that whatever it does not take from a thread stays where it was. */
    method Serve(step: Step)
      requires Valid()
      modifies this
      ensures Valid() && Performed(old(Now()), step, Now())
    {
      hide TableOk, TableKinds, Conserved, Destroyed, Extends, Cleared, SlotAdded, ThreadAdded, HasSlot, HasStorage, SlotsStay, Known;
      SameSlots(table, step);
      match step {
        case NewType(size, hasCtor, hasDtor) =>
          var id := AllocateId(size, hasCtor, hasDtor);
          SlotAddedExtends(old(table), table);
          ExtendedSlots(old(table), table, step);
        case Fetch(id, thread) =>
          if id <= |types| {
            var r := Resource(id, thread);
            if !old(Known(table, thread)) {
              ThreadAddedExtends(old(table), table, thread);
            } else {
              ExtendsRefl(table);
            }
            ExtendedSlots(old(table), table, step);
          }
        case FreeThread(thread) =>
          Free(thread);
          if old(Known(table, thread)) {
            ghost var b, i :| 0 <= b < |old(table)| && 0 <= i < |old(table)[b]| && old(table)[b][i].thread == thread
                        && table == old(table)[b := old(table)[b][..i] + old(table)[b][i + 1..]];
            CutSlots(old(table), table, thread, b, i);
          }
        case FreeType(id) =>
          if 0 < id <= |types| {
            FreeId(id);
            ClearedSlots(old(table), table, id);
          }
      }
    }

    /**
     * Any interleaving of the operations of any number of threads: the trace shows each step, and a
     * pointer that was handed out stays in its slot until the thread or the type is freed.
     */
    method Run(steps: seq<Step>) returns (ghost trace: seq<Snapshot>)
      requires Valid()
      modifies this
      ensures Valid() && SlotsKept(old(table), table, steps, |steps|)
      ensures |trace| == |steps| + 1 && trace[0] == old(Now()) && trace[|steps|] == Now()
      ensures forall i | 0 <= i < |steps| :: Performed(trace[i], steps[i], trace[i + 1])
      ensures forall i | 0 <= i <= |steps| :: SnapshotOk(trace[i])
    {
      hide SnapshotOk, Performed, SlotsKept, HasSlot;
      trace := [Now()];
      NoneTaken(table, steps);
      var i := 0;
      while i < |steps|
        invariant i <= |steps| && Valid() && SlotsKept(old(table), table, steps, i)
        invariant |trace| == i + 1 && trace[0] == old(Now()) && trace[i] == Now()
        invariant forall k | 0 <= k < i :: Performed(trace[k], steps[k], trace[k + 1])
        invariant forall k | 0 <= k <= i :: SnapshotOk(trace[k])
      {
        ghost var before := Now();
        Serve(steps[i]);
        PerformedStays(before, steps[i], Now());
        SlotsKeptNext(old(table), before.table, table, steps, i);
        trace := trace + [Now()];
        i := i + 1;
      }
    }

    /** tsrm_shutdown: in the end every allocation has been freed once, and destroyed once if its type has a destructor. */
    method Shutdown()
      requires Valid()
      modifies this
      ensures table == [] && types == []
      ensures forall p: Pointer | p > 0 :: freed[p] == if p <= |old(made)| then 1 else 0
      ensures forall p: Pointer | p > 0 :: destroyed[p] == if HasDtor(old(made), p) then 1 else 0
      ensures destroyed[0] == old(destroyed[0])
    {
      hide TableOk, BucketOk, StorageOk, InBucket, TableKinds, BucketKinds, Destroyed;
      var b := 0;
      while b < |table|
        invariant b <= |table| && table == old(table) && types == old(types) && made == old(made)
        invariant TableOk(table, types) && destroyed[0] == old(destroyed[0])
        invariant forall p: Pointer | p > 0 :: freed[p] == old(freed)[p] + InTable(table[..b], p)
        invariant Destroyed(destroyed, freed, made) && TableKinds(table, types, made)
      {
        BucketOf(table, types, b);
        BucketKindsOf(table, types, made, b);
        freed, destroyed := FreeBucket(table[b], types, made, freed, destroyed);
        forall p: Pointer ensures InTable(table[..b + 1], p) == InTable(table[..b], p) + InBucket(table[b], p) {
          assert table[..b + 1][..b] == table[..b];
        }
        b := b + 1;
      }
      assert table[..b] == table;
      ShutdownCounts(table, freed, destroyed, old(freed), made);
      table, types := [], [];
    }
  }

  lemma {:induction false} NothingInTable(table: seq<Bucket>, p: Pointer)
    requires forall b | 0 <= b < |table| :: table[b] == []
    ensures InTable(table, p) == 0
  {
    if table != [] {
      NothingInTable(table[..|table| - 1], p);
    }
  }

  lemma PerformedStays(s: Snapshot, step: Step, s': Snapshot)
    requires Performed(s, step, s')
    ensures SlotsStay(s.table, s'.table, step)
  {
    hide SlotsStay, SlotAdded, ThreadAdded, Cleared, Known, ThreadCut;
  }

  lemma ShutdownCounts(table: seq<Bucket>, freed: multiset<Pointer>, destroyed: multiset<Pointer>,
                       freed0: multiset<Pointer>, made: Made)
    requires Conserved(table, freed0, |made|) && Destroyed(destroyed, freed, made)
    requires forall p: Pointer | p > 0 :: freed[p] == freed0[p] + InTable(table, p)
    ensures forall p: Pointer | p > 0 :: freed[p] == if p <= |made| then 1 else 0
    ensures forall p: Pointer | p > 0 :: destroyed[p] == if HasDtor(made, p) then 1 else 0
  {
    hide InTable;
  }

  lemma BucketKindsOf(table: seq<Bucket>, types: seq<ResourceType>, made: Made, b: nat)
    requires TableKinds(table, types, made) && b < |table|
    ensures BucketKinds(table[b], types, made)
  {
    hide BucketKinds;
  }

  /** A bucket that has not been visited yet is as it was. */
  lemma KindsOfOld(table: seq<Bucket>, types: seq<ResourceType>, made: Made, b: nat, made': Made)
    requires TableKinds(table, types, made) && b < |table| && made <= made'
    ensures BucketKinds(table[b], types, made')
  {
    BucketKindsOf(table, types, made, b);
    BucketKindsLater(table[b], types, made, types, made');
  }

  lemma KindsOfSlot(q: Bucket, types: seq<ResourceType>, j: nat, made: Made)
    requires BucketKinds(q, types, made) && j < |types| && forall i | 0 <= i < |q| :: j < |q[i].storage|
    ensures forall i | 0 <= i < |q| && q[i].storage[j] != 0 :: HasDtor(made, q[i].storage[j]) == types[j].hasDtor
  {
    forall i | 0 <= i < |q| && q[i].storage[j] != 0 ensures HasDtor(made, q[i].storage[j]) == types[j].hasDtor {
      assert KindsOk(q[i].storage, types, made);
    }
  }

  /**
   * A thread came after a type with a destructor had been freed, and is now freed itself: its one
   * slot is null, and the destructor is called with it.
   */
  lemma NullReachesDtor(size: nat, hasCtor: bool)
    ensures var types, table := [ResourceType(size, hasCtor, true, true)], [[Entry(1, [0])]];
            TableOk(table, types) && Known(table, 1) && FreedWithDtor(types, |types|) == 1
  {
    var types: seq<ResourceType>, table: seq<Bucket> := [ResourceType(size, hasCtor, true, true)], [[Entry(1, [0])]];
    assert FreedWithDtor(types, 0) == 0;
    assert table[HashOf(1, |table|)][0].thread == 1;
    assert BucketOk(table[0], 0, 1, types);
  }

  lemma BucketAhead(table: seq<Bucket>, b: nat, types: seq<ResourceType>, types': seq<ResourceType>)
    requires PartlyOk(table, b, types, types') && b < |table|
    ensures BucketOk(table[b], b, |table|, types)
    ensures forall i | 0 <= i < |table[b]| :: |table[b][i].storage| == |types|
  {
  }

  lemma TableNonEmpty(table: seq<Bucket>, types: seq<ResourceType>)
    requires TableOk(table, types)
    ensures |table| > 0
  {
  }

  lemma SlotOfType(storage: seq<Pointer>, types: seq<ResourceType>, j: nat)
    requires StorageOk(storage, types) && j < |types|
    ensures |storage| == |types| && (storage[j] == 0 <==> types[j].done)
  {
  }
}
