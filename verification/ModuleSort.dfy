// Starting modules in the order of their dependencies: zend_sort_modules, which swaps in place, and
// zend_startup_modules, which drops the modules whose requirements are not met.
module ModuleSort {

  datatype DepKind = Required | Conflicts | Optional

  datatype Dep = Dep(kind: DepKind, name: string)

  /** Names are compared without regard to case; they are kept in lower case here. */
  datatype Module = Module(name: string, deps: seq<Dep>, started: bool)

  predicate Wants(d: Dep) {
    d.kind == Required || d.kind == Optional
  }

  /** x names y among the modules it needs or would like before it. */
  ghost predicate DependsOn(x: Module, y: Module) {
    exists k :: 0 <= k < |x.deps| && Wants(x.deps[k]) && x.deps[k].name == y.name
  }

  ghost predicate DistinctNames(q: seq<Module>) {
    forall i, j | 0 <= i < j < |q| :: q[i].name != q[j].name
  }

  /** No cycle: a rank of the names falls along every dependency of a module that is not started. */
  ghost predicate Acyclic(q: seq<Module>, rank: string -> nat) {
    forall x, y | x in q && y in q && !x.started && x.name != y.name && DependsOn(x, y) :: rank(y.name) < rank(x.name)
  }

  /** No module that is still to be started stands before a module that it depends on. */
  ghost predicate Ordered(q: seq<Module>, n: nat) {
    forall i, j | 0 <= i < n && i < j < |q| && !q[i].started :: !DependsOn(q[i], q[j])
  }

  function Swap(q: seq<Module>, i: nat, j: nat): (r: seq<Module>)
    requires i < |q| && j < |q|
  {
    q[i := q[j]][j := q[i]]
  }

  lemma SwapKeeps(q: seq<Module>, i: nat, j: nat)
    requires i < j < |q|
    ensures multiset(Swap(q, i, j)) == multiset(q)
    ensures DistinctNames(q) ==> DistinctNames(Swap(q, i, j))
    ensures forall x :: x in Swap(q, i, j) <==> x in q
  {
    var r := Swap(q, i, j);
    forall x ensures x in r <==> x in q {
      assert x in multiset(r) <==> x in multiset(q);
    }
    hide Swap;
    if DistinctNames(q) {
      forall a, b | 0 <= a < b < |r| ensures r[a].name != r[b].name {
        SwapAt(q, i, j, a);
        SwapAt(q, i, j, b);
      }
    }
  }

  lemma SwapAt(q: seq<Module>, i: nat, j: nat, a: nat)
    requires i < j < |q| && a < |q|
    ensures |Swap(q, i, j)| == |q| && Swap(q, i, j)[a] == q[if a == i then j else if a == j then i else a]
  {
  }

  /** Swapping behind place n changes what stands behind it only in order. */
  lemma SwapOrdered(q: seq<Module>, n: nat, i: nat, j: nat)
    requires n <= i < j < |q| && Ordered(q, n)
    ensures Ordered(Swap(q, i, j), n)
  {
    var r := Swap(q, i, j);
    forall a, b | 0 <= a < n && a < b < |r| && !r[a].started ensures !DependsOn(r[a], r[b]) {
      SwapAt(q, i, j, a);
      SwapAt(q, i, j, b);
    }
  }

  /** The place of the first module behind b1 that the module at b1 depends on, by its k-th dependency on. */
  method FindDependency(a: array<Module>, b1: nat) returns (found: bool, b2: nat)
    requires b1 < a.Length
    ensures found ==> b1 < b2 < a.Length && DependsOn(a[b1], a[b2])
    ensures !found ==> forall j | b1 < j < a.Length :: !DependsOn(a[b1], a[j])
  {
    var m := a[b1];
    var k := 0;
    b2 := b1;
    while k < |m.deps|
      invariant k <= |m.deps|
      invariant forall l, j | 0 <= l < k && b1 < j < a.Length && Wants(m.deps[l]) :: m.deps[l].name != a[j].name
    {
      if Wants(m.deps[k]) {
        b2 := b1 + 1;
        while b2 < a.Length
          invariant b1 < b2 <= a.Length
          invariant forall j | b1 < j < b2 :: m.deps[k].name != a[j].name
        {
          if m.deps[k].name == a[b2].name {
            return true, b2;
          }
          b2 := b2 + 1;
        }
      }
      k := k + 1;
    }
    found := false;
  }

  /**
   * zend_sort_modules.  Whenever a dependency is found behind a module the two change places and
   * the search starts again at the same place: it ends because the rank of the module there falls.
   */
  method SortModules(a: array<Module>, ghost rank: string -> nat)
    requires DistinctNames(a[..]) && Acyclic(a[..], rank)
    modifies a
    ensures multiset(a[..]) == multiset(old(a[..])) && DistinctNames(a[..])
    ensures Ordered(a[..], a.Length)
  {
    hide Ordered, Acyclic, DependsOn, DistinctNames, Swap;
    var b1 := 0;
    OrderedStart(a[..]);
    while b1 < a.Length
      invariant b1 <= a.Length && Ordered(a[..], b1)
      invariant multiset(a[..]) == multiset(old(a[..])) && DistinctNames(a[..]) && Acyclic(a[..], rank)
      decreases a.Length - b1, if b1 < a.Length then rank(a[b1].name) else 0
    {
      var found, b2 := false, b1;
      if !a[b1].started {
        found, b2 := FindDependency(a, b1);
      }
      if found {
        SwapStep(a[..], b1, b2, rank);
        SwapInPlace(a, b1, b2);
      } else {
        OrderedNext(a[..], b1);
        b1 := b1 + 1;
      }
    }
  }

  method SwapInPlace(a: array<Module>, i: nat, j: nat)
    requires i < j < a.Length
    modifies a
    ensures a[..] == Swap(old(a[..]), i, j)
  {
    a[i], a[j] := a[j], a[i];
  }

  /** One swap: the same modules, the part before place i still ordered, and a lower rank at place i. */
  lemma SwapStep(q: seq<Module>, i: nat, j: nat, rank: string -> nat)
    requires i < j < |q| && DistinctNames(q) && Ordered(q, i) && Acyclic(q, rank)
    requires !q[i].started && DependsOn(q[i], q[j])
    ensures |Swap(q, i, j)| == |q| && multiset(Swap(q, i, j)) == multiset(q) && DistinctNames(Swap(q, i, j))
    ensures Ordered(Swap(q, i, j), i) && Acyclic(Swap(q, i, j), rank)
    ensures rank(Swap(q, i, j)[i].name) < rank(q[i].name)
  {
    SwapAt(q, i, j, i);
    hide Ordered, Acyclic, DependsOn, DistinctNames, Swap;
    SwapKeeps(q, i, j);
    SwapOrdered(q, i, i, j);
    SwapAcyclic(q, i, j, rank);
    RankFalls(q, i, j, rank);
  }

  lemma OrderedStart(q: seq<Module>)
    ensures Ordered(q, 0)
  {
  }

  lemma OrderedNext(q: seq<Module>, n: nat)
    requires n < |q| && Ordered(q, n)
    requires q[n].started || forall j | n < j < |q| :: !DependsOn(q[n], q[j])
    ensures Ordered(q, n + 1)
  {
    hide DependsOn;
  }

  lemma SwapAcyclic(q: seq<Module>, i: nat, j: nat, rank: string -> nat)
    requires i < j < |q| && Acyclic(q, rank)
    ensures Acyclic(Swap(q, i, j), rank)
  {
    SwapKeeps(q, i, j);
    hide Swap, DependsOn;
  }

  lemma RankFalls(q: seq<Module>, i: nat, j: nat, rank: string -> nat)
    requires i < j < |q| && DistinctNames(q) && Acyclic(q, rank) && !q[i].started && DependsOn(q[i], q[j])
    ensures rank(q[j].name) < rank(q[i].name)
  {
    hide DependsOn;
    assert q[i] in q && q[j] in q;
  }

  /** The place of the module of this name. */
  function Place(q: seq<Module>, name: string): nat {
    if q == [] || q[0].name == name then 0 else Place(q[1..], name) + 1
  }

  lemma {:induction false} PlaceOfModule(q: seq<Module>, i: nat)
    requires DistinctNames(q) && i < |q|
    ensures Place(q, q[i].name) == i
  {
    if i > 0 {
      assert q[0].name != q[i].name;
      PlaceOfModule(q[1..], i - 1);
    }
  }

  /**
   * The absence of cycles is not only sufficient: if the modules can be put in order at all, then
   * their places in that order are such a rank.
   */
  lemma OrderIsRank(q: seq<Module>, r: seq<Module>)
    requires DistinctNames(r) && multiset(r) == multiset(q) && Ordered(r, |r|)
    ensures exists rank: string -> nat :: Acyclic(q, rank)
  {
    var rank := (name: string) => Place(r, name);
    forall x, y | x in q && y in q && !x.started && x.name != y.name && DependsOn(x, y) ensures rank(y.name) < rank(x.name) {
      assert x in multiset(r) && y in multiset(r);
      var i: nat, j: nat :| i < |r| && r[i] == x && j < |r| && r[j] == y;
      PlaceOfModule(r, i);
      PlaceOfModule(r, j);
    }
    assert Acyclic(q, rank);
  }

  // ---- startup ----------------------------------------------------------------------------------------------

  /** x requires a module of this name. */
  ghost predicate Requires(x: Module, name: string) {
    exists k :: 0 <= k < |x.deps| && x.deps[k] == Dep(Required, name)
  }

  /** A set of names, all of modules, that holds with each module everything the module requires. */
  ghost predicate Closed(q: seq<Module>, names: set<string>) {
    && (forall n | n in names :: exists x :: x in q && x.name == n)
    && (forall x, n | x in q && x.name in names && Requires(x, n) :: n in names)
  }

  /** What is left of the registry: the running modules, started, each in its place. */
  function KeptOf(q: seq<Module>, running: set<string>): seq<Module> {
    if q == [] then []
    else
      var m := q[|q| - 1];
      KeptOf(q[..|q| - 1], running) + if m.name in running then [m.(started := true)] else []
  }

  /** Every module stands once, behind all that it requires, and before none that it depends on. */
  ghost predicate InStartOrder(kept: seq<Module>) {
    && DistinctNames(kept)
    && (forall i, j | 0 <= i < j < |kept| :: !DependsOn(kept[i], kept[j]))
    && forall i, n | 0 <= i < |kept| && Requires(kept[i], n) && n != kept[i].name ::
         exists j :: 0 <= j < i && kept[j].name == n
  }

  lemma {:induction false} KeptMembers(q: seq<Module>, running: set<string>)
    ensures forall x :: x in KeptOf(q, running) <==> exists y :: y in q && y.name in running && x == y.(started := true)
  {
    if q != [] {
      var n := |q| - 1;
      KeptMembers(q[..n], running);
      assert q == q[..n] + [q[n]];
    }
  }

  /** A name that none of the modules bears makes no difference. */
  lemma {:induction false} KeptMore(q: seq<Module>, running: set<string>, name: string)
    requires forall x | x in q :: x.name != name
    ensures KeptOf(q, running + {name}) == KeptOf(q, running)
  {
    if q != [] {
      assert q[|q| - 1] in q;
      KeptMore(q[..|q| - 1], running, name);
    }
  }

  /** Of two that are kept the first stood before the second. */
  lemma {:induction false} KeptPlaces(q: seq<Module>, running: set<string>, i: nat, j: nat)
    requires i < j < |KeptOf(q, running)|
    ensures exists a, b :: 0 <= a < b < |q| && KeptOf(q, running)[i] == q[a].(started := true)
                           && KeptOf(q, running)[j] == q[b].(started := true)
  {
    var n := |q| - 1;
    var before := KeptOf(q[..n], running);
    if j < |before| {
      KeptPlaces(q[..n], running, i, j);
      var a, b :| 0 <= a < b < n && before[i] == q[..n][a].(started := true) && before[j] == q[..n][b].(started := true);
      assert q[..n][a] == q[a] && q[..n][b] == q[b];
    } else {
      KeptMembers(q[..n], running);
      assert before[i] in before;
      var y :| y in q[..n] && before[i] == y.(started := true);
      var a :| 0 <= a < n && q[..n][a] == y;
    }
  }

  lemma KeptInOrder(q: seq<Module>, running: set<string>)
    requires DistinctNames(q) && Ordered(q, |q|) && (forall x | x in q :: !x.started) && Closed(q, running)
    ensures InStartOrder(KeptOf(q, running))
  {
    hide KeptOf, Closed, Requires, DependsOn;
    var kept := KeptOf(q, running);
    forall i, j | 0 <= i < j < |kept| ensures kept[i].name != kept[j].name && !DependsOn(kept[i], kept[j]) {
      KeptPlaces(q, running, i, j);
      var a, b :| 0 <= a < b < |q| && kept[i] == q[a].(started := true) && kept[j] == q[b].(started := true);
      assert !q[a].started;
      SameDependency(q[a], q[b]);
    }
    KeptRequired(q, running);
    forall i, n | 0 <= i < |kept| && Requires(kept[i], n) && n != kept[i].name
      ensures exists j :: 0 <= j < i && kept[j].name == n
    {
      var j :| 0 <= j < |kept| && kept[j].name == n;
      RequiredIsDependency(kept[i], kept[j]);
    }
  }

  lemma SameDependency(x: Module, y: Module)
    ensures DependsOn(x.(started := true), y.(started := true)) <==> DependsOn(x, y)
  {
  }

  /** What a kept module requires is kept. */
  lemma KeptRequired(q: seq<Module>, running: set<string>)
    requires Closed(q, running)
    ensures forall i, n | 0 <= i < |KeptOf(q, running)| && Requires(KeptOf(q, running)[i], n) ::
              exists j :: 0 <= j < |KeptOf(q, running)| && KeptOf(q, running)[j].name == n
  {
    hide KeptOf, Requires;
    var kept := KeptOf(q, running);
    KeptMembers(q, running);
    forall i, n | 0 <= i < |kept| && Requires(kept[i], n) ensures exists j :: 0 <= j < |kept| && kept[j].name == n {
      assert kept[i] in kept;
      var y :| y in q && y.name in running && kept[i] == y.(started := true);
      SameRequirements(y);
      var x :| x in q && x.name == n;
      assert x.(started := true) in kept;
    }
  }

  /** The requirements of a module are among the started modules, or the module itself. */
  method RequirementsMet(m: Module, running: set<string>) returns (ok: bool)
    ensures ok <==> forall n | Requires(m, n) :: n in running
  {
    var k := 0;
    while k < |m.deps|
      invariant k <= |m.deps|
      invariant forall l | 0 <= l < k && m.deps[l].kind == Required :: m.deps[l].name in running
    {
      if m.deps[k].kind == Required && m.deps[k].name !in running {
        assert m.deps[k] == Dep(Required, m.deps[k].name);
        return false;
      }
      k := k + 1;
    }
    ok := true;
  }

  /**
   * zend_startup_modules on a registry in sorted order, with startup functions that succeed: a
   * module whose requirements are running is started, any other leaves the registry.  What is
   * kept is the largest set of modules that contains everything its members require, in the order
   * of the registry, so that each module is started behind those it requires.
   */
  method StartModules(q: seq<Module>) returns (kept: seq<Module>, running: set<string>)
    requires DistinctNames(q) && Ordered(q, |q|) && forall x | x in q :: !x.started
    ensures Closed(q, running)
    ensures forall names | Closed(q, names) :: names <= running
    ensures kept == KeptOf(q, running) && InStartOrder(kept)
  {
    hide Closed, Ordered, DistinctNames, Requires, DependsOn, InStartOrder;
    kept, running := [], {};
    var i := 0;
    NothingRuns(q);
    while i < |q|
      invariant i <= |q| && Running(q, i, running)
      invariant kept == KeptOf(q[..i], running)
    {
      var m := q[i].(started := true);
      var ok := RequirementsMet(m, running + {m.name});
      SameRequirements(q[i]);
      RunningNext(q, i, running, ok);
      NewName(q, i, running);
      KeptMore(q[..i], running, m.name);
      assert q[..i + 1][..i] == q[..i];
      if ok {
        running := running + {m.name};
        kept := kept + [m];
      }
      i := i + 1;
    }
    RunningAll(q, running);
    assert q[..|q|] == q;
    KeptInOrder(q, running);
  }

  /** The names kept among the first i modules: closed, and holding every closed set as far as seen. */
  ghost predicate Running(q: seq<Module>, i: nat, running: set<string>)
    requires i <= |q|
  {
    && (forall n | n in running :: exists j :: 0 <= j < i && q[j].name == n)
    && (forall j, n | 0 <= j < i && q[j].name in running && Requires(q[j], n) :: n in running)
    && (forall names, j | Closed(q, names) && 0 <= j < i && q[j].name in names :: q[j].name in running)
  }

  lemma NothingRuns(q: seq<Module>)
    ensures Running(q, 0, {})
  {
  }

  lemma SameRequirements(m: Module)
    ensures forall n :: Requires(m.(started := true), n) <==> Requires(m, n)
  {
  }

  lemma NewName(q: seq<Module>, i: nat, running: set<string>)
    requires DistinctNames(q) && i < |q| && Running(q, i, running)
    ensures q[i].name !in running && forall j | 0 <= j < i :: q[j].name != q[i].name
  {
    hide Requires, Closed;
  }

  lemma RunningNext(q: seq<Module>, i: nat, running: set<string>, ok: bool)
    requires DistinctNames(q) && Ordered(q, |q|) && (forall x | x in q :: !x.started) && i < |q| && Running(q, i, running)
    requires ok <==> forall n | Requires(q[i], n) :: n in running + {q[i].name}
    ensures Running(q, i + 1, if ok then running + {q[i].name} else running)
  {
    NewName(q, i, running);
    hide Requires, Closed, Ordered, DistinctNames;
    var running' := if ok then running + {q[i].name} else running;
    forall n | n in running' ensures exists j :: 0 <= j < i + 1 && q[j].name == n {
      if n in running {
        var j :| 0 <= j < i && q[j].name == n;
      }
    }
    forall names, j | Closed(q, names) && 0 <= j < i + 1 && q[j].name in names ensures q[j].name in running' {
      if j == i {
        ClosedMeets(q, i, running, names);
      }
    }
  }

  /** In sorted order everything that a member of a closed set requires has been seen, and is running. */
  lemma ClosedMeets(q: seq<Module>, i: nat, running: set<string>, names: set<string>)
    requires Ordered(q, |q|) && (forall x | x in q :: !x.started) && i < |q| && Running(q, i, running)
    requires Closed(q, names) && q[i].name in names
    ensures forall n | Requires(q[i], n) :: n in running + {q[i].name}
  {
    hide DependsOn;
    forall n | Requires(q[i], n) ensures n in running + {q[i].name} {
      assert q[i] in q && n in names;
      var x :| x in q && x.name == n;
      var j :| 0 <= j < |q| && q[j] == x;
      RequiredIsDependency(q[i], q[j]);
      assert !q[i].started;
    }
  }

  lemma RequiredIsDependency(x: Module, y: Module)
    requires Requires(x, y.name)
    ensures DependsOn(x, y)
  {
    var k :| 0 <= k < |x.deps| && x.deps[k] == Dep(Required, y.name);
    assert Wants(x.deps[k]) && x.deps[k].name == y.name;
  }

  lemma RunningAll(q: seq<Module>, running: set<string>)
    requires Running(q, |q|, running)
    ensures Closed(q, running) && forall names | Closed(q, names) :: names <= running
  {
    hide Requires;
    forall n | n in running ensures exists x :: x in q && x.name == n {
      var j :| 0 <= j < |q| && q[j].name == n;
      assert q[j] in q;
    }
    forall x, n | x in q && x.name in running && Requires(x, n) ensures n in running {
      var j :| 0 <= j < |q| && q[j] == x;
    }
    forall names | Closed(q, names) ensures names <= running {
      forall n | n in names ensures n in running {
        var x :| x in q && x.name == n;
        var j :| 0 <= j < |q| && q[j] == x;
      }
    }
  }

  lemma SameModules(q: seq<Module>, r: seq<Module>)
    requires multiset(q) == multiset(r)
    ensures forall x :: x in q <==> x in r
    ensures forall names :: Closed(q, names) <==> Closed(r, names)
  {
    forall x ensures x in q <==> x in r {
      assert x in multiset(q) <==> x in multiset(r);
    }
    hide Requires;
  }

  /** zend_startup_modules as a whole: what is kept depends on the modules, not on their first order. */
  method Startup(a: array<Module>, ghost rank: string -> nat) returns (kept: seq<Module>, running: set<string>)
    requires DistinctNames(a[..]) && Acyclic(a[..], rank) && forall x | x in a[..] :: !x.started
    modifies a
    ensures Closed(old(a[..]), running) && forall names | Closed(old(a[..]), names) :: names <= running
    ensures multiset(a[..]) == multiset(old(a[..])) && Ordered(a[..], a.Length)
    ensures kept == KeptOf(a[..], running) && InStartOrder(kept)
    ensures forall x :: x in kept <==> exists y :: y in old(a[..]) && y.name in running && x == y.(started := true)
  {
    hide InStartOrder, KeptOf;
    hide Closed, Ordered, DistinctNames, Acyclic;
    ghost var was := a[..];
    SortModules(a, rank);
    SameModules(a[..], was);
    kept, running := StartModules(a[..]);
    KeptMembers(a[..], running);
  }
}
