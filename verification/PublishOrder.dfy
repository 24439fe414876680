/**
  topoPublishOrder: packages in an order that puts every in-workspace runtime
  dependency before its dependents, or an error when the dependencies are circular.
*/
module PublishOrder {
  import opened NameOrder

  // `deps` are the names of the package's runtime dependencies inside the scope.
  datatype Package = Package(name: string, deps: seq<string>)

  // Who depends on whom, by name.
  type Graph = map<string, set<string>>

  predicate DistinctNames(packages: seq<Package>)
  {
    forall i, j :: 0 <= i < j < |packages| ==> packages[i].name != packages[j].name
  }

  function NamesOf(packages: seq<Package>): set<string>
  {
    if packages == [] then {} else NamesOf(packages[..|packages| - 1]) + {packages[|packages| - 1].name}
  }

  lemma {:induction false} NameAt(packages: seq<Package>, k: nat)
    requires k < |packages|
    ensures packages[k].name in NamesOf(packages)
  {
    if k < |packages| - 1 { NameAt(packages[..|packages| - 1], k); }
  }

  lemma {:induction false} PlaceOf(packages: seq<Package>, name: string) returns (k: nat)
    requires name in NamesOf(packages)
    ensures k < |packages| && packages[k].name == name
  {
    var n := |packages| - 1;
    if packages[n].name == name { k := n; } else { k := PlaceOf(packages[..n], name); }
  }

  function Named(packages: seq<Package>, name: string): (p: Package)
    requires name in NamesOf(packages)
    ensures p in packages && p.name == name
  {
    var n := |packages| - 1;
    if packages[n].name == name then packages[n] else Named(packages[..n], name)
  }

  predicate Closed(g: Graph) { forall n :: n in g ==> g[n] <= g.Keys }

  // Only dependencies that are packages of the workspace matter.
  function GraphOf(packages: seq<Package>): (g: Graph)
    ensures g.Keys == NamesOf(packages)
    ensures Closed(g)
  {
    var names := NamesOf(packages);
    map n | n in names :: (set d | d in Named(packages, n).deps && d in names)
  }

  // A package needs exactly those of its dependencies that are packages too.
  lemma GraphEdges(packages: seq<Package>)
    requires DistinctNames(packages)
    ensures forall p, d :: p in packages ==>
      p.name in GraphOf(packages) && (d in GraphOf(packages)[p.name] <==> d in p.deps && IsPackage(packages, d))
    ensures forall n :: n in GraphOf(packages) <==> IsPackage(packages, n)
  {
    forall n ensures n in NamesOf(packages) <==> IsPackage(packages, n) {
      if n in NamesOf(packages) { var k := PlaceOf(packages, n); }
      if k :| 0 <= k < |packages| && packages[k].name == n { NameAt(packages, k); }
    }
    forall p | p in packages ensures p.name in NamesOf(packages) && Named(packages, p.name) == p {
      var k :| 0 <= k < |packages| && packages[k] == p;
      NameAt(packages, k);
      var q := Named(packages, p.name);
      var i :| 0 <= i < |packages| && packages[i] == q;
      assert !(i < k) && !(k < i);
    }
  }

  predicate IsPackage(packages: seq<Package>, name: string)
  {
    exists k :: 0 <= k < |packages| && packages[k].name == name
  }

  // ---------------------------------------------------------------- cycles

  predicate Needs(g: Graph, a: string, b: string) { a in g && b in g[a] }

  ghost predicate Walk(g: Graph, walk: seq<string>)
  {
    forall i {:trigger walk[i]} :: 0 <= i < |walk| - 1 ==> Needs(g, walk[i], walk[i + 1])
  }

  // A walk along dependencies that comes back to where it began.
  ghost predicate IsCycle(g: Graph, walk: seq<string>)
  {
    |walk| > 1 && walk[0] == walk[|walk| - 1] && Walk(g, walk)
  }

  ghost predicate Circular(g: Graph) { exists walk :: IsCycle(g, walk) }

  // Every name of s needs one of s.
  ghost predicate Stuck(g: Graph, s: set<string>)
  {
    forall a :: a in s ==> a in g && g[a] * s != {}
  }

  ghost predicate Within(walk: seq<string>, s: set<string>) { forall a :: a in walk ==> a in s }

  // From a stuck set one can walk on for ever ...
  lemma {:induction false} WalkOn(g: Graph, s: set<string>, n: nat) returns (walk: seq<string>)
    requires Stuck(g, s) && s != {} && n > 0
    ensures |walk| == n && Walk(g, walk) && Within(walk, s)
    decreases n
  {
    if n == 1 {
      var a :| a in s;
      walk := [a];
    } else {
      var w := WalkOn(g, s, n - 1);
      assert w[n - 2] in w;
      var b :| b in g[w[n - 2]] * s;
      walk := w + [b];
    }
  }

  // ... and so must come back to a name it has been at.
  lemma {:induction false} Repeats(walk: seq<string>, s: set<string>) returns (i: nat, j: nat)
    requires |walk| > |s| && Within(walk, s)
    ensures i < j < |walk| && walk[i] == walk[j]
    decreases |walk|
  {
    var n := |walk| - 1;
    var last := walk[n];
    assert last in walk;
    if k :| 0 <= k < n && walk[k] == last {
      i, j := k, n;
    } else {
      assert |s - {last}| == |s| - 1;
      i, j := Repeats(walk[..n], s - {last});
    }
  }

  lemma StuckHasCycle(g: Graph, s: set<string>)
    requires Stuck(g, s) && s != {}
    ensures Circular(g)
  {
    var w := WalkOn(g, s, |s| + 1);
    var i, j := Repeats(w, s);
    var walk := w[i..j + 1];
    forall k | 0 <= k < |walk| - 1 ensures Needs(g, walk[k], walk[k + 1]) {
      assert walk[k] == w[i + k] && walk[k + 1] == w[i + k + 1];
    }
    assert IsCycle(g, walk);
  }

  // ---------------------------------------------------------------- orders

  // Each dependency comes before its dependent.
  ghost predicate DepsFirst(g: Graph, order: seq<Package>)
  {
    forall j :: 0 <= j < |order| ==> order[j].name in g && g[order[j].name] <= NamesOf(order[..j])
  }

  // A walk along dependencies goes strictly backwards in such an order.
  lemma {:induction false} WalkGoesBack(g: Graph, order: seq<Package>, walk: seq<string>, n: nat, at: nat)
    requires DistinctNames(order) && DepsFirst(g, order)
    requires n < |walk| && Walk(g, walk) && at < |order| && order[at].name == walk[0]
    ensures exists k :: 0 <= k <= at - n && order[k].name == walk[n]
    decreases n
  {
    if n == 0 {
      assert order[at].name == walk[n];
    } else {
      WalkGoesBack(g, order, walk, n - 1, at);
      var j :| 0 <= j <= at - (n - 1) && order[j].name == walk[n - 1];
      assert Needs(g, walk[n - 1], walk[n - 1 + 1]);
      assert walk[n] in NamesOf(order[..j]);
      var k := PlaceOf(order[..j], walk[n]);
    }
  }

  // No order puts dependencies first when there is a cycle.
  lemma CycleHasNoOrder(g: Graph, order: seq<Package>)
    requires DistinctNames(order) && NamesOf(order) == g.Keys && Circular(g)
    ensures !DepsFirst(g, order)
  {
    if DepsFirst(g, order) {
      var walk :| IsCycle(g, walk);
      assert Needs(g, walk[0], walk[0 + 1]);
      var at := PlaceOf(order, walk[0]);
      WalkGoesBack(g, order, walk, |walk| - 1, at);
    }
  }

  lemma {:induction false} OnceEach(packages: seq<Package>, p: Package)
    requires DistinctNames(packages)
    ensures multiset(packages)[p] == if p in packages then 1 else 0
    decreases packages
  {
    if packages != [] {
      assert packages == [packages[0]] + packages[1..];
      OnceEach(packages[1..], p);
      assert p in packages[1..] ==> packages[0].name != p.name;
    }
  }

  lemma Rearranged(packages: seq<Package>, order: seq<Package>)
    requires DistinctNames(packages) && DistinctNames(order)
    requires (forall p :: p in order ==> p in packages) && NamesOf(order) == NamesOf(packages)
    ensures multiset(order) == multiset(packages)
  {
    forall p ensures multiset(order)[p] == multiset(packages)[p] {
      OnceEach(packages, p);
      OnceEach(order, p);
      if p in packages {
        var j :| 0 <= j < |packages| && packages[j] == p;
        NameAt(packages, j);
        var k := PlaceOf(order, p.name);
        assert order[k] in packages && p == order[k];
      }
    }
  }

  // ---------------------------------------------------------------- the method

  datatype Outcome = Ordered(order: seq<Package>) | CircularDependency(names: seq<string>)

  // The graph when the packages of s have been taken out.
  function Without(g: Graph, s: set<string>): Graph { map n | n in g && n !in s :: g[n] - s }

  function ReadyIn(remaining: Graph): (ready: set<string>)
    ensures forall n :: n in ready <==> n in remaining && remaining[n] == {}
  {
    set n | n in remaining && remaining[n] == {}
  }

  // Round by round: the packages that wait for nothing, by name, and then those that wait
  // for nothing once these are out.
  ghost function Rounds(g: Graph): seq<string>
    decreases g.Keys
  {
    var ready := ReadyIn(g);
    if ready == {} then []
    else
      var n :| n in ready;
      assert n in g.Keys && n !in Without(g, ready).Keys;
      Sorted(ready) + Rounds(Without(g, ready))
  }

  function NamesIn(order: seq<Package>): (names: seq<string>)
    ensures |names| == |order| && forall i :: 0 <= i < |order| ==> names[i] == order[i].name
  {
    seq(|order|, i requires 0 <= i < |order| => order[i].name)
  }

  // What the caller gets: all packages, dependencies first and in rounds sorted by name; or,
  // exactly when there is a cycle, an error with the sorted names of packages each of which
  // needs another one of them.
  ghost predicate Meets(packages: seq<Package>, g: Graph, r: Outcome)
  {
    match r
    case Ordered(order) =>
      multiset(order) == multiset(packages) && DepsFirst(g, order) && !Circular(g) && NamesIn(order) == Rounds(g)
    case CircularDependency(names) => Circular(g) && NamesStuck(g, names)
  }

  // The same of the packages themselves: each dependency that is a package stands before its
  // dependent; or the names given are packages, in ascending order, that each depend on another.
  ghost predicate OrderServes(packages: seq<Package>, r: Outcome)
  {
    match r
    case Ordered(order) =>
      && multiset(order) == multiset(packages)
      && forall j, d :: 0 <= j < |order| && d in order[j].deps && IsPackage(packages, d) ==>
           exists i :: 0 <= i < j && order[i].name == d
    case CircularDependency(names) =>
      && names != [] && Ascending(names)
      && forall n {:trigger NeedsOneOf(packages, n, names)} :: n in names ==> NeedsOneOf(packages, n, names)
  }

  predicate NeedsOneOf(packages: seq<Package>, n: string, names: seq<string>)
  {
    exists p :: p in packages && p.name == n && exists d :: d in p.deps && d in names
  }

  lemma MeetsServes(packages: seq<Package>, r: Outcome)
    requires DistinctNames(packages) && Meets(packages, GraphOf(packages), r)
    ensures OrderServes(packages, r)
  {
    match r
    case Ordered(order) =>
      forall j, d | 0 <= j < |order| && d in order[j].deps && IsPackage(packages, d)
        ensures exists i :: 0 <= i < j && order[i].name == d
      {
        DependencyBefore(packages, order, j, d);
      }
    case CircularDependency(names) => StuckServes(packages, names);
  }

  lemma DependencyBefore(packages: seq<Package>, order: seq<Package>, j: nat, d: string)
    requires DistinctNames(packages) && multiset(order) == multiset(packages) && DepsFirst(GraphOf(packages), order)
    requires j < |order| && d in order[j].deps && IsPackage(packages, d)
    ensures exists i :: 0 <= i < j && order[i].name == d
  {
    assert order[j] in multiset(order) && order[j] in packages;
    GraphEdges(packages);
    var i := PlaceOf(order[..j], d);
    assert order[..j][i] == order[i];
  }

  lemma StuckServes(packages: seq<Package>, names: seq<string>)
    requires DistinctNames(packages) && NamesStuck(GraphOf(packages), names)
    ensures OrderServes(packages, CircularDependency(names))
  {
    forall n {:trigger NeedsOneOf(packages, n, names)} | n in names ensures NeedsOneOf(packages, n, names) {
      NameServes(packages, names, n);
    }
    var s :| s != {} && Stuck(GraphOf(packages), s) && names == Sorted(s);
    NamesOfStuck(s, names);
  }

  lemma NameServes(packages: seq<Package>, names: seq<string>, n: string)
    requires DistinctNames(packages) && NamesStuck(GraphOf(packages), names) && n in names
    ensures NeedsOneOf(packages, n, names)
  {
    var s :| s != {} && Stuck(GraphOf(packages), s) && names == Sorted(s);
    NamesOfStuck(s, names);
    StuckDepends(packages, s, n, names);
  }

  lemma NamesOfStuck(s: set<string>, names: seq<string>)
    requires s != {} && names == Sorted(s)
    ensures names != [] && Ascending(names) && forall n :: n in names <==> n in s
  {
    SortedAscends(s);
  }

  lemma StuckDepends(packages: seq<Package>, s: set<string>, n: string, names: seq<string>)
    requires DistinctNames(packages) && Stuck(GraphOf(packages), s) && n in s && forall x :: x in names <==> x in s
    ensures NeedsOneOf(packages, n, names)
  {
    GraphEdges(packages);
    var p := Named(packages, n);
    var d :| d in GraphOf(packages)[n] * s;
    assert d in p.deps && d in names;
  }

  ghost predicate NamesStuck(g: Graph, names: seq<string>)
  {
    exists s :: s != {} && Stuck(g, s) && names == Sorted(s)
  }

  // What is known half way: `remaining` are the packages not yet ordered, each with the
  // dependencies not yet ordered.
  ghost predicate Halfway(packages: seq<Package>, g: Graph, ordered: seq<Package>, remaining: Graph)
  {
    && DistinctNames(ordered) && (forall p :: p in ordered ==> p in packages)
    && Pending(g, NamesOf(ordered), remaining)
    && DepsFirst(g, ordered)
  }

  ghost predicate Pending(g: Graph, done: set<string>, remaining: Graph)
  {
    && done !! remaining.Keys && done + remaining.Keys == g.Keys
    && forall n :: n in remaining ==> remaining[n] == g[n] - done
  }

  function Less(m: Graph, name: string): Graph { map n | n in m && n != name :: m[n] - {name} }

  lemma NamesOfPush(ordered: seq<Package>, p: Package)
    ensures NamesOf(ordered + [p]) == NamesOf(ordered) + {p.name}
  {
    assert (ordered + [p])[..|ordered|] == ordered;
  }

  lemma OneMore(packages: seq<Package>, g: Graph, ordered: seq<Package>, remaining: Graph, name: string)
    requires g.Keys == NamesOf(packages)
    requires Halfway(packages, g, ordered, remaining) && name in remaining && remaining[name] == {}
    ensures Halfway(packages, g, ordered + [Named(packages, name)], Less(remaining, name))
  {
    var p := Named(packages, name);
    var next := ordered + [p];
    NamesOfPush(ordered, p);
    assert name !in NamesOf(ordered);
    assert Pending(g, NamesOf(ordered) + {name}, Less(remaining, name));
    StillDistinct(ordered, p);
    StillDepsFirst(g, ordered, p);
  }

  lemma StillDistinct(ordered: seq<Package>, p: Package)
    requires DistinctNames(ordered) && p.name !in NamesOf(ordered)
    ensures DistinctNames(ordered + [p])
  {
    forall i | 0 <= i < |ordered| ensures ordered[i].name != p.name {
      NameAt(ordered, i);
    }
  }

  lemma StillDepsFirst(g: Graph, ordered: seq<Package>, p: Package)
    requires DepsFirst(g, ordered) && p.name in g && g[p.name] <= NamesOf(ordered)
    ensures DepsFirst(g, ordered + [p])
  {
    var next := ordered + [p];
    forall j | 0 <= j < |next| ensures next[j].name in g && g[next[j].name] <= NamesOf(next[..j]) {
      if j == |ordered| {
        assert next[..j] == ordered;
      } else {
        assert next[..j] == ordered[..j] && next[j] == ordered[j];
      }
    }
  }

  lemma AllStuck(g: Graph, done: set<string>, remaining: Graph)
    requires Closed(g) && Pending(g, done, remaining) && ReadyIn(remaining) == {}
    ensures Stuck(g, remaining.Keys)
  {
    forall a | a in remaining ensures a in g && g[a] * remaining.Keys != {} {
      assert a !in ReadyIn(remaining);
      var d :| d in remaining[a];
      assert d in g[a] * remaining.Keys;
    }
  }

  lemma NothingReady(packages: seq<Package>, g: Graph, done: set<string>, remaining: Graph)
    requires Closed(g) && Pending(g, done, remaining) && remaining.Keys != {} && ReadyIn(remaining) == {}
    ensures Meets(packages, g, CircularDependency(Sorted(remaining.Keys)))
  {
    AllStuck(g, done, remaining);
    CycleReported(packages, g, remaining.Keys);
  }

  lemma CycleReported(packages: seq<Package>, g: Graph, s: set<string>)
    requires s != {} && Stuck(g, s)
    ensures Meets(packages, g, CircularDependency(Sorted(s)))
  {
    var names := Sorted(s);
    StuckHasCycle(g, s);
    StuckNamed(g, s);
    assert Circular(g) && NamesStuck(g, names);
  }

  lemma StuckNamed(g: Graph, s: set<string>)
    requires s != {} && Stuck(g, s)
    ensures NamesStuck(g, Sorted(s))
  {
  }

  method DeleteFromAll(m: Graph, name: string) returns (r: Graph)
    ensures r == map n | n in m :: m[n] - {name}
  {
    r := m;
    var keys := m.Keys;
    while keys != {}
      invariant keys <= m.Keys && r.Keys == m.Keys
      invariant forall n :: n in m ==> r[n] == if n in keys then m[n] else m[n] - {name}
      decreases |keys|
    {
      var n :| n in keys;
      r := r[n := r[n] - {name}];
      keys := keys - {n};
    }
  }

  // A package is taken out, and no other waits for it any more.
  method Unlink(m: Graph, name: string) returns (r: Graph)
    ensures r == Less(m, name)
  {
    r := m - {name};
    r := DeleteFromAll(r, name);
  }

  lemma WithoutMore(g: Graph, s: set<string>, name: string)
    ensures Less(Without(g, s), name) == Without(g, s + {name})
  {
    assert forall n :: n in g ==> g[n] - s - {name} == g[n] - (s + {name});
  }

  lemma WithoutNone(g: Graph)
    ensures Without(g, {}) == g
  {
    assert forall n :: n in g ==> g[n] - {} == g[n];
  }

  lemma PushName(order: seq<Package>, p: Package)
    ensures NamesIn(order + [p]) == NamesIn(order) + [p.name]
  {
  }

  // The names already taken of a sorted round, and the next one.
  lemma TakenNext(names: seq<string>, i: nat)
    requires i < |names|
    ensures SetOf(names[..i + 1]) == SetOf(names[..i]) + {names[i]}
  {
    assert names[..i + 1] == names[..i] + [names[i]];
  }

  function SetOf(names: seq<string>): set<string> { set n | n in names }

  // Half way through a round: its first i names are taken out and pushed.
  ghost predicate InRound(packages: seq<Package>, g: Graph, ready: seq<string>, i: nat, ordered: seq<Package>,
                          remaining: Graph, ordered': seq<Package>, remaining': Graph)
    requires i <= |ready|
  {
    && Halfway(packages, g, ordered', remaining') && remaining' == Without(remaining, SetOf(ready[..i]))
    && NamesIn(ordered') == NamesIn(ordered) + ready[..i]
  }

  // The next name of a sorted round still waits for nothing.
  lemma NextIsReady(ready: seq<string>, i: nat, remaining: Graph)
    requires i < |ready| && ready == Sorted(ReadyIn(remaining))
    ensures var rest := Without(remaining, SetOf(ready[..i])); ready[i] in rest && rest[ready[i]] == {}
  {
    SortedAscends(ReadyIn(remaining));
    assert ready[i] in ready;
    assert ready[i] !in SetOf(ready[..i]);
    assert ready[i] in ReadyIn(remaining);
  }

  lemma RoundStep(packages: seq<Package>, g: Graph, ready: seq<string>, i: nat, ordered: seq<Package>,
                  remaining: Graph, ordered': seq<Package>, remaining': Graph)
    requires g.Keys == NamesOf(packages) && i < |ready| && ready == Sorted(ReadyIn(remaining))
    requires InRound(packages, g, ready, i, ordered, remaining, ordered', remaining')
    ensures ready[i] in NamesOf(packages)
    ensures InRound(packages, g, ready, i + 1, ordered, remaining, ordered' + [Named(packages, ready[i])],
                    Less(remaining', ready[i]))
  {
    NextIsReady(ready, i, remaining);
    PendingKnown(packages, g, ordered', remaining', ready[i]);
    OneMore(packages, g, ordered', remaining', ready[i]);
    RoundNames(ready, i, remaining, NamesIn(ordered), ordered', Named(packages, ready[i]));
  }

  lemma PendingKnown(packages: seq<Package>, g: Graph, ordered: seq<Package>, remaining: Graph, name: string)
    requires g.Keys == NamesOf(packages) && Halfway(packages, g, ordered, remaining) && name in remaining
    ensures name in NamesOf(packages)
  {
    assert name in remaining.Keys;
  }

  lemma RoundNames(ready: seq<string>, i: nat, remaining: Graph, names: seq<string>, ordered: seq<Package>, p: Package)
    requires i < |ready| && p.name == ready[i] && NamesIn(ordered) == names + ready[..i]
    ensures Less(Without(remaining, SetOf(ready[..i])), ready[i]) == Without(remaining, SetOf(ready[..i + 1]))
    ensures NamesIn(ordered + [p]) == names + ready[..i + 1]
  {
    TakenNext(ready, i);
    WithoutMore(remaining, SetOf(ready[..i]), ready[i]);
    PushName(ordered, p);
    assert ready[..i + 1] == ready[..i] + [ready[i]];
    assert names + ready[..i] + [ready[i]] == names + (ready[..i] + [ready[i]]);
  }

  // One round: every ready package is taken out and pushed, by name.
  method PublishReady(packages: seq<Package>, ghost g: Graph, ready: seq<string>, ordered: seq<Package>,
                      remaining: Graph)
    returns (ordered': seq<Package>, remaining': Graph)
    requires g.Keys == NamesOf(packages) && Halfway(packages, g, ordered, remaining)
    requires ready == Sorted(ReadyIn(remaining))
    ensures Halfway(packages, g, ordered', remaining')
    ensures remaining' == Without(remaining, ReadyIn(remaining)) && NamesIn(ordered') == NamesIn(ordered) + ready
  {
    ordered', remaining' := ordered, remaining;
    WithoutNone(remaining);
    assert SetOf(ready[..0]) == {};
    assert NamesIn(ordered) + ready[..0] == NamesIn(ordered);
    var i := 0;
    while i < |ready|
      invariant 0 <= i <= |ready| && InRound(packages, g, ready, i, ordered, remaining, ordered', remaining')
    {
      RoundStep(packages, g, ready, i, ordered, remaining, ordered', remaining');
      remaining' := Unlink(remaining', ready[i]);
      ordered' := ordered' + [Named(packages, ready[i])];
      i := i + 1;
    }
    assert ready[..i] == ready;
    SortedAscends(ReadyIn(remaining));
    assert SetOf(ready) == ReadyIn(remaining);
  }

  lemma Finished(packages: seq<Package>, g: Graph, ordered: seq<Package>)
    requires DistinctNames(packages) && g.Keys == NamesOf(packages)
    requires Halfway(packages, g, ordered, map[]) && NamesIn(ordered) + Rounds(map[]) == Rounds(g)
    ensures Meets(packages, g, Ordered(ordered))
  {
    Rearranged(packages, ordered);
    if Circular(g) { CycleHasNoOrder(g, ordered); }
    assert ReadyIn(map[]) == {};
    assert NamesIn(ordered) + [] == NamesIn(ordered);
  }

  lemma RoundDone(remaining: Graph, names: seq<string>, all: seq<string>)
    requires ReadyIn(remaining) != {} && names + Rounds(remaining) == all
    ensures names + Sorted(ReadyIn(remaining)) + Rounds(Without(remaining, ReadyIn(remaining))) == all
    ensures Without(remaining, ReadyIn(remaining)).Keys < remaining.Keys
  {
    var s, rest := Sorted(ReadyIn(remaining)), Rounds(Without(remaining, ReadyIn(remaining)));
    assert names + (s + rest) == names + s + rest;
    var n :| n in ReadyIn(remaining);
    assert n in remaining.Keys && n !in Without(remaining, ReadyIn(remaining)).Keys;
  }

  method TopoPublishOrder(packages: seq<Package>) returns (r: Outcome)
    requires DistinctNames(packages)
    ensures Meets(packages, GraphOf(packages), r) && OrderServes(packages, r)
  {
    var remaining := GraphOf(packages);
    ghost var g := remaining;
    var ordered: seq<Package> := [];
    assert NamesIn(ordered) + Rounds(remaining) == Rounds(g);
    while remaining.Keys != {}
      invariant Halfway(packages, g, ordered, remaining)
      invariant NamesIn(ordered) + Rounds(remaining) == Rounds(g)
      decreases remaining.Keys
    {
      if ReadyIn(remaining) == {} {
        NothingReady(packages, g, NamesOf(ordered), remaining);
        var cycle := SortNames(remaining.Keys);
        MeetsServes(packages, CircularDependency(cycle));
        return CircularDependency(cycle);
      }
      RoundDone(remaining, NamesIn(ordered), Rounds(g));
      var ready := SortNames(ReadyIn(remaining));
      ordered, remaining := PublishReady(packages, g, ready, ordered, remaining);
    }
    Finished(packages, g, ordered);
    MeetsServes(packages, Ordered(ordered));
    return Ordered(ordered);
  }
}
