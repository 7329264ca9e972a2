/** Build waves: modules whose dependencies have all been built in earlier waves. */
module ModuleWaves {
  import opened ModuleGraph

  // ----- the waves, as sets -----

  /** How many entries are not in `done`, counted with repetition. */
  function Undone(s: seq<Key>, done: set<Key>): nat {
    if s == [] then 0 else Undone(s[..|s| - 1], done) + if s[|s| - 1] in done then 0 else 1
  }

  function Layer(g: Graph, done: set<Key>): set<Key> {
    set k | k in g.deps && k !in done && Undone(g.deps[k], done) == 0
  }

  function Layers(g: Graph, done: set<Key>): seq<set<Key>>
    decreases |g.deps.Keys - done|
  {
    var l := Layer(g, done);
    if l == {} then [] else
    assert g.deps.Keys - (done + l) < g.deps.Keys - done by {
      var k :| k in l;
      assert k in g.deps.Keys - done && k !in g.deps.Keys - (done + l);
    }
    Smaller(g.deps.Keys - (done + l), g.deps.Keys - done);
    [l] + Layers(g, done + l)
  }

  lemma Smaller(a: set<Key>, b: set<Key>)
    requires a < b
    ensures |a| < |b|
  {
    var x :| x in b && x !in a;
    assert a <= b - {x};
    SubsetSize(a, b - {x});
  }

  lemma {:induction false} SubsetSize(a: set<Key>, b: set<Key>)
    requires a <= b
    ensures |a| <= |b|
    decreases a
  {
    if a != {} {
      var x :| x in a;
      SubsetSize(a - {x}, b - {x});
    }
  }

  lemma {:induction false} UndoneZero(s: seq<Key>, done: set<Key>)
    ensures Undone(s, done) == 0 <==> forall k :: k in s ==> k in done
    decreases |s|
  {
    if s != [] {
      UndoneZero(s[..|s| - 1], done);
      assert s == s[..|s| - 1] + [s[|s| - 1]];
    }
  }

  /** Finishing one module takes away its occurrences. */
  lemma {:induction false} UndoneLess(s: seq<Key>, done: set<Key>, x: Key)
    requires x !in done
    ensures Undone(s, done) == Undone(s, done + {x}) + Times(s, x)
    decreases |s|
  {
    if s != [] {
      assert s == s[..|s| - 1] + [s[|s| - 1]];
      UndoneLess(s[..|s| - 1], done, x);
    }
  }

  // ----- Kahn's algorithm -----

  function Insert(k: Key, s: seq<Key>): seq<Key> {
    if s == [] || k <= s[0] then [k] + s else [s[0]] + Insert(k, s[1..])
  }

  function Sort(s: seq<Key>): seq<Key> {
    if s == [] then [] else Insert(s[0], Sort(s[1..]))
  }

  lemma ConsAscends(k: Key, s: seq<Key>)
    requires Ascending(s) && forall x :: x in s ==> k < x
    ensures Ascending([k] + s) && Elems([k] + s) == {k} + Elems(s)
  {
    var t := [k] + s;
    forall i, j | 0 <= i < j < |t| ensures t[i] < t[j] {
      if i > 0 { assert s[i - 1] < s[j - 1]; } else { assert t[j] == s[j - 1] && s[j - 1] in s; }
    }
  }

  lemma TailAscends(s: seq<Key>)
    requires Ascending(s) && s != []
    ensures Ascending(s[1..]) && (forall x :: x in s[1..] ==> s[0] < x) && Elems(s) == {s[0]} + Elems(s[1..])
  {
    assert s == [s[0]] + s[1..];
  }

  lemma {:induction false} InsertAscends(k: Key, s: seq<Key>)
    requires Ascending(s) && k !in s
    ensures Ascending(Insert(k, s)) && Elems(Insert(k, s)) == {k} + Elems(s)
    decreases |s|
  {
    hide Ascending;
    if s == [] || k <= s[0] {
      if s != [] { TailAscends(s); assert s == [s[0]] + s[1..]; }
      ConsAscends(k, s);
    } else {
      TailAscends(s);
      assert s == [s[0]] + s[1..];
      InsertAscends(k, s[1..]);
      var t := Insert(k, s[1..]);
      forall x | x in t ensures s[0] < x { assert x in Elems(t); }
      ConsAscends(s[0], t);
    }
  }

  lemma {:induction false} SortAscends(s: seq<Key>)
    requires Distinct(s)
    ensures Ascending(Sort(s)) && Elems(Sort(s)) == Elems(s)
    decreases |s|
  {
    if s == [] {
      assert Sort(s) == [];
    } else {
      var rest := s[1..];
      assert s == [s[0]] + rest;
      forall i, j | 0 <= i < j < |rest| ensures rest[i] != rest[j] { assert s[i + 1] != s[j + 1]; }
      SortAscends(rest);
      forall j | 0 <= j < |rest| ensures rest[j] != s[0] { assert s[j + 1] != s[0]; }
      assert s[0] !in Elems(Sort(rest));
      InsertAscends(s[0], Sort(rest));
      assert Elems(s) == {s[0]} + Elems(rest);
    }
  }

  function Times(s: seq<Key>, k: Key): nat {
    multiset(s)[k]
  }

  lemma TimesAppend(s: seq<Key>, last: Key)
    ensures forall k :: Times(s + [last], k) == Times(s, k) + if k == last then 1 else 0
  {
  }

  lemma TimesUpTo(s: seq<Key>, i: nat)
    requires i < |s|
    ensures s[..i + 1] == s[..i] + [s[i]] && Times(s, s[i]) > Times(s[..i], s[i])
  {
    assert s == s[..i] + ([s[i]] + s[i + 1..]);
  }

  function Uses(g: Graph, c: Key, x: Key): nat {
    if c in g.deps then Times(g.deps[c], x) else 0
  }

  function DependentsOf(dependents: map<Key, seq<Key>>, x: Key): seq<Key> {
    if x in dependents then dependents[x] else []
  }

  /** How often `c` depends on `x`, as recorded under `x`. */
  function Noted(dependents: map<Key, seq<Key>>, c: Key, x: Key): nat {
    Times(DependentsOf(dependents, x), c)
  }

  method CountDependencies(g: Graph) returns (indegree: map<Key, nat>, dependents: map<Key, seq<Key>>)
    requires WellFormed(g) && Closed(g)
    ensures indegree.Keys == g.deps.Keys && forall k :: k in g.deps ==> indegree[k] == |g.deps[k]|
    ensures forall c, x :: Noted(dependents, c, x) == Uses(g, c, x)
  {
    hide Times, Closed;
    indegree, dependents := map[], map[];
    forall c, x ensures Noted(dependents, c, x) == 0 { NoTimes(c); }
    var i := 0;
    while i < |g.keys|
      invariant 0 <= i <= |g.keys| && indegree.Keys == Elems(g.keys[..i])
      invariant forall k :: k in indegree ==> k in g.deps && indegree[k] == |g.deps[k]|
      invariant forall c, x :: Noted(dependents, c, x) == if c in g.keys[..i] then Uses(g, c, x) else 0
    {
      var key := g.keys[i];
      KeyKnown(g, i);
      indegree := indegree[key := |g.deps[key]|];
      dependents := AddDependent(g.deps[key], key, dependents);
      i := i + 1;
    }
    assert g.keys[..i] == g.keys;
    forall c, x ensures Noted(dependents, c, x) == Uses(g, c, x) {
      assert c in g.keys <==> c in Elems(g.keys);
    }
  }

  lemma NoTimes(k: Key)
    ensures Times([], k) == 0
  {
  }

  lemma KeyKnown(g: Graph, i: nat)
    requires WellFormed(g) && i < |g.keys|
    ensures g.keys[i] in g.deps && g.keys[i] !in g.keys[..i] && g.keys[..i + 1] == g.keys[..i] + [g.keys[i]]
    ensures Elems(g.keys[..i + 1]) == Elems(g.keys[..i]) + {g.keys[i]}
  {
    assert g.keys[i] in Elems(g.keys);
    assert g.keys[..i + 1] == g.keys[..i] + [g.keys[i]];
  }

  method AddDependent(dependencies: seq<Key>, key: Key, was: map<Key, seq<Key>>) returns (dependents: map<Key, seq<Key>>)
    ensures forall c, x :: Noted(dependents, c, x) == Noted(was, c, x) + if c == key then Times(dependencies, x) else 0
  {
    hide Times;
    dependents := was;
    var j := 0;
    forall k ensures Times(dependencies[..0], k) == 0 { NoTimes(k); assert dependencies[..0] == []; }
    while j < |dependencies|
      invariant 0 <= j <= |dependencies|
      invariant forall c, x :: Noted(dependents, c, x) == Noted(was, c, x) + if c == key then Times(dependencies[..j], x) else 0
    {
      var d := dependencies[j];
      TimesUpTo(dependencies, j);
      TimesAppend(dependencies[..j], d);
      TimesAppend(DependentsOf(dependents, d), key);
      dependents := dependents[d := DependentsOf(dependents, d) + [key]];
      j := j + 1;
    }
    assert dependencies[..j] == dependencies;
  }

  /** The degrees say how many dependencies are not in `done`. */
  predicate Counted(g: Graph, indegree: map<Key, nat>, done: set<Key>) {
    indegree.Keys == g.deps.Keys && forall k :: k in g.deps ==> indegree[k] == Undone(g.deps[k], done)
  }

  /** The modules that became ready since `done`: waiting then, waiting for nothing now. */
  predicate Waked(g: Graph, indegree: map<Key, nat>, done: set<Key>, ready: seq<Key>) {
    Distinct(ready) && indegree.Keys == g.deps.Keys && (forall k :: k in ready ==> k in g.deps)
    && forall k :: k in g.deps ==> (k in ready <==> Undone(g.deps[k], done) > 0 && indegree[k] == 0)
  }

  /** One finished module: each module that depends on it waits for one less. */
  method Release(g: Graph, children: seq<Key>, x: Key, indegree0: map<Key, nat>, ready0: seq<Key>, ghost start: set<Key>, ghost done: set<Key>)
    returns (indegree: map<Key, nat>, ready: seq<Key>)
    requires x !in done && Counted(g, indegree0, done) && Waked(g, indegree0, start, ready0) && start <= done
    requires forall c :: Times(children, c) == Uses(g, c, x)
    ensures Counted(g, indegree, done + {x}) && Waked(g, indegree, start, ready)
  {
    hide Times, Undone, Waked;
    indegree, ready := indegree0, ready0;
    forall k | k in g.deps ensures Undone(g.deps[k], done) == Undone(g.deps[k], done + {x}) + Times(children, k) {
      UndoneLess(g.deps[k], done, x);
    }
    forall k ensures Times(children[..0], k) == 0 { NoTimes(k); assert children[..0] == []; }
    var i := 0;
    while i < |children|
      invariant 0 <= i <= |children| && indegree.Keys == g.deps.Keys
      invariant forall k :: k in g.deps ==> indegree[k] + Times(children[..i], k) == Undone(g.deps[k], done)
      invariant Waked(g, indegree, start, ready)
    {
      var child := children[i];
      TimesUpTo(children, i);
      TimesAppend(children[..i], child);
      assert Uses(g, child, x) > 0;
      UndoneShrinks(g.deps[child], start, done);
      WakeOne(g, indegree, start, ready, child);
      indegree := indegree[child := indegree[child] - 1];
      if indegree[child] == 0 {
        ready := ready + [child];
      }
      i := i + 1;
    }
    assert children[..i] == children;
  }

  lemma {:induction false} UndoneShrinks(s: seq<Key>, start: set<Key>, done: set<Key>)
    requires start <= done
    ensures Undone(s, done) <= Undone(s, start)
    decreases |s|
  {
    if s != [] { UndoneShrinks(s[..|s| - 1], start, done); }
  }

  lemma WakeOne(g: Graph, indegree: map<Key, nat>, start: set<Key>, ready: seq<Key>, child: Key)
    requires Waked(g, indegree, start, ready) && child in g.deps && 0 < indegree[child] <= Undone(g.deps[child], start)
    ensures Waked(g, indegree[child := indegree[child] - 1], start, if indegree[child] == 1 then ready + [child] else ready)
  {
    assert child !in ready;
    hide Undone;
  }

  /** Waves in ascending order, each with the modules of its layer. */
  predicate Waves(waves: seq<seq<Key>>, layers: seq<set<Key>>) {
    |waves| == |layers| && forall i :: 0 <= i < |waves| ==> Ascending(waves[i]) && Elems(waves[i]) == layers[i]
  }

  method ReadyWaves(g: Graph) returns (waves: seq<seq<Key>>)
    requires WellFormed(g) && Closed(g)
    ensures Waves(waves, Layers(g, {}))
  {
    hide Layers, Layer, Counted, Waked, Closed, DoneClosed;
    var indegree, dependents := CountDependencies(g);
    NothingDone(g, indegree);
    var ready := Sources(g, indegree);
    ghost var done: set<Key> := {};
    ghost var past: seq<set<Key>> := [];
    waves := [];
    while ready != []
      invariant Counted(g, indegree, done) && Ascending(ready) && Elems(ready) == Layer(g, done) && DoneClosed(g, done)
      invariant Waves(waves, past) && Layers(g, {}) == past + Layers(g, done)
      decreases |Layers(g, done)|
    {
      var wave := ready;
      assert wave[0] in Elems(wave);
      LayersStep(g, done);
      indegree, ready := ReleaseWave(g, wave, indegree, dependents, done);
      NextLayer(g, done, indegree, ready);
      ready := Sort(ready);
      done := done + Elems(wave);
      past := past + [Elems(wave)];
      waves := waves + [wave];
    }
    assert Elems(ready) == {};
    LayersStep(g, done);
    assert past == Layers(g, {});
  }

  lemma NothingDone(g: Graph, indegree: map<Key, nat>)
    requires indegree.Keys == g.deps.Keys && forall k :: k in g.deps ==> indegree[k] == |g.deps[k]|
    ensures Counted(g, indegree, {}) && DoneClosed(g, {})
  {
    forall k | k in g.deps ensures indegree[k] == Undone(g.deps[k], {}) { AllUndone(g.deps[k]); }
  }

  lemma LayersStep(g: Graph, done: set<Key>)
    ensures Layer(g, done) == {} ==> Layers(g, done) == []
    ensures Layer(g, done) != {} ==> Layers(g, done) == [Layer(g, done)] + Layers(g, done + Layer(g, done))
  {
  }

  /** What is done depends only on what is done. */
  ghost predicate DoneClosed(g: Graph, done: set<Key>) {
    forall k :: k in done ==> k in g.deps && Undone(g.deps[k], done) == 0
  }

  lemma {:induction false} AllUndone(s: seq<Key>)
    ensures Undone(s, {}) == |s|
    decreases |s|
  {
    if s != [] { AllUndone(s[..|s| - 1]); }
  }

  method Sources(g: Graph, indegree: map<Key, nat>) returns (ready: seq<Key>)
    requires WellFormed(g) && Counted(g, indegree, {})
    ensures Ascending(ready) && Elems(ready) == Layer(g, {})
  {
    hide Undone;
    ready := [];
    var i := 0;
    while i < |g.keys|
      invariant 0 <= i <= |g.keys| && Ascending(ready)
      invariant forall k :: k in ready <==> k in g.keys[..i] && k in g.deps && Undone(g.deps[k], {}) == 0
    {
      var key := g.keys[i];
      KeyKnown(g, i);
      if indegree[key] == 0 {
        forall k | k in ready ensures k < key { assert k in g.keys[..i]; }
        SnocAscends(ready, key);
        ready := ready + [key];
      }
      i := i + 1;
    }
    assert g.keys[..i] == g.keys;
    forall k ensures k in Elems(ready) <==> k in Layer(g, {}) {
      assert k in g.deps <==> k in Elems(g.keys);
    }
  }

  lemma SnocAscends(s: seq<Key>, k: Key)
    requires Ascending(s) && forall x :: x in s ==> x < k
    ensures Ascending(s + [k])
  {
    forall i | 0 <= i < |s| ensures s[i] < k { assert s[i] in s; }
  }

  method ReleaseWave(g: Graph, wave: seq<Key>, indegree0: map<Key, nat>, dependents: map<Key, seq<Key>>, ghost done: set<Key>)
    returns (indegree: map<Key, nat>, ready: seq<Key>)
    requires Ascending(wave) && Elems(wave) == Layer(g, done) && Counted(g, indegree0, done)
    requires forall c, x :: Noted(dependents, c, x) == Uses(g, c, x)
    ensures Counted(g, indegree, done + Elems(wave)) && Waked(g, indegree, done, ready)
  {
    indegree, ready := indegree0, [];
    var i := 0;
    assert done + Elems(wave[..0]) == done;
    assert Waked(g, indegree, done, ready);
    hide Times, Uses, Undone, Counted, Waked;
    while i < |wave|
      invariant 0 <= i <= |wave| && Counted(g, indegree, done + Elems(wave[..i])) && Waked(g, indegree, done, ready)
    {
      var x := wave[i];
      assert x in Elems(wave);
      assert wave[..i + 1] == wave[..i] + [x];
      assert done + Elems(wave[..i + 1]) == (done + Elems(wave[..i])) + {x};
      assert x !in Elems(wave[..i]);
      forall c ensures Times(DependentsOf(dependents, x), c) == Uses(g, c, x) { assert Noted(dependents, c, x) == Uses(g, c, x); }
      indegree, ready := Release(g, DependentsOf(dependents, x), x, indegree, ready, done, done + Elems(wave[..i]));
      i := i + 1;
    }
    assert wave[..i] == wave;
  }

  /** The modules woken by a layer are the next layer. */
  lemma NextLayer(g: Graph, done: set<Key>, indegree: map<Key, nat>, ready: seq<Key>)
    requires DoneClosed(g, done) && Counted(g, indegree, done + Layer(g, done))
    requires Waked(g, indegree, done, ready)
    ensures Ascending(Sort(ready)) && Elems(Sort(ready)) == Layer(g, done + Layer(g, done)) && DoneClosed(g, done + Layer(g, done))
  {
    hide Ascending;
    SortAscends(ready);
    var next := done + Layer(g, done);
    forall k | k in g.deps ensures Undone(g.deps[k], done) == 0 ==> Undone(g.deps[k], next) == 0 {
      UndoneZero(g.deps[k], done);
      UndoneZero(g.deps[k], next);
    }
  }

  // ----- what the waves are -----

  /** Modules whose dependency chains all have fewer than `n` links. */
  function Done(g: Graph, n: nat): set<Key> {
    if n == 0 then {} else set k | k in g.deps && forall d :: d in g.deps[k] ==> d in Done(g, n - 1)
  }

  /** A dependency chain with `n` links starts at `k`. */
  ghost predicate Chain(g: Graph, k: Key, n: nat) {
    exists p :: ChainVia(g, k, n, p)
  }

  predicate ChainVia(g: Graph, k: Key, n: nat, p: seq<Key>) {
    |p| == n + 1 && Path(g, p) && p[0] == k
  }

  lemma {:induction false} ChainOrDone(g: Graph, k: Key, n: nat)
    requires Closed(g) && k in g.deps
    ensures k in Done(g, n) <==> !Chain(g, k, n)
    decreases n
  {
    if n == 0 {
      assert ChainVia(g, k, 0, [k]);
    } else {
      forall d | d in g.deps[k] ensures d in Done(g, n - 1) <==> !Chain(g, d, n - 1) { ChainOrDone(g, d, n - 1); }
      if k !in Done(g, n) {
        var d :| d in g.deps[k] && d !in Done(g, n - 1);
        var p :| ChainVia(g, d, n - 1, p);
        var q := [k] + p;
        forall i | 0 <= i < |q| - 1 ensures Edge(g, q[i], q[i + 1]) { if i > 0 { assert Edge(g, p[i - 1], p[i]); } }
        assert ChainVia(g, k, n, q);
      }
      if Chain(g, k, n) {
        var p :| ChainVia(g, k, n, p);
        assert Edge(g, p[0], p[1]);
        var q := p[1..];
        forall i | 0 <= i < |q| - 1 ensures Edge(g, q[i], q[i + 1]) { assert Edge(g, p[i + 1], p[i + 2]); }
        assert ChainVia(g, p[1], n - 1, q);
      }
    }
  }

  lemma {:induction false} DoneGrows(g: Graph, n: nat)
    ensures Done(g, n) <= Done(g, n + 1)
    decreases n
  {
    if n > 0 { DoneGrows(g, n - 1); }
  }

  lemma DoneStep(g: Graph, n: nat)
    ensures Done(g, n + 1) == Done(g, n) + Layer(g, Done(g, n))
  {
    DoneGrows(g, n);
    forall k | k in g.deps ensures Undone(g.deps[k], Done(g, n)) == 0 <==> forall d :: d in g.deps[k] ==> d in Done(g, n) {
      UndoneZero(g.deps[k], Done(g, n));
    }
  }

  lemma {:induction false} LayersAreSteps(g: Graph, n: nat, i: nat)
    ensures i < |Layers(g, Done(g, n))| ==> Layers(g, Done(g, n))[i] == Layer(g, Done(g, n + i)) && Layer(g, Done(g, n + i)) != {}
    ensures i >= |Layers(g, Done(g, n))| ==> Layer(g, Done(g, n + i)) == {}
    decreases i
  {
    hide Layers, Layer, Done;
    DoneStep(g, n);
    LayersStep(g, Done(g, n));
    if i > 0 {
      LayersAreSteps(g, n + 1, i - 1);
      if Layer(g, Done(g, n)) == {} { assert Done(g, n + 1) == Done(g, n); }
    }
  }

  /** Wave `n` holds exactly the modules whose longest dependency chain has `n` links. */
  lemma WaveIsDepth(g: Graph, k: Key, n: nat)
    requires Closed(g) && k in g.deps
    ensures n < |Layers(g, {})| && k in Layers(g, {})[n] <==> Chain(g, k, n) && !Chain(g, k, n + 1)
  {
    hide Layers, Done, Chain, Closed;
    WaveIsStep(g, n);
    ChainOrDone(g, k, n);
    ChainOrDone(g, k, n + 1);
  }

  lemma WaveIsStep(g: Graph, n: nat)
    ensures n < |Layers(g, {})| ==> Layers(g, {})[n] == Done(g, n + 1) - Done(g, n)
    ensures n >= |Layers(g, {})| ==> Done(g, n + 1) == Done(g, n)
  {
    assert Done(g, 0) == {};
    hide Layers, Done;
    LayersAreSteps(g, 0, n);
    DoneStep(g, n);
    assert Layer(g, Done(g, n)) !! Done(g, n);
  }

  // ----- cyclic graphs -----

  /** A path from `k` that comes back to one of its own modules. */
  ghost predicate ReachesCycle(g: Graph, k: Key) {
    exists p, i :: LoopsBack(g, k, p, i)
  }

  predicate LoopsBack(g: Graph, k: Key, p: seq<Key>, i: int) {
    Path(g, p) && p[0] == k && 0 <= i < |p| - 1 && p[i] == p[|p| - 1]
  }

  lemma LoopIsCycle(g: Graph, k: Key, p: seq<Key>, i: int)
    requires LoopsBack(g, k, p, i)
    ensures Cycle(g, p[i..]) && Path(g, p[..i + 1])
  {
    var to, round := p[..i + 1], p[i..];
    forall j | 0 <= j < |round| - 1 ensures Edge(g, round[j], round[j + 1]) { assert Edge(g, p[i + j], p[i + j + 1]); }
    forall j | 0 <= j < i ensures Edge(g, to[j], to[j + 1]) { assert Edge(g, p[j], p[j + 1]); }
  }

  /** From a module that reaches a cycle there are chains of every length. */
  lemma {:induction false} EndlessChains(g: Graph, k: Key, n: nat)
    requires ReachesCycle(g, k)
    ensures Chain(g, k, n)
    decreases n
  {
    var p, i :| LoopsBack(g, k, p, i);
    if n == 0 {
      assert ChainVia(g, k, 0, [k]);
    } else {
      assert Edge(g, p[0], p[1]);
      StepStillReaches(g, p, i);
      EndlessChains(g, p[1], n - 1);
      var q :| ChainVia(g, p[1], n - 1, q);
      var r := [k] + q;
      forall j | 0 <= j < |r| - 1 ensures Edge(g, r[j], r[j + 1]) { if j > 0 { assert Edge(g, q[j - 1], q[j]); } }
      assert ChainVia(g, k, n, r);
    }
  }

  lemma StepStillReaches(g: Graph, p: seq<Key>, i: int)
    requires Path(g, p) && 0 <= i < |p| - 1 && p[i] == p[|p| - 1]
    ensures ReachesCycle(g, p[1])
  {
    var q := if i == 0 then p[1..] + [p[1]] else p[1..];
    assert Edge(g, p[0], p[1]);
    forall j | 0 <= j < |q| - 1 ensures Edge(g, q[j], q[j + 1]) { if j + 2 < |p| { assert Edge(g, p[j + 1], p[j + 2]); } }
    assert LoopsBack(g, p[1], q, if i == 0 then 0 else i - 1);
  }

  lemma {:induction false} ElemsCount(s: seq<Key>)
    requires Distinct(s)
    ensures |Elems(s)| == |s|
    decreases |s|
  {
    if s != [] {
      var front, last := s[..|s| - 1], s[|s| - 1];
      ElemsCount(front);
      assert Elems(s) == Elems(front) + {last};
    }
  }

  /** A chain with as many links as there are modules visits one of them twice. */
  lemma LongChainLoops(g: Graph, k: Key)
    requires Chain(g, k, |g.deps.Keys|)
    ensures ReachesCycle(g, k)
  {
    var p :| ChainVia(g, k, |g.deps.Keys|, p);
    if Distinct(p) {
      ElemsCount(p);
      SubsetSize(Elems(p), g.deps.Keys);
    }
    var i, j :| 0 <= i < j < |p| && p[i] == p[j];
    var q := p[..j + 1];
    forall n | 0 <= n < |q| - 1 ensures Edge(g, q[n], q[n + 1]) { assert Edge(g, p[n], p[n + 1]); }
    assert LoopsBack(g, k, q, i);
  }

  /** A module is left out of all waves exactly when it can reach a cycle. */
  lemma LeftOutExactly(g: Graph, k: Key)
    requires Closed(g) && k in g.deps
    ensures (forall n :: 0 <= n < |Layers(g, {})| ==> k !in Layers(g, {})[n]) <==> ReachesCycle(g, k)
  {
    if ReachesCycle(g, k) {
      forall n | 0 <= n < |Layers(g, {})| ensures k !in Layers(g, {})[n] {
        EndlessChains(g, k, n + 1);
        WaveIsDepth(g, k, n);
      }
    } else {
      var size := |g.deps.Keys|;
      if Chain(g, k, size) { LongChainLoops(g, k); }
      var n := LongestChain(g, k, size);
      WaveIsDepth(g, k, n);
    }
  }

  lemma {:induction false} LongestChain(g: Graph, k: Key, bound: nat) returns (n: nat)
    requires Closed(g) && k in g.deps && !Chain(g, k, bound)
    ensures Chain(g, k, n) && !Chain(g, k, n + 1)
    decreases bound
  {
    assert ChainVia(g, k, 0, [k]);
    if Chain(g, k, bound - 1) {
      n := bound - 1;
    } else {
      n := LongestChain(g, k, bound - 1);
    }
  }

  // ----- what the entry reaches -----

  ghost predicate Reachable(g: Graph, starts: seq<Key>, k: Key) {
    exists p :: ReachedBy(g, starts, k, p)
  }

  predicate ReachedBy(g: Graph, starts: seq<Key>, k: Key, p: seq<Key>) {
    Path(g, p) && p[0] in starts && p[|p| - 1] == k
  }

  /** A work list: take a module, keep it once, queue its dependencies. The result is the least set
      with the starts that is closed under dependencies. */
  method ReachableModules(g: Graph, starts: seq<Key>) returns (keep: set<Key>)
    requires Closed(g) && forall k :: k in starts ==> k in g.deps
    ensures forall k :: k in keep <==> Reachable(g, starts, k)
    ensures keep <= g.deps.Keys && forall k :: k in starts ==> k in keep
    ensures forall k, d :: k in keep && d in g.deps[k] ==> d in keep
  {
    hide Searched, Closed, Reachable;
    keep := {};
    var queue := starts;
    SearchedStart(g, starts);
    while queue != []
      invariant Searched(g, starts, keep, queue)
      decreases |g.deps.Keys - keep|, |queue|
    {
      var key := queue[0];
      SearchedOnce(g, starts, keep, queue);
      queue := queue[1..];
      if key !in keep {
        keep := keep + {key};
        queue := queue + g.deps[key];
      }
    }
    SearchedAll(g, starts, keep);
  }

  /** Nothing unreachable is kept or queued; what is not kept but has to be is queued. */
  ghost predicate Searched(g: Graph, starts: seq<Key>, keep: set<Key>, queue: seq<Key>) {
    && (forall k :: k in keep || k in queue ==> k in g.deps && Reachable(g, starts, k))
    && (forall k :: k in starts ==> k in keep || k in queue)
    && ClosedBut(g, keep, queue)
  }

  predicate ClosedBut(g: Graph, keep: set<Key>, queue: seq<Key>) {
    forall k, d :: k in keep && k in g.deps && d in g.deps[k] ==> d in keep || d in queue
  }

  lemma TakeOne(g: Graph, keep: set<Key>, queue: seq<Key>, key: Key)
    requires ClosedBut(g, keep, [key] + queue) && key in g.deps
    ensures key in keep ==> ClosedBut(g, keep, queue)
    ensures ClosedBut(g, keep + {key}, queue + g.deps[key])
  {
    var next, longer := keep + {key}, queue + g.deps[key];
    forall k, d | k in next && k in g.deps && d in g.deps[k] ensures d in next || d in longer {
      if k in keep && d !in keep { assert d in [key] + queue; }
    }
  }

  lemma SearchedStart(g: Graph, starts: seq<Key>)
    requires forall k :: k in starts ==> k in g.deps
    ensures Searched(g, starts, {}, starts)
  {
    forall k | k in starts ensures Reachable(g, starts, k) { StartReached(g, starts, k); }
  }

  lemma SearchedOnce(g: Graph, starts: seq<Key>, keep: set<Key>, queue: seq<Key>)
    requires Searched(g, starts, keep, queue) && queue != [] && Closed(g)
    ensures queue[0] in g.deps
    ensures queue[0] in keep ==> Searched(g, starts, keep, queue[1..])
    ensures queue[0] !in keep ==> Searched(g, starts, keep + {queue[0]}, queue[1..] + g.deps[queue[0]])
    ensures queue[0] !in keep ==> |g.deps.Keys - (keep + {queue[0]})| < |g.deps.Keys - keep|
  {
    var key, rest := queue[0], queue[1..];
    assert queue == [key] + rest;
    assert key in queue;
    TakeOne(g, keep, rest, key);
    if key !in keep {
      Less(g, keep, key);
      var next, longer := keep + {key}, rest + g.deps[key];
      hide Reachable, ClosedBut, Closed, Searched;
      assert Searched(g, starts, next, longer) by { SearchedMore(g, starts, keep, key, rest); }
    }
  }

  lemma SearchedMore(g: Graph, starts: seq<Key>, keep: set<Key>, key: Key, rest: seq<Key>)
    requires Searched(g, starts, keep, [key] + rest) && key in g.deps && Closed(g)
    ensures Searched(g, starts, keep + {key}, rest + g.deps[key])
  {
    var next, longer := keep + {key}, rest + g.deps[key];
    TakeOne(g, keep, rest, key);
    hide Reachable, ClosedBut, Closed;
    assert key in [key] + rest;
    forall k | k in next || k in longer ensures k in g.deps && Reachable(g, starts, k) {
      if k in g.deps[key] { ReachFurther(g, starts, key, k); } else { assert k in keep || k in [key] + rest; }
    }
    forall k | k in starts ensures k in next || k in longer {
      if k !in keep { assert k in [key] + rest; }
    }
  }

  lemma SearchedAll(g: Graph, starts: seq<Key>, keep: set<Key>)
    requires Searched(g, starts, keep, [])
    ensures keep <= g.deps.Keys && (forall k :: k in keep <==> Reachable(g, starts, k)) && forall k :: k in starts ==> k in keep
    ensures forall k, d :: k in keep && d in g.deps[k] ==> d in keep
  {
    hide Reachable;
    forall k | Reachable(g, starts, k) ensures k in keep { ReachableKept(g, starts, k, keep); }
  }

  lemma StartReached(g: Graph, starts: seq<Key>, k: Key)
    requires k in starts && k in g.deps
    ensures Reachable(g, starts, k)
  {
    assert ReachedBy(g, starts, k, [k]);
  }

  /** Whatever is reachable is in every set with the starts that is closed under dependencies. */
  lemma ReachableKept(g: Graph, starts: seq<Key>, k: Key, keep: set<Key>)
    requires Reachable(g, starts, k) && (forall s :: s in starts ==> s in keep)
    requires forall m, d :: m in keep && m in g.deps && d in g.deps[m] ==> d in keep
    ensures k in keep
  {
    var p :| ReachedBy(g, starts, k, p);
    PathKept(g, p, keep);
  }

  lemma ReachFurther(g: Graph, starts: seq<Key>, k: Key, d: Key)
    requires Closed(g) && Reachable(g, starts, k) && k in g.deps && d in g.deps[k]
    ensures d in g.deps && Reachable(g, starts, d)
  {
    var p :| ReachedBy(g, starts, k, p);
    var q := p + [d];
    forall j | 0 <= j < |q| - 1 ensures Edge(g, q[j], q[j + 1]) { if j + 1 < |p| { assert Edge(g, p[j], p[j + 1]); } }
    assert ReachedBy(g, starts, d, q);
  }

  lemma {:induction false} PathKept(g: Graph, p: seq<Key>, keep: set<Key>)
    requires Path(g, p) && p[0] in keep && (forall k, d :: k in keep && k in g.deps && d in g.deps[k] ==> d in keep)
    ensures p[|p| - 1] in keep
    decreases |p|
  {
    if |p| > 1 {
      var q := p[..|p| - 1];
      forall j | 0 <= j < |q| - 1 ensures Edge(g, q[j], q[j + 1]) { assert Edge(g, p[j], p[j + 1]); }
      PathKept(g, q, keep);
      assert Edge(g, p[|p| - 2], p[|p| - 1]);
    }
  }

  /** The graph cut down to a set of modules. */
  function Retain(g: Graph, keep: set<Key>): Graph {
    Graph(Kept(g.keys, keep), map k | k in g.deps && k in keep :: g.deps[k])
  }

  function Kept(keys: seq<Key>, keep: set<Key>): seq<Key> {
    if keys == [] then [] else (if keys[0] in keep then [keys[0]] else []) + Kept(keys[1..], keep)
  }

  lemma {:induction false} KeptAscends(keys: seq<Key>, keep: set<Key>)
    requires Ascending(keys)
    ensures Ascending(Kept(keys, keep)) && forall k :: k in Kept(keys, keep) <==> k in keys && k in keep
    decreases |keys|
  {
    if keys != [] {
      hide Ascending;
      TailAscends(keys);
      assert keys == [keys[0]] + keys[1..];
      KeptAscends(keys[1..], keep);
      ConsAscends(keys[0], Kept(keys[1..], keep));
    }
  }

  /** Keeping what is reachable leaves no dependency without its module. */
  lemma RetainedIsClosed(g: Graph, keep: set<Key>)
    requires WellFormed(g) && Closed(g) && forall k, d :: k in keep && k in g.deps && d in g.deps[k] ==> d in keep
    ensures WellFormed(Retain(g, keep)) && Closed(Retain(g, keep))
  {
    KeptAscends(g.keys, keep);
    forall k ensures k in Elems(Kept(g.keys, keep)) <==> k in Retain(g, keep).deps { assert k in g.keys <==> k in Elems(g.keys); }
  }
}
