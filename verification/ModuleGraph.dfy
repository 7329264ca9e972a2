/** The module graph of a build: cycle detection, build waves, and what the entry reaches. */
module ModuleGraph {

  /** A module key, by its place in the order of all keys. */
  type Key = nat

  /** The modules in the order of their keys, each with the modules it depends on. */
  datatype Graph = Graph(keys: seq<Key>, deps: map<Key, seq<Key>>)

  function Elems(s: seq<Key>): set<Key> {
    set k | k in s
  }

  predicate Ascending(s: seq<Key>) {
    forall i, j :: 0 <= i < j < |s| ==> s[i] < s[j]
  }

  predicate Distinct(s: seq<Key>) {
    forall i, j :: 0 <= i < j < |s| ==> s[i] != s[j]
  }

  /** An ordered map. */
  predicate WellFormed(g: Graph) {
    Ascending(g.keys) && Elems(g.keys) == g.deps.Keys
  }

  predicate Edge(g: Graph, a: Key, b: Key) {
    a in g.deps && b in g.deps[a]
  }

  /** Every dependency is a module of the graph. */
  predicate Closed(g: Graph) {
    forall k, d :: k in g.deps && d in g.deps[k] ==> d in g.deps
  }

  predicate Path(g: Graph, p: seq<Key>) {
    |p| > 0 && (forall i :: 0 <= i < |p| ==> p[i] in g.deps) && forall i :: 0 <= i < |p| - 1 ==> Edge(g, p[i], p[i + 1])
  }

  predicate Cycle(g: Graph, p: seq<Key>) {
    |p| >= 2 && Path(g, p) && p[0] == p[|p| - 1]
  }

  ghost predicate Acyclic(g: Graph) {
    forall p :: !Cycle(g, p)
  }

  // ----- topological order -----

  /** Every module once, after all its dependencies. */
  predicate Ordered(g: Graph, order: seq<Key>) {
    && Distinct(order)
    && (forall i :: 0 <= i < |order| ==> order[i] in g.deps)
    && (forall i, d :: 0 <= i < |order| && d in g.deps[order[i]] ==> d in order[..i])
  }

  /** Along a path the places in the order go down. */
  lemma {:induction false} PathDescends(g: Graph, order: seq<Key>, p: seq<Key>, a: nat, b: nat)
    requires Ordered(g, order) && Path(g, p) && |p| >= 2 && a < |order| && b < |order|
    requires order[a] == p[0] && order[b] == p[|p| - 1]
    ensures b < a
    decreases |p|
  {
    assert Edge(g, p[0], p[1]);
    var c :| 0 <= c < a && order[c] == p[1];
    if |p| > 2 {
      var q := p[1..];
      forall i | 0 <= i < |q| - 1 ensures Edge(g, q[i], q[i + 1]) { assert Edge(g, p[i + 1], p[i + 2]); }
      PathDescends(g, order, q, c, b);
    }
  }

  lemma OrderMeansAcyclic(g: Graph, order: seq<Key>)
    requires Ordered(g, order) && Elems(order) == g.deps.Keys
    ensures Acyclic(g)
  {
    forall p ensures !Cycle(g, p) {
      if Cycle(g, p) {
        assert p[0] in Elems(order);
        var a :| 0 <= a < |order| && order[a] == p[0];
        PathDescends(g, order, p, a, a);
      }
    }
  }

  /** The state of the search: `temporary` are the modules being visited, which are those on the
      stack and form a path; `permanent` are the finished ones, which are those in the order. */
  predicate Searching(g: Graph, temporary: set<Key>, permanent: set<Key>, stack: seq<Key>, order: seq<Key>) {
    && Ordered(g, order) && permanent == Elems(order)
    && temporary == Elems(stack) && Distinct(stack) && temporary !! permanent
    && (forall i :: 0 <= i < |stack| ==> stack[i] in g.deps)
    && (forall i :: 0 <= i < |stack| - 1 ==> Edge(g, stack[i], stack[i + 1]))
  }

  lemma Entered(g: Graph, temporary: set<Key>, permanent: set<Key>, stack: seq<Key>, order: seq<Key>, key: Key)
    requires Searching(g, temporary, permanent, stack, order) && key in g.deps && key !in temporary && key !in permanent
    requires stack != [] ==> Edge(g, stack[|stack| - 1], key)
    ensures Searching(g, temporary + {key}, permanent, stack + [key], order)
  {
    hide Ordered;
    forall i | 0 <= i < |stack + [key]| - 1 ensures Edge(g, (stack + [key])[i], (stack + [key])[i + 1]) {
      if i < |stack| - 1 { assert Edge(g, stack[i], stack[i + 1]); }
    }
    forall i | 0 <= i < |stack| ensures stack[i] != key { assert stack[i] in Elems(stack); }
  }

  /** All dependencies of the module on top of the stack are finished, and now it is. */
  lemma Finished(g: Graph, temporary: set<Key>, permanent: set<Key>, below: seq<Key>, order: seq<Key>, key: Key)
    requires Searching(g, temporary, permanent, below + [key], order) && key in g.deps && forall d :: d in g.deps[key] ==> d in permanent
    ensures Searching(g, temporary - {key}, permanent + {key}, below, order + [key])
  {
    var stack := below + [key];
    assert stack[|below|] == key && key in Elems(stack);
    FinishedOrder(g, order, key, permanent);
    forall i, j | 0 <= i < j < |below| ensures below[i] != below[j] { assert stack[i] != stack[j]; }
    forall i | 0 <= i < |below| ensures below[i] in g.deps { assert stack[i] in g.deps; }
    forall i | 0 <= i < |below| - 1 ensures Edge(g, below[i], below[i + 1]) { assert Edge(g, stack[i], stack[i + 1]); }
    forall k ensures k in temporary - {key} <==> k in Elems(below) {
      assert k in Elems(stack) <==> k in Elems(below) || k == key;
      if k in Elems(below) { var i :| 0 <= i < |below| && below[i] == k; assert stack[i] != stack[|below|]; }
    }
  }

  lemma FinishedOrder(g: Graph, order: seq<Key>, key: Key, permanent: set<Key>)
    requires Ordered(g, order) && permanent == Elems(order) && key in g.deps && key !in permanent
    requires forall d :: d in g.deps[key] ==> d in permanent
    ensures Ordered(g, order + [key]) && permanent + {key} == Elems(order + [key])
  {
    var longer := order + [key];
    forall i, d | 0 <= i < |longer| && d in g.deps[longer[i]] ensures d in longer[..i] {
      if i < |order| { assert longer[..i] == order[..i]; } else { assert longer[..i] == order; }
    }
    forall i | 0 <= i < |order| ensures order[i] != key { assert order[i] in Elems(order); }
  }

  lemma FoundCycle(g: Graph, temporary: set<Key>, permanent: set<Key>, stack: seq<Key>, order: seq<Key>, key: Key, start: nat)
    requires Searching(g, temporary, permanent, stack, order) && start < |stack| && stack[start] == key
    requires Edge(g, stack[|stack| - 1], key)
    ensures Cycle(g, stack[start..] + [key])
  {
    var p := stack[start..] + [key];
    forall i | 0 <= i < |p| - 1 ensures Edge(g, p[i], p[i + 1]) {
      if start + i < |stack| - 1 { assert Edge(g, stack[start + i], stack[start + i + 1]); }
    }
  }

  /** Depth-first search. */
  class Visitor {
    const g: Graph
    var temporary: set<Key>
    var permanent: set<Key>
    var stack: seq<Key>
    var order: seq<Key>

    ghost predicate Valid()
      reads this
    {
      Closed(g) && Searching(g, temporary, permanent, stack, order)
    }

    constructor (g: Graph)
      requires Closed(g)
      ensures Valid() && this.g == g && stack == [] && order == [] && permanent == {}
    {
      this.g := g;
      temporary, permanent, stack, order := {}, {}, [], [];
    }

    /** A non-empty result is a cycle, from its first module back to it. Otherwise the module and
        whatever was finished before are finished, and the stack is as it was. */
    method Visit(key: Key) returns (cycle: seq<Key>)
      requires Valid() && key in g.deps && (stack != [] ==> Edge(g, stack[|stack| - 1], key))
      modifies this
      ensures cycle != [] ==> Cycle(g, cycle)
      ensures cycle == [] ==> Valid() && stack == old(stack) && temporary == old(temporary) && old(permanent) + {key} <= permanent
      decreases |g.deps.Keys - temporary|
    {
      hide Searching, Cycle;
      if key in permanent {
        return [];
      }
      StackKnown(g, temporary, permanent, stack, order);
      if key in temporary {
        var start := Position(stack, key);
        cycle := stack[start..] + [key];
        FoundCycle(g, temporary, permanent, stack, order, key, start);
        return;
      }
      ghost var below, inside := stack, temporary;
      Entered(g, temporary, permanent, stack, order, key);
      temporary := temporary + {key};
      Less(g, inside, key);
      stack := stack + [key];
      var dependencies := g.deps[key];
      var i := 0;
      while i < |dependencies|
        invariant 0 <= i <= |dependencies|
        invariant Valid() && stack == below + [key] && temporary == inside + {key} && old(permanent) <= permanent
        invariant forall j :: 0 <= j < i ==> dependencies[j] in permanent
      {
        assert dependencies[i] in g.deps[key] && Edge(g, key, dependencies[i]);
        cycle := Visit(dependencies[i]);
        if cycle != [] {
          return;
        }
        i := i + 1;
      }
      Finished(g, temporary, permanent, below, order, key);
      stack := stack[..|stack| - 1];
      temporary := temporary - {key};
      permanent := permanent + {key};
      order := order + [key];
      cycle := [];
    }
  }

  lemma StackKnown(g: Graph, temporary: set<Key>, permanent: set<Key>, stack: seq<Key>, order: seq<Key>)
    requires Searching(g, temporary, permanent, stack, order)
    ensures temporary <= g.deps.Keys && forall k :: k in temporary <==> k in stack
  {
  }

  lemma Less(g: Graph, inside: set<Key>, key: Key)
    requires key in g.deps && key !in inside
    ensures |g.deps.Keys - (inside + {key})| < |g.deps.Keys - inside|
  {
    assert g.deps.Keys - inside == (g.deps.Keys - (inside + {key})) + {key};
  }

  method Position(s: seq<Key>, k: Key) returns (i: nat)
    requires k in s
    ensures i < |s| && s[i] == k && k !in s[..i]
  {
    i := 0;
    while s[i] != k
      invariant 0 <= i < |s| && k !in s[..i] && k in s[i..]
      decreases |s| - i
    {
      assert s[i..] == [s[i]] + s[i + 1..];
      i := i + 1;
    }
  }

  datatype Sorting = Order(order: seq<Key>) | Loop(cycle: seq<Key>)

  /** Succeeds exactly when the graph has no cycle, with every module once and after all its
      dependencies; otherwise reports a real cycle. */
  method TopologicalOrder(g: Graph) returns (r: Sorting)
    requires WellFormed(g) && Closed(g)
    ensures r.Order? <==> Acyclic(g)
    ensures r.Order? ==> Ordered(g, r.order) && Elems(r.order) == g.deps.Keys
    ensures r.Loop? ==> Cycle(g, r.cycle)
  {
    var v := new Visitor(g);
    var i := 0;
    while i < |g.keys|
      invariant 0 <= i <= |g.keys| && fresh(v) && v.g == g && v.Valid() && v.stack == []
      invariant forall j :: 0 <= j < i ==> g.keys[j] in v.permanent
    {
      assert g.keys[i] in Elems(g.keys);
      var cycle := v.Visit(g.keys[i]);
      if cycle != [] {
        return Loop(cycle);
      }
      i := i + 1;
    }
    r := Order(v.order);
    assert Elems(v.order) == g.deps.Keys;
    OrderMeansAcyclic(g, v.order);
  }
}
