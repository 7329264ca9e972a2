/** Values whose sets are sorted: the evaluator's text tells them apart, and it makes no others of them. */
module ConstOrder {
  import opened Wrappers
  import opened ConstSemantics
  import opened ConstText

  /** The elements of every set in it are in sorted order; in particular, there may be no set. */
  predicate Tidy(v: Value) {
    Ordered(v) == v
  }

  predicate AllTidy(vs: seq<Value>) {
    forall i :: 0 <= i < |vs| ==> Tidy(vs[i])
  }

  predicate TidyLocals(l: Locals) {
    forall x :: x in l.values ==> Tidy(l.values[x])
  }

  predicate TidyFlow(f: Flow) {
    f.Returned? ==> Tidy(f.v)
  }

  predicate TidyRan(r: (Flow, Locals)) {
    TidyFlow(r.0) && TidyLocals(r.1)
  }

  predicate TidyTaken(r: (Option<Flow>, Locals)) {
    (r.0.Some? ==> TidyFlow(r.0.value)) && TidyLocals(r.1)
  }

  predicate TidyAnswer(a: Answer) {
    a.Got? ==> Tidy(a.v)
  }

  /** Operators and builtins put no set out of order. */
  ghost predicate OrderKept(ops: Ops) {
    && (forall op: nat, v: Value :: Tidy(v) ==> TidyAnswer(ops.unary(op, v)))
    && (forall op: nat, v: Value, w: Value :: Tidy(v) && Tidy(w) ==> TidyAnswer(ops.binary(op, v, w)))
    && (forall v: Value, w: Value :: Tidy(v) && Tidy(w) ==> TidyAnswer(ops.index(v, w)))
    && (forall f: Name, args: seq<Value> :: AllTidy(args) ==> TidyAnswer(ops.builtin(f, args)))
  }

  /** The sets in the constants are sorted, and stay so. */
  ghost predicate TidyContext(c: Context) {
    OrderKept(c.ops) && forall x :: x in c.values ==> Tidy(c.values[x])
  }

  // ----- what is tidy -----

  /** A set is tidy exactly when it is sorted. */
  lemma TidySet(keys: seq<SetKey>)
    ensures Tidy(FrozenSet(keys)) <==> Sorted(keys)
  {
    SortKeysSorts(keys);
    if Sorted(keys) { SortedOnce(keys, SortKeys(keys)); }
  }

  lemma AtomTidy(v: Value)
    requires Atom(v)
    ensures Tidy(v)
  {
  }

  lemma {:induction false} AllTidyExactly(vs: seq<Value>)
    ensures AllTidy(vs) <==> InOrder(vs)
    decreases |vs|
  {
    hide Ordered;
    OrderedStep(vs);
    if vs != [] {
      AllTidyExactly(vs[1..]);
      assert vs == [vs[0]] + vs[1..] && OrderedAll(vs) == [Ordered(vs[0])] + OrderedAll(vs[1..]);
      forall i | 0 <= i < |vs| && AllTidy(vs[1..]) && Tidy(vs[0]) ensures Tidy(vs[i]) {
        if i > 0 { assert vs[i] == vs[1..][i - 1]; }
      }
    }
  }

  lemma CollectionTidy(vs: seq<Value>)
    ensures (AllTidy(vs) <==> Tidy(Tuple(vs))) && (AllTidy(vs) <==> Tidy(List(vs)))
  {
    hide OrderedAll;
    AllTidyExactly(vs);
  }

  /** What `for` goes through is tidy. */
  lemma ItemsTidy(v: Value)
    requires Tidy(v) && Items(v).Some?
    ensures AllTidy(Items(v).value)
  {
    if v.Tuple? || v.List? {
      CollectionTidy(v.items);
    } else {
      var items := Items(v).value;
      forall i | 0 <= i < |items| ensures Tidy(items[i]) { AtomTidy(items[i]); }
    }
  }

  lemma {:induction false} EnteredTidy(ps: Params, args: seq<Value>, l: Locals)
    requires AllTidy(args) && TidyLocals(l)
    ensures TidyLocals(Entered(ps, args, l))
    decreases ps
  {
    hide Tidy;
    if ps.Param? && args != [] { EnteredTidy(ps.rest, args[1..], l.Set(ps.x, args[0])); }
  }

  /** Tidy arguments are written alike only if they are the same. */
  lemma TidyTextsTell(a: seq<Value>, b: seq<Value>)
    requires AllTidy(a) && AllTidy(b) && ArgsText(a) == ArgsText(b)
    ensures a == b
  {
    hide Tidy, ArgsText, OrderedAll;
    AllTidyExactly(a);
    AllTidyExactly(b);
    OrderedTextsTell(a, b);
  }

  lemma NoLocalsTidy()
    ensures TidyLocals(NO_LOCALS)
  {
  }

  lemma UnaryTidy(c: Context, op: nat, v: Value)
    ensures TidyContext(c) && Tidy(v) ==> TidyAnswer(c.ops.unary(op, v))
  {
  }

  lemma BinaryTidy(c: Context, op: nat, v: Value, w: Value)
    ensures TidyContext(c) && Tidy(v) && Tidy(w) ==> TidyAnswer(c.ops.binary(op, v, w))
  {
  }

  lemma IndexTidy(c: Context, v: Value, w: Value)
    ensures TidyContext(c) && Tidy(v) && Tidy(w) ==> TidyAnswer(c.ops.index(v, w))
  {
  }

  lemma BuiltinTidy(c: Context, f: Name, args: seq<Value>)
    ensures TidyContext(c) && AllTidy(args) ==> TidyAnswer(c.ops.builtin(f, args))
  {
  }

  lemma NameTidy(c: Context, x: Name, l: Locals)
    requires TidyContext(c) && TidyLocals(l)
    ensures x in l.values ==> Tidy(l.values[x])
    ensures x in c.values ==> Tidy(c.values[x])
  {
  }

  // ----- which operators keep the order -----

  /** Operators that answer with single values, and put no sets together, keep the order of all. */
  lemma AtomsKeepOrder(ops: Ops)
    requires forall op: nat, v: Value :: ops.unary(op, v).Got? ==> Atom(ops.unary(op, v).v)
    requires forall op: nat, v: Value, w: Value :: ops.binary(op, v, w).Got? ==> Atom(ops.binary(op, v, w).v)
    requires forall v: Value, w: Value :: ops.index(v, w).Got? ==> Atom(ops.index(v, w).v)
    requires forall f: Name, args: seq<Value> :: ops.builtin(f, args).Got? ==> Atom(ops.builtin(f, args).v)
    ensures OrderKept(ops)
  {
    forall v: Value | Atom(v) ensures Tidy(v) { AtomTidy(v); }
  }
}
