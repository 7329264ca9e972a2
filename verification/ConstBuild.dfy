/** Evaluating one expression, and a whole list of `const` declarations with one memo. */
module ConstBuild {
  import opened Wrappers
  import opened ConstSemantics
  import opened ConstFacts
  import opened ConstText
  import opened ConstOrder
  import opened ConstEvaluator

  /** What a clash is: the two argument lists are written alike, so they differ in the order of set
      elements and in nothing else, and at least one of them has an unsorted set. */
  lemma ClashIsOrder(a: seq<Value>, b: seq<Value>)
    ensures a != b && ArgsText(a) == ArgsText(b)
            <==> a != b && OrderedAll(a) == OrderedAll(b)
    ensures a != b && ArgsText(a) == ArgsText(b) ==> !InOrder(a) || !InOrder(b)
  {
    TextExactly(a, b);
  }

  ghost predicate RealClash(clash: Option<Clash>) {
    clash.Some? ==> clash.value.first != clash.value.second && ArgsText(clash.value.first) == ArgsText(clash.value.second)
  }

  /** A fresh evaluation. If the sets in the constants are sorted and operators keep them so, in
      particular if there are none, an answer is the plain one and a cycle means that there is none. An
      answer is also the plain one if no function tells apart argument lists that are written alike, or
      if in this run no two such lists have met. */
  method TryEval(c: Context, e: Expr) returns (r: Res<Value>, ghost d: nat, ghost clash: Option<Clash>)
    ensures RealClash(clash) && (TidyContext(c) ==> clash.None?)
    ensures TidyContext(c) || OrderBlind(c) || clash.None? ==> Agrees(r, PlainExpr(c, e, NO_LOCALS, d))
    ensures (TidyContext(c) || clash.None?) && IsCycle(r) ==> forall n: nat :: PlainExpr(c, e, NO_LOCALS, n).Deep?
  {
    hide TidyContext, OrderBlind, Tidy;
    NoLocalsTidy();
    var state := new EvalState();
    r, d := state.Eval(c, e, NO_LOCALS);
    clash := state.clash;
  }

  /** One more constant. */
  function With(c: Context, x: Name, v: Value): Context {
    c.(values := c.values[x := v])
  }

  predicate IsLimit(e: Error) {
    !e.Fault? && !e.Cycle?
  }

  /** What building the declarations in order means: each is evaluated with the constants before it. */
  ghost predicate BuiltAs(c: Context, decls: seq<(Name, Expr)>, r: Res<Context>)
    decreases |decls|
  {
    if decls == [] then r == Val(c) else
    var e := decls[0].1;
    || (exists v, d: nat :: PlainExpr(c, e, NO_LOCALS, d) == Done(v) && BuiltAs(With(c, decls[0].0, v), decls[1..], r))
    || (exists f, d: nat :: PlainExpr(c, e, NO_LOCALS, d).Needed() == Fail(f) && r == Err(Fault(f)))
    || (IsCycle(r) && forall n: nat :: PlainExpr(c, e, NO_LOCALS, n).Deep?)
    || (r.Err? && IsLimit(r.e))
  }

  /** No declared name is known already, and none is declared twice. */
  predicate NewNames(c: Context, decls: seq<(Name, Expr)>) {
    && (forall i :: 0 <= i < |decls| ==> decls[i].0 !in c.values)
    && forall i, j :: 0 <= i < j < |decls| ==> decls[i].0 != decls[j].0
  }

  /** What is remembered stays right when a new constant is added. */
  lemma StillRemembered(c: Context, x: Name, v: Value, memo: map<Key, Value>, asked: map<Key, seq<Value>>)
    requires Remembered(c, memo, asked) && x !in c.values
    ensures Remembered(With(c, x, v), memo, asked)
  {
    var c' := With(c, x, v);
    forall k | k in memo ensures k in asked && k.f in c'.functions && Gives(c', k.f, asked[k], memo[k]) {
      var d: nat :| PlainCall(c, k.f, asked[k], d) == Done(memo[k]);
      CarryCall(false, c, c', k.f, asked[k], d, d);
    }
  }

  // ----- declarations whose building is known step by step -----

  predicate ShortDecl(c: Context, e: Expr) {
    Known(c, e, NO_LOCALS) || ShortCall(c, e, NO_LOCALS)
  }

  function DeclValue(c: Context, memo: map<Key, Value>, e: Expr): Value
    requires ShortDecl(c, e)
  {
    if Known(c, e, NO_LOCALS) then Lookup(c, e, NO_LOCALS) else AnswerTo(c, memo, e.f, LookupAll(c, e.args, NO_LOCALS))
  }

  function DeclMemo(c: Context, memo: map<Key, Value>, e: Expr): map<Key, Value>
    requires ShortDecl(c, e)
  {
    if Known(c, e, NO_LOCALS) then memo else memo[KeyOf(e.f, LookupAll(c, e.args, NO_LOCALS)) := DeclValue(c, memo, e)]
  }

  /** Each declaration is short in the constants before it. */
  predicate AllShort(c: Context, memo: map<Key, Value>, decls: seq<(Name, Expr)>)
    decreases |decls|
  {
    decls != [] ==>
      ShortDecl(c, decls[0].1)
      && AllShort(With(c, decls[0].0, DeclValue(c, memo, decls[0].1)), DeclMemo(c, memo, decls[0].1), decls[1..])
  }

  function MemoBuild(c: Context, memo: map<Key, Value>, decls: seq<(Name, Expr)>): Context
    requires AllShort(c, memo, decls)
    decreases |decls|
  {
    if decls == [] then c else
    MemoBuild(With(c, decls[0].0, DeclValue(c, memo, decls[0].1)), DeclMemo(c, memo, decls[0].1), decls[1..])
  }

  function Cost(decls: seq<(Name, Expr)>): nat {
    if decls == [] then 0 else (if decls[0].1.Call? then Length(decls[0].1.args) + 3 else 1) + Cost(decls[1..])
  }

  lemma NoDecls(c: Context, memo: map<Key, Value>)
    ensures AllShort(c, memo, []) && MemoBuild(c, memo, []) == c && BuiltAs(c, [], Val(c))
  {
  }

  lemma ShortTurn(c: Context, memo: map<Key, Value>, decls: seq<(Name, Expr)>)
    requires decls != [] && AllShort(c, memo, decls)
    ensures ShortDecl(c, decls[0].1)
    ensures var c', memo' := With(c, decls[0].0, DeclValue(c, memo, decls[0].1)), DeclMemo(c, memo, decls[0].1);
            AllShort(c', memo', decls[1..]) && MemoBuild(c, memo, decls) == MemoBuild(c', memo', decls[1..])
    ensures Cost(decls) == (if decls[0].1.Call? then Length(decls[0].1.args) + 3 else 1) + Cost(decls[1..])
  {
    hide DeclValue, DeclMemo, ShortDecl;
  }

  /** All declarations with one memo. With new names, the result is what evaluating the declarations in
      order without a memo gives, if the sets in the constants are sorted and operators keep them so. It
      also is, if no function tells apart argument lists that are written alike, a reported cycle
      excepted, or if in this run no two such lists have met. What short declarations are built to is
      known in any case. */
  method Build(c: Context, decls: seq<(Name, Expr)>) returns (r: Res<Context>, ghost clash: Option<Clash>)
    ensures !r.Dynamic? && RealClash(clash)
    ensures TidyContext(c) ==> clash.None?
    ensures NewNames(c, decls) && (TidyContext(c) || clash.None? || (OrderBlind(c) && !IsCycle(r))) ==> BuiltAs(c, decls, r)
    ensures AllShort(c, map[], decls) && Cost(decls) <= MAX_STEPS ==> r == Val(MemoBuild(c, map[], decls))
  {
    hide OrderBlind, TidyContext, Tidy, Remembered, PlainExpr, AllShort, MemoBuild, Cost, BuiltAs, LookupAll,
         ArgsText, ShortBody, BodyValue, PlainCall, PlainBlock, AllTidy, PlainStmt;
    var state := new EvalState();
    var cur := c;
    var i := 0;
    NoLocalsTidy();
    assert decls[0..] == decls;
    ghost var short := AllShort(c, map[], decls) && Cost(decls) <= MAX_STEPS;
    assert Remembered(c, state.memo, state.asked) by { Nothing(c); }
    while i < |decls|
      invariant 0 <= i <= |decls| && fresh(state) && state.Good() && state.active == {} && state.stack == []
      invariant cur.ops == c.ops && cur.functions == c.functions && (OrderBlind(c) ==> OrderBlind(cur))
      invariant TidyContext(c) ==> TidyContext(cur) && state.Quiet()
      invariant NewNames(c, decls) && (state.clash.None? || OrderBlind(c)) ==> state.Trusted(cur) && NewNames(cur, decls[i..])
      invariant NewNames(c, decls) && (state.clash.None? || OrderBlind(c)) ==> forall r' :: BuiltAs(cur, decls[i..], r') ==> BuiltAs(c, decls, r')
      invariant short ==> AllShort(cur, state.memo, decls[i..]) && Cost(decls[i..]) <= state.steps
                          && MemoBuild(cur, state.memo, decls[i..]) == MemoBuild(c, map[], decls)
    {
      var (x, e) := decls[i];
      assert decls[i..][0] == (x, e) && decls[i..][1..] == decls[i + 1..];
      if short { ShortTurn(cur, state.memo, decls[i..]); }
      var v;
      ghost var d;
      v, d := state.Required(cur, e, NO_LOCALS);
      clash := state.clash;
      if !v.Val? {
        r := v.Cast();
        if NewNames(c, decls) && (clash.None? || (OrderBlind(c) && !IsCycle(r))) { BuildStops(cur, decls[i..], v, d, r); }
        return;
      }
      if NewNames(c, decls) && (clash.None? || OrderBlind(c)) {
        StillRemembered(cur, x, v.v, state.memo, state.asked);
        BuildStep(cur, decls[i..], v.v, d);
      }
      if OrderBlind(cur) { StillBlind(cur, x, v.v); }
      if TidyContext(cur) && Tidy(v.v) { StillTidy(cur, x, v.v); }
      cur := With(cur, x, v.v);
      i := i + 1;
    }
    assert decls[i..] == [];
    r, clash := Val(cur), state.clash;
    NoDecls(cur, state.memo);
  }

  lemma Nothing(c: Context)
    ensures Remembered(c, map[], map[])
  {
  }

  lemma StillTidy(c: Context, x: Name, v: Value)
    requires TidyContext(c) && Tidy(v)
    ensures TidyContext(With(c, x, v))
  {
    hide Tidy;
  }

  lemma StillBlind(c: Context, x: Name, v: Value)
    requires OrderBlind(c)
    ensures OrderBlind(With(c, x, v))
  {
    hide Gives, ArgsText;
    var c' := With(c, x, v);
    forall values: map<Name, Value>, f: Name, a: seq<Value>, b: seq<Value>, w: Value
      | f in c'.functions && ArgsText(a) == ArgsText(b) && Gives(c'.(values := values), f, a, w)
      ensures Gives(c'.(values := values), f, b, w)
    {
      assert c'.(values := values) == c.(values := values);
    }
  }

  lemma BuildStops(c: Context, decls: seq<(Name, Expr)>, v: Res<Value>, d: nat, r: Res<Context>)
    requires decls != [] && v.Err? && r == Err(v.e) && Agrees(v, PlainExpr(c, decls[0].1, NO_LOCALS, d).Needed())
    requires IsCycle(v) ==> forall n: nat :: PlainExpr(c, decls[0].1, NO_LOCALS, n).Deep?
    ensures BuiltAs(c, decls, r)
  {
  }

  lemma BuildStep(c: Context, decls: seq<(Name, Expr)>, v: Value, d: nat)
    requires decls != [] && NewNames(c, decls) && PlainExpr(c, decls[0].1, NO_LOCALS, d).Needed() == Done(v)
    ensures NewNames(With(c, decls[0].0, v), decls[1..])
    ensures forall r :: BuiltAs(With(c, decls[0].0, v), decls[1..], r) ==> BuiltAs(c, decls, r)
  {
    forall i, j | 0 <= i < j < |decls[1..]| ensures decls[1..][i].0 != decls[1..][j].0 { assert decls[i + 1].0 != decls[j + 1].0; }
    forall i | 0 <= i < |decls[1..]| ensures decls[1..][i].0 !in With(c, decls[0].0, v).values {
      assert decls[0].0 != decls[i + 1].0 && decls[i + 1].0 !in c.values;
    }
    assert PlainExpr(c, decls[0].1, NO_LOCALS, d) == Done(v);
  }

  /** The declarations have at most one meaning, apart from running into a limit. */
  lemma {:induction false} OneMeaning(c: Context, decls: seq<(Name, Expr)>, a: Res<Context>, b: Res<Context>)
    requires BuiltAs(c, decls, a) && BuiltAs(c, decls, b) && !(a.Err? && IsLimit(a.e)) && !(b.Err? && IsLimit(b.e))
    ensures a == b || (IsCycle(a) && IsCycle(b))
    decreases |decls|
  {
    if decls != [] {
      var e := decls[0].1;
      forall n: nat, m: nat | !PlainExpr(c, e, NO_LOCALS, n).Deep? && !PlainExpr(c, e, NO_LOCALS, m).Deep?
        ensures PlainExpr(c, e, NO_LOCALS, n) == PlainExpr(c, e, NO_LOCALS, m) { SameExpr(c, e, NO_LOCALS, n, m); }
      if v, d: nat :| PlainExpr(c, e, NO_LOCALS, d) == Done(v) && BuiltAs(With(c, decls[0].0, v), decls[1..], a) {
        assert BuiltAs(With(c, decls[0].0, v), decls[1..], b);
        OneMeaning(With(c, decls[0].0, v), decls[1..], a, b);
      }
    }
  }

  // ----- what a memo hit gives when it should not -----

  /** In any context, for any function: two argument lists that are written alike are answered alike, so
      the second answer is right exactly when the two calls have the same plain value. That is, if the
      first answer can be relied on, as when the first list and the constants have their sets sorted. */
  method AskTwice(c: Context, f: Name, a: seq<Value>, b: seq<Value>) returns (first: Res<Value>, second: Res<Value>, ghost clash: Option<Clash>)
    requires f in c.functions && ArgsText(a) == ArgsText(b)
    ensures first.Val? ==> second == first
    ensures TidyContext(c) && AllTidy(a) ==> clash.None?
    ensures first.Val? && ((TidyContext(c) && AllTidy(a)) || clash.None?) ==>
              Gives(c, f, a, first.v) && (Gives(c, f, b, second.v) <==> exists v :: Gives(c, f, a, v) && Gives(c, f, b, v))
  {
    hide TidyContext, AllTidy, OrderBlind;
    var state := new EvalState();
    Nothing(c);
    ghost var d;
    first, d := state.CallFunction(c, f, a);
    clash := state.clash;
    second := first;
    if first.Val? {
      ghost var d2;
      second, d2 := state.CallFunction(c, f, b);
      if clash.None? {
        forall v | Gives(c, f, a, v) ensures v == first.v { OneGiven(c, f, a, v, first.v); }
      }
    }
  }

  lemma OneGiven(c: Context, f: Name, args: seq<Value>, v: Value, w: Value)
    requires f in c.functions && Gives(c, f, args, v) && Gives(c, f, args, w)
    ensures v == w
  {
    var m: nat :| PlainCall(c, f, args, m) == Done(v);
    var n: nat :| PlainCall(c, f, args, n) == Done(w);
    if m <= n { CarryCall(true, c, c, f, args, m, n); } else { CarryCall(true, c, c, f, args, n, m); }
  }

  predicate GivesConst(c: Context, f: Name) {
    f in c.functions && var b := c.functions[f].body; b.Cons? && b.head.Eval? && b.tail.Nil? && b.head.e.Const?
  }

  lemma ConstGiven(c: Context, f: Name, args: seq<Value>)
    requires GivesConst(c, f)
    ensures Gives(c, f, args, c.functions[f].body.head.e.v)
  {
    hide Entered;
    var fn, l := c.functions[f], Entered(c.functions[f].params, args, NO_LOCALS);
    var v := fn.body.head.e.v;
    assert PlainExpr(c, fn.body.head.e, l, 0) == Done(v);
    assert PlainStmt(c, fn.body.head, l, true, 0) == Done((Returned(v), l));
    assert PlainBlock(c, fn.body, l, true, 0) == Done((Returned(v), l));
    assert PlainCall(c, f, args, 1) == Done(v);
  }

  /** Functions whose bodies are constants are blind to the order of sets. */
  lemma ConstantsAreBlind(c: Context)
    requires forall f :: f in c.functions ==> GivesConst(c, f)
    ensures OrderBlind(c)
  {
    hide Gives, ArgsText;
    forall values: map<Name, Value>, f: Name, a: seq<Value>, b: seq<Value>, v: Value
      | f in c.functions && ArgsText(a) == ArgsText(b) && Gives(c.(values := values), f, a, v)
      ensures Gives(c.(values := values), f, b, v)
    {
      var c' := c.(values := values);
      assert GivesConst(c, f) && GivesConst(c', f);
      ConstGiven(c', f, a);
      ConstGiven(c', f, b);
      OneGiven(c', f, a, v, c.functions[f].body.head.e.v);
    }
  }

  /** A short call has its plain value at depth 1. */
  lemma ShortGives(c: Context, f: Name, args: seq<Value>)
    requires ShortBody(c, f, args)
    ensures Gives(c, f, args, BodyValue(c, f, args))
  {
    var fn, l := c.functions[f], Entered(c.functions[f].params, args, NO_LOCALS);
    var v := BodyValue(c, f, args);
    hide Entered;
    assert PlainExpr(c, fn.body.head.e, l, 0) == Done(v);
    assert PlainStmt(c, fn.body.head, l, true, 0) == Done((Returned(v), l));
    assert PlainBlock(c, fn.body, l, true, 0) == Done((Returned(v), l));
    assert PlainCall(c, f, args, 1) == Done(v);
  }

  /** `A = f(S)` and then `B = f(T)`, where `f` gives a name. */
  function TwoCalls(f: Name, s: Name, t: Name): seq<(Name, Expr)> {
    [("A", Call(f, MoreExpr(Var(s), NoExpr))), ("B", Call(f, MoreExpr(Var(t), NoExpr)))]
  }

  /** The two calls can be evaluated step by step, whatever is declared first. */
  ghost predicate TwoShort(c: Context, f: Name, s: Name, t: Name) {
    && s in c.values && t in c.values && s != "A" && t != "A" && !c.ops.isBuiltin(f) && ShortBody(c, f, [c.values[s]])
    && forall v :: ShortBody(With(c, "A", v), f, [c.values[t]])
  }

  lemma OneRead(c: Context, f: Name, x: Name)
    requires x in c.values && !c.ops.isBuiltin(f) && ShortBody(c, f, [c.values[x]])
    ensures var e := Call(f, MoreExpr(Var(x), NoExpr));
            ShortDecl(c, e) && ShortCall(c, e, NO_LOCALS) && !Known(c, e, NO_LOCALS) && LookupAll(c, e.args, NO_LOCALS) == [c.values[x]]
  {
    hide ShortBody;
    var es := MoreExpr(Var(x), NoExpr);
    assert LookupAll(c, NoExpr, NO_LOCALS) == [];
    assert LookupAll(c, es, NO_LOCALS) == [c.values[x]];
  }

  lemma TwoBuilt(c: Context, f: Name, s: Name, t: Name)
    requires TwoShort(c, f, s, t)
    ensures AllShort(c, map[], TwoCalls(f, s, t)) && Cost(TwoCalls(f, s, t)) <= MAX_STEPS
    ensures var v := BodyValue(c, f, [c.values[s]]);
            var w := if ArgsText([c.values[s]]) == ArgsText([c.values[t]]) then v else BodyValue(With(c, "A", v), f, [c.values[t]]);
            MemoBuild(c, map[], TwoCalls(f, s, t)) == With(With(c, "A", v), "B", w)
  {
    var decls := TwoCalls(f, s, t);
    var e1, e2 := decls[0].1, decls[1].1;
    hide ArgsText, ShortBody, BodyValue, LookupAll, AllKnown, Known, ShortCall;
    OneRead(c, f, s);
    var v := BodyValue(c, f, [c.values[s]]);
    assert DeclValue(c, map[], e1) == v && DeclMemo(c, map[], e1) == map[KeyOf(f, [c.values[s]]) := v];
    var c1, memo := With(c, "A", v), DeclMemo(c, map[], e1);
    OneRead(c1, f, t);
    var w := DeclValue(c1, memo, e2);
    assert w == AnswerTo(c1, memo, f, [c.values[t]]);
    assert decls[1..] == [decls[1]] && decls[1..][1..] == [] && [decls[1]][1..] == [];
    assert AllShort(With(c1, "B", w), DeclMemo(c1, memo, e2), []);
    assert AllShort(c1, memo, [decls[1]]);
    assert AllShort(c, map[], decls);
    assert MemoBuild(c, map[], decls) == MemoBuild(c1, memo, [decls[1]]) == With(c1, "B", w);
    assert Cost([]) == 0 && Length(NoExpr) == 0 && Length(e1.args) == 1 && Length(e2.args) == 1 && Cost([decls[1]]) == 4;
  }

  /** Building the two calls puts the plain value of the second in `B` exactly when its argument is written
      differently from the first one or the plain values of the two calls are the same. */
  lemma TextExactlyDecides(c: Context, f: Name, s: Name, t: Name)
    requires TwoShort(c, f, s, t)
    ensures AllShort(c, map[], TwoCalls(f, s, t)) && "B" in MemoBuild(c, map[], TwoCalls(f, s, t)).values
    ensures var v := BodyValue(c, f, [c.values[s]]);
            var now := With(c, "A", v);
            Gives(now, f, [c.values[t]], MemoBuild(c, map[], TwoCalls(f, s, t)).values["B"])
            <==> ArgsText([c.values[s]]) != ArgsText([c.values[t]]) || Gives(now, f, [c.values[t]], v)
  {
    TwoBuilt(c, f, s, t);
    ShortGives(With(c, "A", BodyValue(c, f, [c.values[s]])), f, [c.values[t]]);
  }

  /** `const func f(x) { x }`: of the sets {1, 2} and {2, 1} the second is replaced by the first. */
  lemma SetOrderExample(ops: Ops)
    requires !ops.isBuiltin("f")
    ensures var s, t := FrozenSet([NumKey(1), NumKey(2)]), FrozenSet([NumKey(2), NumKey(1)]);
            var c := Context(map["S" := s, "T" := t], map["f" := Function(Param("x", None, NoParam), Cons(Stmt.Eval(Var("x")), Nil))], ops);
            var decls := TwoCalls("f", "S", "T");
            && AllShort(c, map[], decls) && Cost(decls) <= MAX_STEPS
            && "B" in MemoBuild(c, map[], decls).values && MemoBuild(c, map[], decls).values["B"] == s
            && Gives(c, "f", [t], t) && !Gives(c, "f", [t], s)
  {
    hide Cost, PlainBlock, PlainCall, Gives, TwoCalls, AllShort, BodyValue, MemoBuild;
    var s, t := FrozenSet([NumKey(1), NumKey(2)]), FrozenSet([NumKey(2), NumKey(1)]);
    var fn := Function(Param("x", None, NoParam), Cons(Stmt.Eval(Var("x")), Nil));
    var c := Context(map["S" := s, "T" := t], map["f" := fn], ops);
    OneTwo();
    forall v, a | v == s || v == t ensures ShortBody(With(c, "A", a), "f", [v]) && BodyValue(With(c, "A", a), "f", [v]) == v
                                   ensures ShortBody(c, "f", [v]) && BodyValue(c, "f", [v]) == v {
      IdentityBody(c, v);
      IdentityBody(With(c, "A", a), v);
    }
    assert s.keys[0] != t.keys[0];
    TwoBuilt(c, "f", "S", "T");
    ShortGives(c, "f", [t]);
    if Gives(c, "f", [t], s) { OneGiven(c, "f", [t], t, s); }
  }

  lemma IdentityBody(c: Context, v: Value)
    requires c.functions == map["f" := Function(Param("x", None, NoParam), Cons(Stmt.Eval(Var("x")), Nil))]
    ensures ShortBody(c, "f", [v]) && BodyValue(c, "f", [v]) == v
  {
    var ps := c.functions["f"].params;
    var l := NO_LOCALS.Set("x", v);
    assert Entered(NoParam, [v][1..], l) == l;
    assert Entered(ps, [v], NO_LOCALS) == l;
    assert Arity(NoParam) == 0 && Arity(ps) == 1;
  }

  /** {1, 2} and {2, 1} are written alike. */
  lemma OneTwo()
    ensures ArgsText([FrozenSet([NumKey(1), NumKey(2)])]) == ArgsText([FrozenSet([NumKey(2), NumKey(1)])])
  {
    var s, t := [NumKey(1), NumKey(2)], [NumKey(2), NumKey(1)];
    assert multiset(s) == multiset(t);
    SortedAlike(s, t);
    SameWritten(FrozenSet(s), FrozenSet(t));
    SameItems([FrozenSet(s)], [FrozenSet(t)]);
  }

  /** `A = f()`, then the constant `X` declared anew as `Y`, then `B = f()`. */
  function Redeclared(): seq<(Name, Expr)> {
    [("A", Call("f", NoExpr)), ("X", Var("Y")), ("B", Call("f", NoExpr))]
  }

  /** `const func f() { X }`: after `X` is declared anew, `B` gets the value of the old `X`; it is right
      exactly when the two values are the same. */
  lemma StaleExactly(ops: Ops, v: Value, w: Value)
    requires !ops.isBuiltin("f")
    ensures var c := Context(map["X" := v, "Y" := w], map["f" := Function(NoParam, Cons(Stmt.Eval(Var("X")), Nil))], ops);
            var now := With(With(c, "A", v), "X", w);
            && AllShort(c, map[], Redeclared()) && Cost(Redeclared()) <= MAX_STEPS
            && "B" in MemoBuild(c, map[], Redeclared()).values && MemoBuild(c, map[], Redeclared()).values["B"] == v
            && Gives(now, "f", [], w) && (Gives(now, "f", [], v) <==> v == w)
  {
    var fn := Function(NoParam, Cons(Stmt.Eval(Var("X")), Nil));
    var c := Context(map["X" := v, "Y" := w], map["f" := fn], ops);
    var decls := Redeclared();
    assert Entered(NoParam, [], NO_LOCALS) == NO_LOCALS && Arity(NoParam) == 0;
    hide ArgsText;
    assert ShortCall(c, decls[0].1, NO_LOCALS) && LookupAll(c, NoExpr, NO_LOCALS) == [];
    var c1, memo := With(c, "A", v), DeclMemo(c, map[], decls[0].1);
    assert memo == map[KeyOf("f", []) := v];
    var c2 := With(c1, "X", w);
    assert DeclValue(c1, memo, decls[1].1) == w && DeclMemo(c1, memo, decls[1].1) == memo;
    assert ShortCall(c2, decls[2].1, NO_LOCALS) && DeclValue(c2, memo, decls[2].1) == v;
    assert decls[1..] == [decls[1], decls[2]] && decls[1..][1..] == [decls[2]] && decls[1..][1..][1..] == [];
    assert MemoBuild(c, map[], decls) == MemoBuild(c1, memo, [decls[1], decls[2]]) == MemoBuild(c2, memo, [decls[2]]) == With(c2, "B", v);
    assert Cost([]) == 0 && Cost([decls[2]]) == 3 && Cost([decls[1], decls[2]]) == 4 && Length(NoExpr) == 0;
    ShortGives(c2, "f", []);
    if Gives(c2, "f", [], v) { OneGiven(c2, "f", [], v, w); }
  }
}
