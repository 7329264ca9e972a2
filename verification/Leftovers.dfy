/** What iterator frames left by a call do to its caller: the two share one stack of frames. */
module Leftovers {
  import opened Wrappers
  import opened Syntax
  import opened Semantics
  import opened Machine
  import opened Codegen
  import opened Simulation
  import opened Linker
  import opened Correctness

  // ----- single steps -----

  lemma PushStep(p: Program, pc: nat, m: State, v: Value)
    requires pc < |p.code| && p.code[pc] == Push(v)
    ensures Step(p, At(pc, m)) == At(pc + 1, m.PushV(v))
  {
  }

  lemma MarkStep(p: Program, pc: nat, m: State)
    requires pc < |p.code| && p.code[pc].Mark?
    ensures Step(p, At(pc, m)) == At(pc + 1, m)
  {
  }

  lemma GotoStep(p: Program, pc: nat, m: State)
    requires pc < |p.code| && p.code[pc].Goto?
    ensures Step(p, At(pc, m)) == At(Target(p, p.code[pc].lbl), m)
  {
  }

  lemma PopStep(p: Program, pc: nat, m: State, v: Value)
    requires pc < |p.code| && p.code[pc] == Pop
    ensures Step(p, At(pc, m.PushV(v))) == At(pc + 1, m)
  {
    assert m.PushV(v).Drop() == m;
  }

  lemma NotTakenStep(p: Program, pc: nat, m: State)
    requires pc < |p.code| && p.code[pc].GotoIfNot?
    ensures Step(p, At(pc, m.PushV(Bool(true)))) == At(pc + 1, m)
  {
    assert m.PushV(Bool(true)).Drop() == m;
  }

  lemma IterNewStep(p: Program, pc: nat, m: State, v: Value)
    requires pc < |p.code| && p.code[pc] == IterNew && p.env.iter(m.w.trace, v).Ret?
    ensures Step(p, At(pc, m.PushV(v)))
         == At(pc + 1, m.(iters := m.iters + [p.env.iter(m.w.trace, v).value], w := m.w.Log(IterMade(v))))
  {
    assert m.PushV(v).Drop() == m;
  }

  /** The topmost frame is asked, whoever has pushed it. */
  lemma IterNextStep(p: Program, pc: nat, m: State, it: Value)
    requires pc < |p.code| && p.code[pc] == IterNext && m.iters != [] && m.iters[|m.iters| - 1] == it
    requires p.env.next(m.w.trace, it).Item?
    ensures Step(p, At(pc, m)) == At(pc + 1, m.(w := m.w.Log(IterAdvanced(it))).PushV(p.env.next(m.w.trace, it).value).PushV(Bool(true)))
  {
  }

  // ----- a body that is one call -----

  function CallOnly(f: Value): Block {
    Cons(Eval(Call(Const(f), NoExpr)), Nil)
  }

  lemma CallOnlyCode(f: Value, sc: Scope, env: Env)
    ensures GenBody(CallOnly(f), sc, env) == [Push(f), CallN(0), RetTop]
  {
    var cx, e := Top(sc, env), Call(Const(f), NoExpr);
    assert GenExpr(Const(f), cx, 0) == Emit([Push(f)], 0);
    assert GenPlain(e, cx, 0).code == [Push(f), CallN(0)];
    assert Fold(e, sc.consts, env, FULL_BUDGET) == None;
    assert GenExpr(e, cx, 0).code == [Push(f), CallN(0)];
    assert GenStmt(Eval(e), true, cx, 0).code == [Push(f), CallN(0)];
    assert GenRange(Nil, true, cx, 0) == Emit([], 0);
    assert GenRange(CallOnly(f), true, cx, 0).code == [Push(f), CallN(0)];
  }

  lemma CallOnlyMeans(f: Value, sc: Scope, env: Env, w: World)
    requires env.call(w.trace, f, []).Ret?
    ensures Means(CallOnly(f), Setting(CODE, sc, env), w, Gave(env.call(w.trace, f, []).value, 0), w.Log(Called(f, [])))
  {
    var t, e, v := Setting(CODE, sc, env), Call(Const(f), NoExpr), env.call(w.trace, f, []).value;
    assert EvalExpr(Const(f), sc, env, w) == (Ret(f), w) && EvalExprs(NoExpr, sc, env, w) == (Values([]), w);
    assert EvalExpr(e, sc, env, w) == (Ret(v), w.Log(Called(f, [])));
    assert ExecStmt(Eval(e), t, w, 0) == (Normal(v), w.Log(Called(f, [])));
    assert ExecBlock(CallOnly(f), t, w, 0) == (Normal(v), w.Log(Called(f, [])));
    assert ExecBody(CallOnly(f), t, w, 0) == (Gave(v, 0), w.Log(Called(f, [])));
  }

  lemma CallOnlySteps(p: Program, f: Value, w: World)
    requires p.code == [Push(f), CallN(0), RetTop] && p.env.call(w.trace, f, []).Ret?
    ensures Reaches(p, At(0, Fresh(w)), 3,
                    Returns(p.env.call(w.trace, f, []).value, Fresh(w.Log(Called(f, []))).(iters := p.env.leaves(w.trace, f, []))))
  {
    hide Reaches, Step;
    var m, v, left := Fresh(w), p.env.call(w.trace, f, []).value, p.env.leaves(w.trace, f, []);
    var m2 := m.(iters := left, w := w.Log(Called(f, [])));
    var none: seq<Value> := [];
    Stay(p, At(0, m));
    PushStep(p, 0, m, f);
    Then(p, At(0, m), 0, At(0, m));
    assert m.PushV(f).stack == none + (none + [f]) && none + left == left;
    CallStep(p, 1, m.PushV(f), [], [], f);
    Then(p, At(0, m), 1, At(1, m.PushV(f)));
    ReturnStep(p, 2, m2, v);
    Then(p, At(0, m), 2, At(2, m2.PushV(v)));
  }

  lemma ReturnStep(p: Program, pc: nat, m: State, v: Value)
    requires pc < |p.code| && p.code[pc] == RetTop
    ensures Step(p, At(pc, m.PushV(v))) == Returns(v, m)
  {
    assert m.PushV(v).Drop() == m;
  }

  lemma CallOnlyRuns(f: Value, sc: Scope, env: Env, w: World)
    requires env.call(w.trace, f, []).Ret?
    ensures Linkable(Compile(CallOnly(f), sc, env))
    ensures Run(Linking(Compile(CallOnly(f), sc, env)), At(0, Fresh(w)), 3)
         == Returns(env.call(w.trace, f, []).value, Fresh(w.Log(Called(f, []))).(iters := env.leaves(w.trace, f, [])))
  {
    hide Linkable, Linking, Table, GenBlock, Run;
    CallOnlyCode(f, sc, env);
    LinkingSucceeds(CallOnly(f), sc, env);
    CallOnlySteps(Compile(CallOnly(f), sc, env), f, w);
    RunLinks(Compile(CallOnly(f), sc, env), At(0, Fresh(w)), 3);
  }

  /** The compiled call does what the body means exactly when the call leaves no frame behind: without
      that hypothesis the compiler is not correct even for one call. */
  lemma TidyCallExactly(f: Value, sc: Scope, env: Env, w: World)
    requires env.call(w.trace, f, []).Ret?
    ensures var b, v, w1 := CallOnly(f), env.call(w.trace, f, []).value, w.Log(Called(f, []));
            && Means(b, Setting(CODE, sc, env), w, Gave(v, 0), w1) && Linkable(Compile(b, sc, env))
            && (Gives(Linking(Compile(b, sc, env)), w, Gave(v, 0), w1) <==> env.leaves(w.trace, f, []) == [])
  {
    CallOnlyMeans(f, sc, env, w);
    CallOnlyRuns(f, sc, env, w);
    var p, v, w1 := Linking(Compile(CallOnly(f), sc, env)), env.call(w.trace, f, []).value, w.Log(Called(f, []));
    hide Linking, Compile, Run;
    var c := Run(p, At(0, Fresh(w)), 3);
    if env.leaves(w.trace, f, []) == [] {
      assert EndsAs(c, Gave(v, 0), w1);
    }
    if Gives(p, w, Gave(v, 0), w1) {
      var n: nat :| EndsAs(Run(p, At(0, Fresh(w)), n), Gave(v, 0), w1);
      if n <= 3 { SameEnd(p, At(0, Fresh(w)), n, 3); } else { SameEnd(p, At(0, Fresh(w)), 3, n); }
    }
  }

  // ----- a loop around such a call -----

  /** `for _ in ys { f() }` */
  function CallEach(ys: Value, f: Value): Block {
    Cons(For(None, None, Const(ys), CallOnly(f), None), Nil)
  }

  function RoundHead(): Code { [Mark(0), IterNext, GotoIfNot(3), Pop] }
  function RoundCall(f: Value): Code { [Push(f), CallN(0), Pop] }
  function RoundTail(): Code { [Mark(1), Goto(0), Mark(2), IterEnd, Goto(4), Mark(3), IterEnd] }

  function CallEachCode(ys: Value, f: Value): Code {
    [Push(ys)] + ([IterNew] + ((RoundHead() + (RoundCall(f) + RoundTail())) + ([] + [Mark(4)])))
  }

  lemma CallEachBody(f: Value, cl: Ctx)
    ensures GenBlock(CallOnly(f), false, cl, 5) == Emit(RoundCall(f), 5) && BlockCompiles(CallOnly(f), [None])
  {
    var e := Call(Const(f), NoExpr);
    assert GenExpr(Const(f), cl, 5) == Emit([Push(f)], 5);
    assert GenPlain(e, cl, 5) == Emit([Push(f), CallN(0)], 5);
    assert Fold(e, cl.sc.consts, cl.env, FULL_BUDGET) == None;
    assert GenStmt(Eval(e), false, cl, 5) == Emit(RoundCall(f), 5);
    assert GenRange(Nil, false, cl, 5) == Emit([], 5);
    assert GenRange(CallOnly(f), false, cl, 5) == Emit(RoundCall(f), 5);
  }

  lemma CallEachCompiles(ys: Value, f: Value, sc: Scope, env: Env)
    ensures BlockCompiles(CallEach(ys, f), []) && GenBody(CallEach(ys, f), sc, env) == CallEachCode(ys, f) + [Push(Unit)] + [RetTop]
  {
    hide CallOnly, GenBlock, RoundHead, RoundCall, RoundTail;
    var cx, body := Top(sc, env), CallOnly(f);
    CallEachBody(f, cx.Enter(LoopInfo(None, 2, 1, 0, Iterating)));
    var loop := For(None, None, Const(ys), body, None);
    var none: seq<Label> := [];
    assert none + [None] == [None];
    assert GenIteration(None, None, body, cx, 0) == Emit(RoundHead() + (RoundCall(f) + RoundTail()), 5) by { Iteration(f, body, cx); }
    assert GenExpr(Const(ys), cx, 0) == Emit([Push(ys)], 0) && GenElse(None, false, false, cx, 5) == Emit([], 5);
    assert GenStmt(loop, false, cx, 0) == Emit(CallEachCode(ys, f), 5);
    LoopOnly(loop, cx, CallEachCode(ys, f));
    assert BlockCompiles(body, none + [None]);
    assert Compiles(loop, none);
    assert BlockCompiles(Nil, none) && BlockCompiles(Cons(loop, Nil), none) && CallEach(ys, f) == Cons(loop, Nil);
  }

  lemma Iteration(f: Value, body: Block, cx: Ctx)
    requires cx.handlers == [] && GenBlock(body, false, cx.Enter(LoopInfo(None, 2, 1, 0, Iterating)), 5) == Emit(RoundCall(f), 5)
    ensures GenIteration(None, None, body, cx, 0) == Emit(RoundHead() + (RoundCall(f) + RoundTail()), 5)
  {
    hide GenBlock;
  }

  /** A body of one loop: nothing is left by it, so a unit value is returned. */
  lemma LoopOnly(loop: Stmt, cx: Ctx, code: Code)
    requires loop.For? && GenStmt(loop, false, cx, 0) == Emit(code, 5)
    ensures GenBlock(Cons(loop, Nil), true, cx, 0).code == code + [Push(Unit)]
  {
    hide GenStmt;
    assert GenRange(Nil, false, cx, 5) == Emit([], 5);
    assert GenRange(Cons(loop, Nil), false, cx, 0).code == code;
  }

  /** The first call returns and leaves the frame `j` on top of the loop's own `it`. */
  ghost predicate LeavesOne(ys: Value, f: Value, it: Value, j: Value, env: Env, w: World) {
    var w1 := w.Log(IterMade(ys));
    var w2 := w1.Log(IterAdvanced(it));
    && env.iter(w.trace, ys) == Ret(it) && env.next(w1.trace, it).Item?
    && env.call(w2.trace, f, []).Ret? && env.leaves(w2.trace, f, []) == [j]
  }

  /** The world after the first call. */
  function Once(ys: Value, f: Value, it: Value, w: World): World {
    w.Log(IterMade(ys)).Log(IterAdvanced(it)).Log(Called(f, []))
  }

  /** The instructions of one round. */
  ghost predicate RoundAt(p: Program, ys: Value, f: Value) {
    && |p.code| > 10 && p.code[0] == Push(ys) && p.code[1] == IterNew && p.code[2] == Mark(0) && p.code[3] == IterNext
    && p.code[4] == GotoIfNot(3) && p.code[5] == Pop && p.code[6] == Push(f) && p.code[7] == CallN(0) && p.code[8] == Pop
    && p.code[9] == Mark(1) && p.code[10] == Goto(0)
  }

  lemma RoundLaid(p: Program, ys: Value, f: Value)
    requires p.code == CallEachCode(ys, f) + [Push(Unit)] + [RetTop] && Linked(p)
    ensures RoundAt(p, ys, f) && Target(p, 0) == 2
  {
    hide CallEachCode, RoundHead, RoundCall, RoundTail, Target, Linked, Here;
    AtStart(p, CallEachCode(ys, f), [Push(Unit)], [RetTop]);
    CodeShape(ys, f);
    Outline(p, ys, RoundHead() + (RoundCall(f) + RoundTail()), [] + [Mark(4)]);
    RoundParts(p, f);
  }

  lemma AtStart(p: Program, code: Code, a: Code, b: Code)
    requires p.code == code + a + b
    ensures Here(p, 0, code)
  {
  }

  lemma Outline(p: Program, ys: Value, round: Code, last: Code)
    requires Here(p, 0, [Push(ys)] + ([IterNew] + (round + last)))
    ensures |p.code| > 1 && p.code[0] == Push(ys) && p.code[1] == IterNew && Here(p, 2, round)
  {
    Parts4(p, 0, [Push(ys)], [IterNew], round, last);
    Fetch(p, 0, [Push(ys)]);
    Fetch(p, 1, [IterNew]);
  }

  lemma CodeShape(ys: Value, f: Value)
    ensures CallEachCode(ys, f) == [Push(ys)] + ([IterNew] + ((RoundHead() + (RoundCall(f) + RoundTail())) + ([] + [Mark(4)])))
  {
  }

  lemma RoundParts(p: Program, f: Value)
    requires Linked(p) && Here(p, 2, RoundHead() + (RoundCall(f) + RoundTail()))
    ensures |p.code| > 10 && p.code[2] == Mark(0) && p.code[3] == IterNext && p.code[4] == GotoIfNot(3) && p.code[5] == Pop
    ensures p.code[6] == Push(f) && p.code[7] == CallN(0) && p.code[8] == Pop && p.code[9] == Mark(1) && p.code[10] == Goto(0)
    ensures Target(p, 0) == 2
  {
    hide RoundHead, RoundCall, RoundTail, Linked, Target;
    Split(p, 2, RoundHead(), RoundCall(f) + RoundTail());
    PartLengths(f);
    Split(p, 6, RoundCall(f), RoundTail());
    hide Here;
    HeadLaid(p);
    CallLaid(p, f);
    TailLaid(p);
  }

  lemma PartLengths(f: Value)
    ensures |RoundHead()| == 4 && |RoundCall(f)| == 3 && |RoundTail()| == 7
  {
  }

  lemma HeadLaid(p: Program)
    requires Linked(p) && Here(p, 2, RoundHead())
    ensures |p.code| >= 6 && p.code[2] == Mark(0) && p.code[3] == IterNext && p.code[4] == GotoIfNot(3) && p.code[5] == Pop
    ensures Target(p, 0) == 2
  {
    Fetch(p, 2, RoundHead());
    Marked(p, 2, RoundHead(), 0);
  }

  lemma CallLaid(p: Program, f: Value)
    requires Here(p, 6, RoundCall(f))
    ensures |p.code| >= 9 && p.code[6] == Push(f) && p.code[7] == CallN(0) && p.code[8] == Pop
  {
    Fetch(p, 6, RoundCall(f));
  }

  lemma TailLaid(p: Program)
    requires Here(p, 9, RoundTail())
    ensures |p.code| >= 16 && p.code[9] == Mark(1) && p.code[10] == Goto(0)
  {
    Fetch(p, 9, RoundTail());
  }

  lemma Starts(p: Program, ys: Value, f: Value, it: Value, w: World)
    requires RoundAt(p, ys, f) && p.env.iter(w.trace, ys) == Ret(it)
    ensures Reaches(p, At(0, Fresh(w)), 3, At(3, Fresh(w.Log(IterMade(ys))).(iters := [it])))
  {
    hide Reaches, Step;
    var c, m0, m1 := At(0, Fresh(w)), Fresh(w), Fresh(w.Log(IterMade(ys))).(iters := [it]);
    Stay(p, c);
    PushStep(p, 0, m0, ys);
    Then(p, c, 0, At(0, m0));
    IterNewStep(p, 1, m0, ys);
    assert m0.iters + [it] == [it];
    Then(p, c, 1, At(1, m0.PushV(ys)));
    MarkStep(p, 2, m1);
    Then(p, c, 2, At(2, m1));
  }

  lemma TakesItem(p: Program, ys: Value, f: Value, c: Config, a: nat, m: State, it: Value)
    requires RoundAt(p, ys, f) && Reaches(p, c, a, At(3, m)) && m.iters != [] && m.iters[|m.iters| - 1] == it
    requires p.env.next(m.w.trace, it).Item?
    ensures Reaches(p, c, a + 3, At(6, m.(w := m.w.Log(IterAdvanced(it)))))
  {
    hide Reaches, Step;
    var m2, v := m.(w := m.w.Log(IterAdvanced(it))), p.env.next(m.w.trace, it).value;
    IterNextStep(p, 3, m, it);
    Then(p, c, a, At(3, m));
    NotTakenStep(p, 4, m2.PushV(v));
    Then(p, c, a + 1, At(4, m2.PushV(v).PushV(Bool(true))));
    PopStep(p, 5, m2, v);
    Then(p, c, a + 2, At(5, m2.PushV(v)));
  }

  lemma CallsOnce(p: Program, ys: Value, f: Value, c: Config, a: nat, m: State, left: seq<Value>)
    requires RoundAt(p, ys, f) && Reaches(p, c, a, At(6, m)) && m.stack == [] && p.env.call(m.w.trace, f, []).Ret?
    requires left == p.env.leaves(m.w.trace, f, [])
    ensures Reaches(p, c, a + 3, At(9, m.(iters := m.iters + left, w := m.w.Log(Called(f, [])))))
  {
    hide Reaches, Step;
    var m2, r := m.(iters := m.iters + left, w := m.w.Log(Called(f, []))), p.env.call(m.w.trace, f, []).value;
    PushStep(p, 6, m, f);
    Then(p, c, a, At(6, m));
    var none: seq<Value> := [];
    assert m.PushV(f).stack == none + (none + [f]);
    CallStep(p, 7, m.PushV(f), [], [], f);
    Then(p, c, a + 1, At(7, m.PushV(f)));
    PopStep(p, 8, m2, r);
    Then(p, c, a + 2, At(8, m2.PushV(r)));
  }

  lemma FirstRound(p: Program, ys: Value, f: Value, it: Value, j: Value, w: World)
    requires RoundAt(p, ys, f) && LeavesOne(ys, f, it, j, p.env, w)
    ensures Reaches(p, At(0, Fresh(w)), 9, At(9, Fresh(Once(ys, f, it, w)).(iters := [it, j])))
  {
    hide Reaches, RoundAt, Step;
    var c, w1 := At(0, Fresh(w)), w.Log(IterMade(ys));
    var m1 := Fresh(w1).(iters := [it]);
    Starts(p, ys, f, it, w);
    TakesItem(p, ys, f, c, 3, m1, it);
    assert [it] + [j] == [it, j];
    CallsOnce(p, ys, f, c, 6, m1.(w := w1.Log(IterAdvanced(it))), [j]);
  }

  /** The machine then asks the frame the call has left for the next item. */
  lemma AsksTheLeftover(p: Program, ys: Value, f: Value, it: Value, j: Value, w: World) returns (m: State)
    requires RoundAt(p, ys, f) && Target(p, 0) == 2 && LeavesOne(ys, f, it, j, p.env, w)
    requires p.env.next(Once(ys, f, it, w).trace, j).Item?
    ensures Reaches(p, At(0, Fresh(w)), 13, At(4, m)) && m.w == Once(ys, f, it, w).Log(IterAdvanced(j))
  {
    FirstRound(p, ys, f, it, j, w);
    hide Reaches, LeavesOne, RoundAt, Step, Target, Once;
    var c, m3 := At(0, Fresh(w)), Fresh(Once(ys, f, it, w)).(iters := [it, j]);
    BackAround(p, ys, f, c, 9, m3);
    m := Asks(p, ys, f, c, 12, m3, j);
  }

  lemma BackAround(p: Program, ys: Value, f: Value, c: Config, a: nat, m: State)
    requires RoundAt(p, ys, f) && Target(p, 0) == 2 && Reaches(p, c, a, At(9, m))
    ensures Reaches(p, c, a + 3, At(3, m))
  {
    hide Reaches, Step, Target;
    MarkStep(p, 9, m);
    Then(p, c, a, At(9, m));
    GotoStep(p, 10, m);
    Then(p, c, a + 1, At(10, m));
    MarkStep(p, 2, m);
    Then(p, c, a + 2, At(2, m));
  }

  lemma Asks(p: Program, ys: Value, f: Value, c: Config, a: nat, m: State, j: Value) returns (m1: State)
    requires RoundAt(p, ys, f) && Reaches(p, c, a, At(3, m)) && m.iters != [] && m.iters[|m.iters| - 1] == j
    requires p.env.next(m.w.trace, j).Item?
    ensures Reaches(p, c, a + 1, At(4, m1)) && m1.w == m.w.Log(IterAdvanced(j))
  {
    hide Reaches, Step;
    IterNextStep(p, 3, m, j);
    Then(p, c, a, At(3, m));
    m1 := m.(w := m.w.Log(IterAdvanced(j))).PushV(p.env.next(m.w.trace, j).value).PushV(Bool(true));
  }

  /** The body asks its own iterator again. */
  lemma {:induction false} RoundsGrow(it: Value, f: Value, t: Setting, w: World, fuel: nat)
    ensures w.Log(IterAdvanced(it)).trace <= ExecFor(it, None, None, CallOnly(f), t, w, fuel).1.trace
    decreases fuel
  {
    var w1 := w.Log(IterAdvanced(it));
    if t.env.next(w.trace, it).Item? && fuel > 0 {
      OneCall(f, t, w1, fuel - 1);
      RoundsGrow(it, f, t, w1.Log(Called(f, [])), fuel - 1);
    }
  }

  lemma OneCall(f: Value, t: Setting, w: World, fuel: nat)
    ensures var r := t.env.call(w.trace, f, []);
            ExecBlock(CallOnly(f), t, w, fuel) == (if r.Ret? then Normal(r.value) else Threw(r.exc), w.Log(Called(f, [])))
  {
    assert EvalExpr(Const(f), t.sc, t.env, w) == (Ret(f), w) && EvalExprs(NoExpr, t.sc, t.env, w) == (Values([]), w);
    assert EvalExpr(Call(Const(f), NoExpr), t.sc, t.env, w) == (t.env.call(w.trace, f, []), w.Log(Called(f, [])));
  }

  lemma AsksItsOwn(ys: Value, f: Value, it: Value, j: Value, t: Setting, w: World, fuel: nat)
    requires LeavesOne(ys, f, it, j, t.env, w) && fuel >= 1
    ensures Once(ys, f, it, w).Log(IterAdvanced(it)).trace <= ExecBody(CallEach(ys, f), t, w, fuel).1.trace
  {
    hide CallOnly;
    var w1 := w.Log(IterMade(ys));
    var loop := For(None, None, Const(ys), CallOnly(f), None);
    assert EvalExpr(Const(ys), t.sc, t.env, w) == (Ret(ys), w);
    OneCall(f, t, w1.Log(IterAdvanced(it)), fuel - 1);
    RoundsGrow(it, f, t, Once(ys, f, it, w), fuel - 1);
    assert ExecFor(it, None, None, CallOnly(f), t, w1, fuel)
        == ExecFor(it, None, None, CallOnly(f), t, Once(ys, f, it, w), fuel - 1);
    assert ExecStmt(loop, t, w, fuel).1 == ExecFor(it, None, None, CallOnly(f), t, w1, fuel).1;
    assert CallEach(ys, f) == Cons(loop, Nil);
  }

  /** A loop whose body calls a function that leaves a frame takes its second item from that frame: the
      compiled loop and its meaning part there. */
  lemma WrongItems(ys: Value, f: Value, it: Value, j: Value, sc: Scope, env: Env, w: World)
    requires LeavesOne(ys, f, it, j, env, w) && env.next(Once(ys, f, it, w).trace, j).Item?
    ensures var b, w1 := CallEach(ys, f), Once(ys, f, it, w);
            && BlockCompiles(b, []) && Linkable(Compile(b, sc, env))
            && (var c := Run(Linking(Compile(b, sc, env)), At(0, Fresh(w)), 13); c.At? && c.m.w.trace == w1.trace + [IterAdvanced(j)])
            && forall fuel: nat :: fuel >= 1 ==> w1.trace + [IterAdvanced(it)] <= ExecBody(b, Setting(CODE, sc, env), w, fuel).1.trace
  {
    hide Linkable, Linking, Table, GenBlock, Run, ExecBody, CallOnly, LeavesOne, CallEachCode;
    var b := CallEach(ys, f);
    CallEachCompiles(ys, f, sc, env);
    LinkingSucceeds(b, sc, env);
    var p := Compile(b, sc, env);
    RoundLaid(p, ys, f);
    var m := AsksTheLeftover(p, ys, f, it, j, w);
    RunLinks(p, At(0, Fresh(w)), 13);
    forall fuel: nat | fuel >= 1
      ensures Once(ys, f, it, w).trace + [IterAdvanced(it)] <= ExecBody(b, Setting(CODE, sc, env), w, fuel).1.trace
    {
      AsksItsOwn(ys, f, it, j, Setting(CODE, sc, env), w, fuel);
    }
  }
}
