/** Which bodies leave an iterator frame behind, lose an exception, or read a constant in place of a
    local: exactly those that an analysis of their syntax says can. */
module Exactness {
  import opened Wrappers
  import opened Syntax
  import opened Semantics
  import opened Machine
  import opened Codegen
  import opened Simulation
  import opened Linker
  import opened Correctness
  import opened MayEnd
  import opened Shadowing
  import opened Scripts
  import opened Traces
  import opened Differences
  import opened Agreement

  // ----- iterator frames -----

  /** If no `return` inside a `for` can be reached, no run leaves an iterator frame. */
  lemma NoFrameLeft(b: Block, t: Setting, w: World, fuel: nat)
    requires !MayBlock(b, End.Returns(true), t.sc)
    ensures var r := ExecBody(b, t, w, fuel).0; r.Gave? ==> r.fors == 0
  {
    BlockEnds(b, t, w, fuel);
  }

  /** Some run of the compiled body returns with frames still on the iterator stack. */
  ghost predicate LeavesFrames(b: Block, sc: Scope, env: Env, w: World) {
    && CallsTidy(env) && Linkable(Compile(b, sc, env))
    && exists v: Value, fors: nat, w1: World :: fors > 0 && Gives(Linking(Compile(b, sc, env)), w, Gave(v, fors), w1)
  }

  /** A body whose decisions are left to calls leaves frames, for some answers, exactly when a `return`
      inside a `for` can be reached. */
  lemma FramesExactly(b: Block, sc: Scope)
    requires BlockCompiles(b, []) && OpenBlock(b, sc)
    ensures MayBlock(b, End.Returns(true), sc) <==> exists env: Env, w: World :: LeavesFrames(b, sc, env, w)
  {
    hide ExecBlock, MayBlock, OpenBlock, BlockScript, Compile, Linking, Gives, BlockCompiles, ExecBody, CallsTidy;
    if MayBlock(b, End.Returns(true), sc) {
      var z := BlockScript(b, End.Returns(true), sc, Unit).answers;
      var env, w, fuel := Scripted(z), World(map[], []), BlockScript(b, End.Returns(true), sc, Unit).fuel;
      ScriptedTidy(z);
      BlockRuns(b, End.Returns(true), Setting(CODE, sc, env), sc, z, w, fuel, {}, Unit);
      ReturnsGave(b, Setting(CODE, sc, env), w, fuel);
      CompilerCorrect(b, sc, env, w);
      var (r, w1) := ExecBody(b, Setting(CODE, sc, env), w, fuel);
      assert Means(b, Setting(CODE, sc, env), w, r, w1);
      assert Gives(Linking(Compile(b, sc, env)), w, Gave(r.v, r.fors), w1);
      assert LeavesFrames(b, sc, env, w);
    }
    if env: Env, w: World :| LeavesFrames(b, sc, env, w) {
      var v: Value, fors: nat, w1: World :| fors > 0 && Gives(Linking(Compile(b, sc, env)), w, Gave(v, fors), w1);
      CompilerCorrect(b, sc, env, w);
      var fuel: nat :| ExecBody(b, Setting(CODE, sc, env), w, fuel) == (Gave(v, fors), w1);
      if !MayBlock(b, End.Returns(true), sc) { NoFrameLeft(b, Setting(CODE, sc, env), w, fuel); }
    }
  }

  lemma ScriptedTidy(z: seq<Answer>)
    ensures CallsTidy(Scripted(z))
  {
  }

  lemma ReturnsGave(b: Block, t: Setting, w: World, fuel: nat)
    requires var o := ExecBlock(b, t, w, fuel).0; !o.Timeout? && EndOf(o) == End.Returns(true)
    ensures var r := ExecBody(b, t, w, fuel).0; r.Gave? && r.fors > 0
  {
  }

  /** `for x in xs { return x }` returns the first item and leaves the iterator it came from. */
  lemma LeavesOneFrame(x: Name, xs: Value, it: Value, v: Value, sc: Scope, env: Env, w: World)
    requires x in sc.locals && CallsTidy(env) && env.iter(w.trace, xs) == Ret(it) && env.next(w.trace + [IterMade(xs)], it) == Item(v)
    ensures var b := Cons(For(None, Some(x), Const(xs), Cons(Return(Some(Var(x))), Nil), None), Nil);
            var w1 := w.Log(IterMade(xs)).Log(IterAdvanced(it)).Set(x, v);
            Linkable(Compile(b, sc, env)) && Gives(Linking(Compile(b, sc, env)), w, Gave(v, 1), w1)
  {
    hide Gives, Linkable, Linking, Compile, CallsTidy;
    var body := Cons(Return(Some(Var(x))), Nil);
    var loop := For(None, Some(x), Const(xs), body, None);
    var b, t := Cons(loop, Nil), Setting(CODE, sc, env);
    var wi := w.Log(IterMade(xs));
    var w1 := wi.Log(IterAdvanced(it)).Set(x, v);
    assert ExecStmt(Return(Some(Var(x))), t, w1, 0) == (ReturnedVar(x, 0), w1);
    assert ExecBlock(body, t, w1, 0) == (ReturnedVar(x, 0), w1);
    assert ExecFor(it, None, Some(x), body, t, wi, 1) == (Some(ReturnedVar(x, 1)), w1);
    assert EvalExpr(Const(xs), sc, env, w) == (Ret(xs), w);
    assert ExecStmt(loop, t, w, 1) == (ReturnedVar(x, 1), w1);
    assert ExecBlock(b, t, w, 1) == (ReturnedVar(x, 1), w1);
    assert ExecBody(b, t, w, 1) == (Gave(v, 1), w1);
    assert Means(b, t, w, Gave(v, 1), w1);
    assert Compiles(loop, []) by { assert BlockCompiles(body, [] + [None]); }
    assert BlockCompiles(b, []);
    CompilerCorrect(b, sc, env, w);
  }

  /** A `return` inside a `for` that is never reached leaves nothing: where it stands is not enough. */
  lemma DeadReturnLeavesNothing(sc: Scope, env: Env, mode: Mode, w: World, fuel: nat)
    ensures var inner := For(None, None, Const(Unit), Cons(Return(None), Nil), None);
            ExecBody(Cons(Return(None), Cons(inner, Nil)), Setting(mode, sc, env), w, fuel) == (Gave(Unit, 0), w)
  {
    assert ExecStmt(Return(None), Setting(mode, sc, env), w, fuel) == (Returned(Unit, 0), w);
  }

  /** The functions of a program: each with its body and the scope it is compiled in. */
  datatype Fn = Fn(body: Block, sc: Scope)

  /** A run of the function's linked code returns `answer` with `n` frames left. */
  ghost predicate RunLeaves(fn: Fn, env: Env, answer: Response, n: nat) {
    && answer.Ret? && Linkable(Compile(fn.body, fn.sc, env))
    && exists w: World, w1: World :: Gives(Linking(Compile(fn.body, fn.sc, env)), w, Gave(answer.value, n), w1)
  }

  /** Calls answered by `outer` leave what the linked code of the called function leaves when its own
      calls are answered by `inner`; calls of anything else leave nothing. */
  ghost predicate OneDeeper(outer: Env, inner: Env, fns: map<Value, Fn>) {
    forall tr: Trace, f: Value, args: seq<Value> :: outer.leaves(tr, f, args) != [] ==>
      f in fns && RunLeaves(fns[f], inner, outer.call(tr, f, args), |outer.leaves(tr, f, args)|)
  }

  /** If in no function of a program a `return` inside a `for` can be reached, calls leave no frame at any
      depth of calls, so the compiler is correct for all of them. */
  lemma {:induction false} TidyProgram(envs: nat -> Env, fns: map<Value, Fn>, n: nat)
    requires forall f :: f in fns ==> BlockCompiles(fns[f].body, []) && !MayBlock(fns[f].body, End.Returns(true), fns[f].sc)
    requires CallsTidy(envs(0)) && forall k: nat :: OneDeeper(envs(k + 1), envs(k), fns)
    ensures CallsTidy(envs(n))
  {
    if n > 0 {
      var outer, inner := envs(n), envs(n - 1);
      TidyProgram(envs, fns, n - 1);
      assert OneDeeper(envs(n - 1 + 1), envs(n - 1), fns);
      forall tr: Trace, f: Value, args: seq<Value> ensures outer.leaves(tr, f, args) == [] {
        var left := outer.leaves(tr, f, args);
        if left != [] {
          QuietRun(fns[f], inner, outer.call(tr, f, args), |left|);
        }
      }
    }
  }

  lemma QuietRun(fn: Fn, env: Env, answer: Response, n: nat)
    requires CallsTidy(env) && BlockCompiles(fn.body, []) && !MayBlock(fn.body, End.Returns(true), fn.sc)
    requires RunLeaves(fn, env, answer, n)
    ensures n == 0
  {
    hide ExecBody, Compile, BlockCompiles, Linking, CallsTidy, MayBlock, Gives;
    var w: World, w1: World :| Gives(Linking(Compile(fn.body, fn.sc, env)), w, Gave(answer.value, n), w1);
    CompilerCorrect(fn.body, fn.sc, env, w);
    var fuel: nat :| ExecBody(fn.body, Setting(CODE, fn.sc, env), w, fuel) == (Gave(answer.value, n), w1);
    NoFrameLeft(fn.body, Setting(CODE, fn.sc, env), w, fuel);
  }

  // ----- lost exceptions -----

  lemma {:induction false} OpenTame(s: Stmt, sc: Scope)
    requires OpenStmt(s, sc)
    ensures Tame(s, true, sc)
    decreases s
  {
    match s
    case If(arms, els) => ArmsOpenTame(arms, sc); if els.Some? { BlockOpenTame(els.value, sc); }
    case While(_, _, body) => BlockOpenTame(body, sc);
    case Loop(_, _, body) => BlockOpenTame(body, sc);
    case For(_, _, _, body, els) => BlockOpenTame(body, sc); if els.Some? { BlockOpenTame(els.value, sc); }
    case Try(body, catches, els) =>
      BlockOpenTame(body, sc);
      CatchOpenTame(catches, sc);
      if els.Some? { BlockOpenTame(els.value, sc); }
    case With(_, _, body) => BlockOpenTame(body, sc);
    case _ =>
  }

  lemma CatchOpenTame(cs: Catches, sc: Scope)
    requires OpenCatch(cs, sc)
    ensures CatchesTame(cs, true, sc)
    decreases cs
  {
    if cs.Catch? { BlockOpenTame(cs.body, sc); }
  }

  lemma {:induction false} ArmsOpenTame(arms: Arms, sc: Scope)
    requires OpenArms(arms, sc)
    ensures ArmsTame(arms, true, sc)
    decreases arms
  {
    BlockOpenTame(arms.body, sc);
    if arms.Arm? { ArmsOpenTame(arms.rest, sc); }
  }

  lemma {:induction false} BlockOpenTame(b: Block, sc: Scope)
    requires OpenBlock(b, sc)
    ensures BlockTame(b, true, sc)
    decreases b
  {
    if b.Cons? {
      OpenTame(b.head, sc);
      DeferClosed(b.head, sc);
      BlockOpenTame(b.tail, sc);
    }
  }

  /** `defer c` before a rest whose decisions, like those of `c`, are left to calls: no run can tell the
      compiled meaning from the intended one exactly when the rest cannot throw or `c` cannot end
      normally. */
  lemma LossExactly(cleanup: Block, rest: Block, sc: Scope)
    requires OpenBlock(cleanup, sc) && OpenBlock(rest, sc) && Assigned(cleanup) !! ReturnedIn(rest)
    ensures var b := Cons(Defer(cleanup), rest);
            (forall env: Env, w: World, fuel: nat ::
               ExecBody(b, Setting(CODE, sc, env), w, fuel) == ExecBody(b, Setting(INTENDED, sc, env), w, fuel))
            <==> !(MayBlock(rest, Throws, sc) && MayBlock(cleanup, Falls, sc))
  {
    hide ExecBlock, MayBlock, OpenBlock, BlockScript, ExecBody, Assigned, ReturnedIn;
    var b := Cons(Defer(cleanup), rest);
    BlockOpenTame(cleanup, sc);
    BlockOpenTame(rest, sc);
    if MayBlock(rest, Throws, sc) && MayBlock(cleanup, Falls, sc) {
      var env, w, fuel := LossShows(cleanup, rest, sc);
    } else {
      assert BlockTame(b, true, sc);
      forall env: Env, w: World, fuel: nat
        ensures ExecBody(b, Setting(CODE, sc, env), w, fuel) == ExecBody(b, Setting(INTENDED, sc, env), w, fuel)
      {
        QuietDefersIntended(b, sc, env, w, fuel);
      }
    }
  }

  /** The rest throws, the deferred body ends normally, and the exception is another one. */
  lemma LossShows(cleanup: Block, rest: Block, sc: Scope) returns (env: Env, w: World, fuel: nat)
    requires OpenBlock(cleanup, sc) && OpenBlock(rest, sc) && MayBlock(rest, Throws, sc) && MayBlock(cleanup, Falls, sc)
    ensures var b := Cons(Defer(cleanup), rest);
            ExecBody(b, Setting(CODE, sc, env), w, fuel) != ExecBody(b, Setting(INTENDED, sc, env), w, fuel)
  {
    hide ExecBlock, MayBlock, OpenBlock, BlockScript;
    var first, second := BlockScript(rest, Throws, sc, Unit), BlockScript(cleanup, Falls, sc, Unit);
    var z := first.answers + second.answers;
    env, w, fuel := Scripted(z), World(map[], []), first.fuel + second.fuel;
    assert Follows(z, 0, first.answers + second.answers);
    FollowsParts(z, 0, first.answers, second.answers);
    var t, u := Setting(CODE, sc, env), Setting(INTENDED, sc, env);
    BlockRuns(rest, Throws, t, sc, z, w, fuel, {}, Unit);
    BlockRuns(rest, Throws, u, sc, z, w, fuel, {}, Unit);
    BlockRuns(cleanup, Falls, t, sc, z, ExecBlock(rest, t, w, fuel).1, fuel, {}, Unit);
    BlockRuns(cleanup, Falls, u, sc, z, ExecBlock(rest, u, w, fuel).1, fuel, {}, Unit);
    OneDefer(cleanup, rest, t, w, fuel);
    OneDefer(cleanup, rest, u, w, fuel);
  }

  // ----- shadowed constants -----

  /** A body that cannot come to read a local with a constant's name means what it would mean if its
      locals hid the constants. */
  lemma UnreadShadowsHarmless(b: Block, t: Setting, w: World, fuel: nat)
    requires !BlockMayRead(b, Shadowed(t.sc), t.sc)
    ensures ExecBody(b, t, w, fuel) == ExecBody(b, Hiding(t), w, fuel)
  {
    BlockAlike(b, t, w, fuel);
  }

  /** A body whose decisions are left to calls can be told from one whose locals hide the constants,
      in some world and for some answers, exactly when it can come to read a shadowed local. */
  lemma ShadowingExactly(b: Block, sc: Scope)
    requires OpenBlock(b, sc)
    ensures (forall env: Env, w: World, fuel: nat ::
               ExecBody(b, Setting(CODE, sc, env), w, fuel) == ExecBody(b, Setting(CODE, sc.Visible(), env), w, fuel))
            <==> !BlockMayRead(b, Shadowed(sc), sc)
  {
    hide ExecBlock, BlockMayRead, OpenBlock, ExecBody;
    if BlockMayRead(b, Shadowed(sc), sc) {
      var env, w, fuel := ShadowShows(b, sc);
    } else {
      forall env: Env, w: World, fuel: nat
        ensures ExecBody(b, Setting(CODE, sc, env), w, fuel) == ExecBody(b, Setting(CODE, sc.Visible(), env), w, fuel)
      {
        UnreadShadowsHarmless(b, Setting(CODE, sc, env), w, fuel);
      }
    }
  }

  lemma ShadowShows(b: Block, sc: Scope) returns (env: Env, w: World, fuel: nat)
    requires OpenBlock(b, sc) && BlockMayRead(b, Shadowed(sc), sc)
    ensures ExecBody(b, Setting(CODE, sc, env), w, fuel) != ExecBody(b, Setting(CODE, sc.Visible(), env), w, fuel)
  {
    hide ExecBlock, BlockMayRead, OpenBlock, BlockLure;
    var d := NewValue(sc.consts.Values);
    var script := BlockLure(b, Shadowed(sc), sc, d);
    env, w, fuel := Scripted(script.answers), World(map x | x in Shadowed(sc) :: d, []), script.fuel;
    assert forall x :: x in Shadowed(sc) ==> sc.consts[x] in sc.consts.Values;
    BlockApart(b, Setting(CODE, sc, env), sc, script.answers, w, fuel, d);
  }

  lemma NewValue(used: set<Value>) returns (d: Value)
    ensures d !in used
  {
    var n := HighRef(used);
    d := Ref(n);
  }

  /** Finitely many values leave a reference over. */
  lemma {:induction false} HighRef(used: set<Value>) returns (n: nat)
    ensures forall k: nat :: k >= n ==> Ref(k) !in used
    decreases used
  {
    n := 0;
    if used != {} {
      var v :| v in used;
      var m := HighRef(used - {v});
      n := if v.Ref? && v.id >= m then v.id + 1 else m;
    }
  }

  /** A read whose value changes nothing: a shadowed local can be read and the difference not be seen. */
  lemma ReadWithoutEffect(x: Name, sc: Scope, env: Env, mode: Mode, w: World, fuel: nat)
    requires x in Shadowed(sc)
    ensures var b := Cons(Eval(IfElse(Var(x), Const(Unit), Const(Unit))), Nil);
            BlockMayRead(b, Shadowed(sc), sc)
            && ExecBody(b, Setting(mode, sc, env), w, fuel) == ExecBody(b, Setting(mode, sc.Visible(), env), w, fuel)
  {
    var e := IfElse(Var(x), Const(Unit), Const(Unit));
    assert EvalExpr(Var(x), sc, env, w).0.Ret? && EvalExpr(Var(x), sc.Visible(), env, w).0.Ret?;
    assert EvalExpr(Const(Unit), sc, env, w) == (Ret(Unit), w) == EvalExpr(Const(Unit), sc.Visible(), env, w);
    assert EvalExpr(e, sc, env, w) == (Ret(Unit), w) == EvalExpr(e, sc.Visible(), env, w);
    assert ExecStmt(Eval(e), Setting(mode, sc, env), w, fuel) == ExecStmt(Eval(e), Setting(mode, sc.Visible(), env), w, fuel);
    assert Reads(Var(x), Shadowed(sc)) && Reads(e, Shadowed(sc));
    assert MayRead(Eval(e), Shadowed(sc), sc);
  }

  /** A body that is just `x` returns the constant `x`, whatever the local `x` holds. */
  lemma ShadowedConstExample(x: Name, sc: Scope, env: Env, w: World, fuel: nat)
    requires x in Shadowed(sc) && CallsTidy(env)
    ensures var b := Cons(Eval(Var(x)), Nil);
            && ExecBody(b, Setting(INTENDED, sc.Visible(), env), w, fuel) == (Gave(w.Get(x), 0), w)
            && Linkable(Compile(b, sc, env)) && Gives(Linking(Compile(b, sc, env)), w, Gave(sc.consts[x], 0), w)
  {
    hide Gives, Linkable, Linking, Compile, CallsTidy;
    var b, t, u := Cons(Eval(Var(x)), Nil), Setting(CODE, sc, env), Setting(INTENDED, sc.Visible(), env);
    assert EvalExpr(Var(x), sc, env, w) == (Ret(sc.consts[x]), w);
    assert EvalExpr(Var(x), sc.Visible(), env, w) == (Ret(w.Get(x)), w);
    assert ExecStmt(Eval(Var(x)), t, w, fuel) == (Normal(sc.consts[x]), w) && ExecStmt(Eval(Var(x)), u, w, fuel) == (Normal(w.Get(x)), w);
    assert ExecBody(b, t, w, fuel) == (Gave(sc.consts[x], 0), w);
    assert Means(b, t, w, Gave(sc.consts[x], 0), w);
    CompilerCorrect(b, sc, env, w);
  }

  // ----- the order of catch clauses -----

  function Returning(v: Value): Block {
    Cons(Return(Some(Const(v))), Nil)
  }

  /** `catch (...) { return a } catch (x: T) { return b }`. */
  function TwoClauses(typeName: Name, x: Name, a: Value, b: Value): Catches {
    Catch(AnyExc, Returning(a), Catch(BindExc(Some(typeName), x), Returning(b), NoCatch))
  }

  /** An exception that is a `T` reaches the second clause, though the first one would handle it too. */
  lemma CatchOrderExample(exc: Value, typeName: Name, x: Name, a: Value, b: Value, sc: Scope, env: Env, w: World, fuel: nat)
    requires env.isException(exc) && env.isA(exc, typeName) && CallsTidy(env)
    ensures var cs := TwoClauses(typeName, x, a, b);
            var body := Cons(Try(Cons(Throw(Const(exc)), Nil), cs, None), Nil);
            && Linkable(Compile(body, sc, env)) && Gives(Linking(Compile(body, sc, env)), w, Gave(b, 0), w.Set(x, exc))
            && InOrder(cs, exc, env, 0) == Some(0)
            && ExecCatch(cs, 0, exc, Setting(CODE, sc, env), w, fuel) == (Returned(a, 0), w)
  {
    hide Gives, Linkable, Linking, Compile, CallsTidy;
    var t, cs, inner := Setting(CODE, sc, env), TwoClauses(typeName, x, a, b), Cons(Throw(Const(exc)), Nil);
    var s := Try(inner, cs, None);
    var body := Cons(s, Nil);
    assert EvalExpr(Const(exc), sc, env, w) == (Ret(exc), w);
    assert ExecStmt(Throw(Const(exc)), t, w, fuel) == (Threw(exc), w);
    assert ExecBlock(inner, t, w, fuel) == (Threw(exc), w);
    ReturningRuns(a, t, w, fuel);
    ReturningRuns(b, t, w.Set(x, exc), fuel);
    assert SelectTyped(cs.rest, exc, env, 1) == Some(1);
    assert SelectTyped(cs, exc, env, 0) == Some(1);
    assert ExecCatch(cs.rest, 0, exc, t, w, fuel) == (Returned(b, 0), w.Set(x, exc));
    assert ExecCatch(cs, 1, exc, t, w, fuel) == (Returned(b, 0), w.Set(x, exc));
    assert ExecTry(s, t, w, fuel) == (Returned(b, 0), w.Set(x, exc));
    assert ExecStmt(s, t, w, fuel) == (Returned(b, 0), w.Set(x, exc));
    assert ExecBlock(body, t, w, fuel) == (Returned(b, 0), w.Set(x, exc));
    assert ExecBody(body, t, w, fuel) == (Gave(b, 0), w.Set(x, exc));
    assert Means(body, t, w, Gave(b, 0), w.Set(x, exc));
    ClausesCompile(typeName, x, a, b);
    assert BlockCompiles(inner, []) && Compiles(s, []);
    assert BlockCompiles(body, []);
    CompilerCorrect(body, sc, env, w);
  }

  lemma ReturningRuns(v: Value, t: Setting, w: World, fuel: nat)
    ensures ExecBlock(Returning(v), t, w, fuel) == (Returned(v, 0), w)
  {
    assert EvalExpr(Const(v), t.sc, t.env, w) == (Ret(v), w);
    assert ExecStmt(Return(Some(Const(v))), t, w, fuel) == (Returned(v, 0), w);
  }

  lemma ClausesCompile(typeName: Name, x: Name, a: Value, b: Value)
    ensures CatchesCompile(TwoClauses(typeName, x, a, b), [])
  {
    var none: seq<Label> := [];
    assert BlockCompiles(Nil, none) && Compiles(Return(Some(Const(a))), none) && Compiles(Return(Some(Const(b))), none);
    assert BlockCompiles(Returning(a), none) && BlockCompiles(Returning(b), none);
    assert CatchesCompile(NoCatch, none);
    assert CatchesCompile(Catch(BindExc(Some(typeName), x), Returning(b), NoCatch), none);
  }
}
