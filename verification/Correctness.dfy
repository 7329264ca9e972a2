/** The main result: the machine, started on the linked code of a function body, gives
    exactly what the body means. */
module Correctness {
  import opened Wrappers
  import opened Syntax
  import opened Semantics
  import opened Machine
  import opened Codegen
  import opened Simulation
  import opened Exits
  import opened Steps
  import opened Labels
  import opened StatementLabels
  import opened Linker
  import opened StatementSimulation

  function Top(sc: Scope, env: Env): Ctx {
    Ctx(sc, env, [], [])
  }

  /** The code of a body with its label table, before the jumps are rewritten. */
  function Compile(b: Block, sc: Scope, env: Env): Program {
    Program(GenBody(b, sc, env), Table(GenBody(b, sc, env)), env)
  }

  function Fresh(w: World): State {
    State([], [], [], map[], None, w)
  }

  // ----- linking never fails -----

  /** Expression code is not empty and does not start with a mark. */
  lemma {:induction false} FirstOfExpr(e: Expr, cx: Ctx, n: nat)
    ensures |GenExpr(e, cx, n).code| > 0 && !GenExpr(e, cx, n).code[0].Mark?
    decreases e, 1
  {
    if TryEval(e, cx).None? {
      match e
      case Unary(_, a) => FirstOfExpr(a, cx, n);
      case Binary(_, l, _) => FirstOfExpr(l, cx, n);
      case And(l, _) => FirstOfExpr(l, cx, n + 3);
      case Or(l, _) => FirstOfExpr(l, cx, n + 3);
      case IfElse(c, _, _) => FirstOfExpr(c, cx, n + 2);
      case Tuple(es) => FirstOfExprs(es, cx, n);
      case Member(o, _) => FirstOfExpr(o, cx, n);
      case Call(f, args) =>
        FirstOfExprs(args, cx, n);
        FirstOfExpr(f, cx, GenExprs(args, cx, n).next);
      case _ =>
    }
  }

  lemma FirstOfExprs(es: Exprs, cx: Ctx, n: nat)
    ensures var c := GenExprs(es, cx, n).code; |c| > 0 ==> !c[0].Mark?
    decreases es, 0
  {
    if es.MoreExpr? { FirstOfExpr(es.head, cx, n); }
  }

  /** The code of a statement outside all loops and handlers is not empty, and a mark at its
      start can only be the label `n`. */
  lemma FirstOfStmt(s: Stmt, keep: bool, sc: Scope, env: Env, n: nat)
    requires Compiles(s, []) && !s.Defer?
    ensures var c := GenStmt(s, keep, Top(sc, env), n).code; |c| > 0 && (c[0].Mark? ==> c[0].lbl == n)
  {
    var cx := Top(sc, env);
    match s
    case Eval(e) => FirstOfExpr(e, cx, n);
    case Let(_, e) => FirstOfExpr(e, cx, n);
    case Assign(_, e) => FirstOfExpr(e, cx, n);
    case Throw(e) => FirstOfExpr(e, cx, n);
    case If(arms, _) => FirstOfExpr(arms.cond, cx, n + 2);
    case Loop(_, count, _) => if count.Some? { FirstOfExpr(count.value, cx, n + 2); }
    case For(_, _, e, _, _) => FirstOfExpr(e, cx, n);
    case With(e, _, _) => FirstOfExpr(e, cx, n + 3);
    case Match(e, _, _) => FirstOfExpr(e, cx, n + 1);
    case Return(result) =>
      assert cx.handlers[0..] == [] && Kinds([]) + [] == [];
      if result.Some? {
        if result.value.Var? && result.value.x in sc.locals {
          assert GenExit(ReturnedVar(result.value.x, 0), cx, n).code == [RetFast(Local(result.value.x))];
        } else {
          FirstOfExpr(result.value, cx, n);
        }
      }
    case _ =>
  }

  lemma FirstOfBody(b: Block, sc: Scope, env: Env)
    requires BlockCompiles(b, [])
    ensures var c := GenBody(b, sc, env); |c| > 0 && (c[0].Mark? ==> c[0].lbl == 0)
  {
    hide GenStmt;
    var cx := Top(sc, env);
    var range := GenRange(b, BlockYields(b), cx, 0).code;
    if b.Cons? && !b.head.Defer? {
      FirstOfStmt(b.head, BlockYields(b) && b.tail.Nil?, sc, env, 0);
      var es := GenStmt(b.head, BlockYields(b) && b.tail.Nil?, cx, 0);
      assert range == es.code + GenRange(b.tail, BlockYields(b), cx, es.next).code;
      assert GenBody(b, sc, env)[0] == es.code[0];
    }
  }

  /** No label of a compiled body is marked twice, every jump finds its mark, and the `else`
      sentinel 0 stays unambiguous. */
  lemma LinkingSucceeds(b: Block, sc: Scope, env: Env)
    requires BlockCompiles(b, [])
    ensures Linked(Compile(b, sc, env)) && Linkable(Compile(b, sc, env))
  {
    hide GenBlock, GenRange, Table, BlockCompiles, Neat;
    var p := Compile(b, sc, env);
    var e := GenBlock(b, true, Top(sc, env), 0);
    NeatBlock(b, true, Top(sc, env), 0, {});
    Tail(e.code, [RetTop], 0, e.next, {}, {});
    NeatLinks(p, e.next);
    FirstOfBody(b, sc, env);
    SentinelApart(p);
  }

  lemma SentinelApart(p: Program)
    requires Resolvable(p.code, p.labels) && forall l :: l in p.labels ==> p.labels[l] < |p.code| && p.code[p.labels[l]] == Mark(l)
    requires |p.code| > 0 && (p.code[0].Mark? ==> p.code[0].lbl == 0)
    ensures Linkable(p)
  {
    forall i | 0 <= i < |p.code| && p.code[i].EnterTry? && p.code[i].elseLbl != 0
      ensures Absolute(p.code[i], p.labels).elseLbl != 0
    {
      var l := p.code[i].elseLbl;
      assert l in Targets(p.code[i]);
      assert p.code[p.labels[l]] == Mark(l);
    }
  }

  lemma NeatLinks(p: Program, k: nat)
    requires Neat(p.code, 0, k, {}, {}) && p.labels == Table(p.code)
    ensures Linked(p) && Resolvable(p.code, p.labels)
    ensures forall l :: l in p.labels ==> p.labels[l] < |p.code| && p.code[p.labels[l]] == Mark(l)
  {
    TableSound(p.code);
    forall i | 0 <= i < |p.code| && p.code[i].Mark?
      ensures p.code[i].lbl in p.labels && p.labels[p.code[i].lbl] == i
    {
      var l := p.code[i].lbl;
      assert Has(p.code, l);
      var j := p.labels[l];
      assert p.code[j] == Mark(l);
      assert !(i < j) && !(j < i);
    }
    forall i | 0 <= i < |p.code| ensures Defined(p.code[i], p.labels) {
      forall l | l in Targets(p.code[i]) ensures l in p.labels { assert Has(p.code, l); }
    }
  }

  // ----- the end of a body -----

  /** A body that has ended returns, throws, or is still running. */
  ghost predicate Halts(p: Program, w: World, steps: nat, fuel: nat, r: (Final, World), c: Config) {
    && Run(p, At(0, Fresh(w)), steps) == c
    && (match r.0
        case Gave(v, fors) => c.Returns? && c.v == v && c.left.w == r.1 && c.left.stack == [] && c.left.tries == [] && |c.left.iters| == fors
        case Raised(e) => c.Uncaught? && c.exc == e && c.left.w == r.1 && c.left.tries == []
        case Running => c.At? && steps >= fuel
        case Stray => false)
  }

  /** A `return` at the outermost level: drop the counters of the loops crossed, then return. */
  lemma RunReturn(p: Program, c: Config, a: nat, pc: nat, m: State, v: Value, n: nat, pend: seq<LoopKind>)
    returns (steps: nat, left: State)
    requires Reaches(p, c, a, At(pc, m)) && Here(p, pc, GenLeave(Returned(v, 0), [], pend, n).code)
    requires |m.stack| == Counters(pend) + 1 && m.Top() == v
    ensures Reaches(p, c, steps, Returns(v, left))
    ensures left.stack == [] && left.tries == m.tries && left.iters == m.iters && left.w == m.w
  {
    assert Kinds([]) + pend == pend;
    var k := Counters(pend);
    if k == 0 {
      Fetch(p, pc, [RetTop]);
      Then(p, c, a, At(pc, m));
      steps, left := a + 1, m.Drop();
    } else {
      steps, left := RunReturnPast(p, c, a, pc, m, v, n, k);
    }
  }

  lemma RunReturnPast(p: Program, c: Config, a: nat, pc: nat, m: State, v: Value, n: nat, k: nat) returns (steps: nat, left: State)
    requires Reaches(p, c, a, At(pc, m)) && Here(p, pc, [StoreFast(Temp(n))] + Pops(k) + [LoadFast(Temp(n)), RetTop])
    requires |m.stack| == k + 1 && m.Top() == v
    ensures Reaches(p, c, steps, Returns(v, left))
    ensures left.stack == [] && left.tries == m.tries && left.iters == m.iters && left.w == m.w
  {
    hide Pops;
    var store, tail := [StoreFast(Temp(n))], [LoadFast(Temp(n)), RetTop];
    Split(p, pc, store + Pops(k), tail);
    Split(p, pc, store, Pops(k));
    PopsLength(k);
    Fetch(p, pc, store);
    Then(p, c, a, At(pc, m));
    var m1 := m.Drop().(temps := m.temps[n := v]);
    var m2 := RunPops(p, c, a + 1, pc + 1, m1, k);
    steps, left := ReloadReturn(p, c, a + 1 + k, pc + 1 + k, m2, n, v);
  }

  lemma {:induction false} PopsLength(k: nat)
    ensures |Pops(k)| == k
    decreases k
  {
    if k > 0 { PopsLength(k - 1); }
  }

  lemma {:induction false} RunPops(p: Program, c: Config, a: nat, pc: nat, m: State, k: nat) returns (m': State)
    requires Reaches(p, c, a, At(pc, m)) && Here(p, pc, Pops(k)) && k <= |m.stack|
    ensures m' == m.(stack := m.stack[..|m.stack| - k]) && Reaches(p, c, a + k, At(pc + k, m'))
    decreases k
  {
    if k == 0 {
      m' := m;
    } else {
      Split(p, pc, [Pop], Pops(k - 1));
      Fetch(p, pc, [Pop]);
      Then(p, c, a, At(pc, m));
      m' := RunPops(p, c, a + 1, pc + 1, m.Drop(), k - 1);
    }
  }

  lemma ReloadReturn(p: Program, c: Config, a: nat, pc: nat, m: State, n: nat, v: Value) returns (steps: nat, left: State)
    requires Reaches(p, c, a, At(pc, m)) && Here(p, pc, [LoadFast(Temp(n)), RetTop])
    requires n in m.temps && m.temps[n] == v && m.stack == []
    ensures Reaches(p, c, steps, Returns(v, left)) && left == m
  {
    Fetch(p, pc, [LoadFast(Temp(n)), RetTop]);
    Then(p, c, a, At(pc, m));
    assert m.PushV(v).Drop() == m;
    Then(p, c, a + 1, At(pc + 1, m.PushV(v)));
    steps, left := a + 2, m;
  }

  lemma RunReturnVar(p: Program, c: Config, a: nat, pc: nat, m: State, x: Name, n: nat, pend: seq<LoopKind>)
    returns (steps: nat, left: State)
    requires Reaches(p, c, a, At(pc, m)) && Here(p, pc, GenLeave(ReturnedVar(x, 0), [], pend, n).code)
    requires |m.stack| == Counters(pend)
    ensures Reaches(p, c, steps, Returns(m.w.Get(x), left))
    ensures left.stack == [] && left.tries == m.tries && left.iters == m.iters && left.w == m.w
  {
    hide Counters, Here;
    assert Kinds([]) + pend == pend;
    var k := Counters(pend);
    Split(p, pc, Pops(k), [RetFast(Local(x))]);
    PopsLength(k);
    left := RunPops(p, c, a, pc, m, k);
    Fetch(p, pc + k, [RetFast(Local(x))]);
    Then(p, c, a + k, At(pc + k, left));
    steps := a + k + 1;
  }

  /** The code of the body has run; whatever follows ends the machine. */
  lemma Finish(p: Program, b: Block, sc: Scope, env: Env, w: World, fuel: nat, r: Result, t: Wit)
    returns (steps: nat, c: Config)
    requires r == ExecBlock(b, Setting(CODE, sc, env), w, fuel)
    requires Ends(p, At(0, Fresh(w)), Fresh(w), |GenBlock(b, true, Top(sc, env), 0).code|, true, Top(sc, env), 0, fuel, r, t)
    requires Here(p, |GenBlock(b, true, Top(sc, env), 0).code|, [RetTop])
    ensures Halts(p, w, steps, fuel, ExecBody(b, Setting(CODE, sc, env), w, fuel), c)
  {
    hide GenBlock, ExecBlock, Run, Top;
    var start := At(0, Fresh(w));
    var cx := Top(sc, env);
    if r.0.Threw? {
      steps, c := t.steps, Dispatch(p, t.m);
    } else if r.0.Timeout? {
      steps, c := t.steps, At(t.pc, t.m);
    } else if r.0.Normal? {
      steps, c := FinishNormal(p, start, t.steps, t.pc, t.m, r.0.v);
    } else {
      steps, c := FinishExit(p, sc, env, w, r, t);
    }
    assert Run(p, start, steps) == c;
  }

  lemma FinishNormal(p: Program, start: Config, n: nat, pc: nat, m: State, v: Value) returns (steps: nat, c: Config)
    requires Reaches(p, start, n, At(pc, m)) && Here(p, pc, [RetTop]) && m.stack == [v]
    ensures Reaches(p, start, steps, c) && steps == n + 1 && c == Returns(v, m.Drop()) && m.Drop().stack == []
  {
    Fetch(p, pc, [RetTop]);
    Then(p, start, n, At(pc, m));
    steps, c := n + 1, Returns(v, m.Drop());
  }

  lemma FinishExit(p: Program, sc: Scope, env: Env, w: World, r: Result, t: Wit) returns (steps: nat, c: Config)
    requires IsExit(r.0) && Leaving(p, Fresh(w), Top(sc, env), 0, r.0, t) && t.m.tries == [] && t.m.w == r.1
    requires Reaches(p, At(0, Fresh(w)), t.steps, At(t.pc, t.m))
    ensures Reaches(p, At(0, Fresh(w)), steps, c) && (r.0.Returned? || r.0.ReturnedVar?)
    ensures c.Returns? && c.v == (if r.0.Returned? then r.0.v else r.1.Get(r.0.x)) && c.left.w == r.1
    ensures c.left.stack == [] && c.left.tries == [] && |c.left.iters| == r.0.fors
  {
    var start := At(0, Fresh(w));
    var left;
    assert Top(sc, env).handlers[0..] == [];
    assert ExitCode(r.0, Top(sc, env), t.site, t.ne, t.pend) == GenLeave(r.0, [], t.pend, t.ne).code;
    if r.0.Returned? {
      steps, left := RunReturn(p, start, t.steps, t.pc, t.m, r.0.v, t.ne, t.pend);
      c := Returns(r.0.v, left);
    } else {
      assert r.0.ReturnedVar?;
      steps, left := RunReturnVar(p, start, t.steps, t.pc, t.m, r.0.x, t.ne, t.pend);
      c := Returns(r.1.Get(r.0.x), left);
    }
  }

  /** For every amount of fuel: the machine, on the code with labels, ends as the body does. */
  lemma CompiledRuns(b: Block, sc: Scope, env: Env, w: World, fuel: nat) returns (steps: nat, c: Config)
    requires BlockCompiles(b, []) && CallsTidy(env)
    ensures Halts(Compile(b, sc, env), w, steps, fuel, ExecBody(b, Setting(CODE, sc, env), w, fuel), c)
  {
    hide GenBlock, ExecBlock, BlockCompiles, Table, Linkable;
    LinkingSucceeds(b, sc, env);
    var p := Compile(b, sc, env);
    var cx := Top(sc, env);
    var e := GenBlock(b, true, cx, 0);
    assert Here(p, 0, e.code + [RetTop]);
    Split(p, 0, e.code, [RetTop]);
    assert Names(cx.loops) == [];
    var t := SimBlock(p, b, true, cx, 0, 0, Fresh(w), fuel);
    steps, c := Finish(p, b, sc, env, w, fuel, ExecBlock(b, Compiled(cx), w, fuel), t);
  }

  /** The same on the linked code, with every jump rewritten to a position. */
  lemma LinkedRuns(b: Block, sc: Scope, env: Env, w: World, fuel: nat) returns (steps: nat, c: Config)
    requires BlockCompiles(b, []) && CallsTidy(env)
    ensures Linkable(Compile(b, sc, env))
    ensures Halts(Linking(Compile(b, sc, env)), w, steps, fuel, ExecBody(b, Setting(CODE, sc, env), w, fuel), c)
  {
    hide ExecBody, Compile, BlockCompiles;
    LinkingSucceeds(b, sc, env);
    var p := Compile(b, sc, env);
    var c0;
    steps, c0 := CompiledRuns(b, sc, env, w, fuel);
    RunLinks(p, At(0, Fresh(w)), steps);
    c := LinkConfig(c0, p.labels);
  }

  // ----- both directions -----

  lemma {:induction false} HaltedStays(p: Program, c: Config, n: nat)
    requires !c.At?
    ensures Run(p, c, n) == c
    decreases n
  {
    if n > 0 { HaltedStays(p, c, n - 1); }
  }

  /** A machine that is halted after `a` steps is in the same final state after any more. */
  lemma SameEnd(p: Program, c: Config, a: nat, b: nat)
    requires !Run(p, c, a).At? && a <= b
    ensures Run(p, c, b) == Run(p, c, a)
  {
    RunAdd(p, c, a, b - a);
    HaltedStays(p, Run(p, c, a), b - a);
  }

  /** The machine gives the result `r` and the world `w1`. */
  ghost predicate Gives(p: Program, w: World, r: Final, w1: World) {
    exists n: nat :: EndsAs(Run(p, At(0, Fresh(w)), n), r, w1)
  }

  /** Returned with an empty operand stack, no open handler, and as many iterator frames left
      behind as the `return` left `for` loops; or thrown with no handler open. */
  predicate EndsAs(c: Config, r: Final, w1: World) {
    match r
    case Gave(v, fors) => c.Returns? && c.v == v && c.left.w == w1 && c.left.stack == [] && c.left.tries == [] && |c.left.iters| == fors
    case Raised(e) => c.Uncaught? && c.exc == e && c.left.w == w1 && c.left.tries == []
    case _ => false
  }

  ghost predicate Means(b: Block, t: Setting, w: World, r: Final, w1: World) {
    exists fuel: nat :: ExecBody(b, t, w, fuel) == (r, w1)
  }

  ghost predicate RunsForever(p: Program, w: World) {
    forall n: nat :: Run(p, At(0, Fresh(w)), n).At?
  }

  ghost predicate NeverEnds(b: Block, t: Setting, w: World) {
    forall fuel: nat :: ExecBody(b, t, w, fuel).0 == Running
  }

  /** Compiler correctness: for every body the generator accepts and every world, the linked
      code ends with a result exactly when the body does, with the same value or exception and
      the same events and variables; and it runs forever exactly when the body does. */
  lemma CompilerCorrect(b: Block, sc: Scope, env: Env, w: World)
    requires BlockCompiles(b, []) && CallsTidy(env)
    ensures Linkable(Compile(b, sc, env))
    ensures forall r: Final, w1: World :: (r.Gave? || r.Raised?) ==>
              (Gives(Linking(Compile(b, sc, env)), w, r, w1) <==> Means(b, Setting(CODE, sc, env), w, r, w1))
    ensures RunsForever(Linking(Compile(b, sc, env)), w) <==> NeverEnds(b, Setting(CODE, sc, env), w)
  {
    hide ExecBody, Compile, BlockCompiles, Linking, CallsTidy;
    LinkingSucceeds(b, sc, env);
    var p, t := Linking(Compile(b, sc, env)), Setting(CODE, sc, env);
    forall r: Final, w1: World | r.Gave? || r.Raised? ensures Gives(p, w, r, w1) <==> Means(b, t, w, r, w1) {
      if Means(b, t, w, r, w1) {
        var fuel: nat :| ExecBody(b, t, w, fuel) == (r, w1);
        var steps, c := LinkedRuns(b, sc, env, w, fuel);
        assert EndsAs(Run(p, At(0, Fresh(w)), steps), r, w1);
      }
      if Gives(p, w, r, w1) {
        var n: nat :| EndsAs(Run(p, At(0, Fresh(w)), n), r, w1);
        MachineExplained(b, sc, env, w, n);
        assert ExecBody(b, t, w, n + 1) == (r, w1);
      }
    }
    if RunsForever(p, w) {
      forall fuel: nat ensures ExecBody(b, t, w, fuel).0 == Running {
        var steps, c := LinkedRuns(b, sc, env, w, fuel);
        assert Run(p, At(0, Fresh(w)), steps).At?;
      }
    }
    if NeverEnds(b, t, w) {
      forall n: nat ensures Run(p, At(0, Fresh(w)), n).At? {
        assert ExecBody(b, t, w, n + 1).0 == Running;
        StillRunning(b, sc, env, w, n);
      }
    }
  }

  /** Whenever the machine has halted after `n` steps, the body ends with fuel `n + 1`, and as
      the machine says; in particular it never gets stuck. */
  lemma MachineExplained(b: Block, sc: Scope, env: Env, w: World, n: nat)
    requires BlockCompiles(b, []) && CallsTidy(env) && Linkable(Compile(b, sc, env))
    requires !Run(Linking(Compile(b, sc, env)), At(0, Fresh(w)), n).At?
    ensures var r := ExecBody(b, Setting(CODE, sc, env), w, n + 1);
            EndsAs(Run(Linking(Compile(b, sc, env)), At(0, Fresh(w)), n), r.0, r.1)
  {
    hide ExecBody, Compile, BlockCompiles, Linking;
    var p := Linking(Compile(b, sc, env));
    var start := At(0, Fresh(w));
    var steps, c := LinkedRuns(b, sc, env, w, n + 1);
    if n <= steps { SameEnd(p, start, n, steps); } else { SameEnd(p, start, steps, n); }
  }

  lemma StillRunning(b: Block, sc: Scope, env: Env, w: World, n: nat)
    requires BlockCompiles(b, []) && CallsTidy(env) && Linkable(Compile(b, sc, env))
    requires ExecBody(b, Setting(CODE, sc, env), w, n + 1).0 == Running
    ensures Run(Linking(Compile(b, sc, env)), At(0, Fresh(w)), n).At?
  {
    hide ExecBody, Compile, BlockCompiles, Linking;
    var steps, c := LinkedRuns(b, sc, env, w, n + 1);
    if !Run(Linking(Compile(b, sc, env)), At(0, Fresh(w)), n).At? {
      SameEnd(Linking(Compile(b, sc, env)), At(0, Fresh(w)), n, steps);
    }
  }
}
