/** The code of every statement does what the statement means. */
module StatementSimulation {
  import opened Wrappers
  import opened Syntax
  import opened Semantics
  import opened Machine
  import opened Codegen
  import opened Simulation
  import opened ExprSimulation
  import opened Exits
  import opened Layouts
  import opened Steps
  import opened CleanupFacts
  import opened PatternSimulation
  import opened Regions

  function Compiled(cx: Ctx): Setting {
    Setting(CODE, cx.sc, cx.env)
  }

  // ----- statements without parts -----

  lemma SimSimple(p: Program, s: Stmt, keep: bool, cx: Ctx, n: nat, pc: nat, m: State, fuel: nat) returns (t: Wit)
    requires Sound(p, cx) && m.exc == None && (s.Eval? || s.Let? || s.Assign? || s.Throw?) && (keep ==> s.Eval?)
    requires Here(p, pc, GenStmt(s, keep, cx, n).code)
    ensures Ends(p, At(pc, m), m, pc + |GenStmt(s, keep, cx, n).code|, keep, cx, n, fuel, ExecStmt(s, Compiled(cx), m.w, fuel), t)
  {
    hide Here, Reaches, TempsKept, GenExpr, EvalExpr;
    var ee := GenExpr(s.e, cx, n);
    var tail: Code := match s
      case Eval(_) => if keep then [] else [Pop]
      case Let(x, _) => [BindFast(x)]
      case Assign(x, _) => [StoreFast(Local(x))]
      case Throw(_) => [Raise];
    var end := pc + |ee.code| + |tail|;
    Split(p, pc, ee.code, tail);
    var steps, m1 := SimExpr(p, s.e, cx, n, pc, m);
    var r := EvalExpr(s.e, cx.sc, cx.env, m.w);
    if r.0.Fail? {
      t := Failing(p, pc, m, pc + |ee.code|, end, keep, cx, n, n, fuel, r, steps, m1);
    } else {
      t := SimConsumer(p, s, keep, cx, n, pc, m, fuel, steps, pc + |ee.code|, m1, r.0.value);
    }
  }

  /** The one instruction after the expression. */
  lemma SimConsumer(p: Program, s: Stmt, keep: bool, cx: Ctx, n: nat, pc: nat, m: State, fuel: nat,
                    a: nat, pc1: nat, m1: State, v: Value) returns (t: Wit)
    requires cx.env == p.env && (s.Eval? || s.Let? || s.Assign? || s.Throw?) && (keep ==> s.Eval?)
    requires Pushed(p, At(pc, m), m, a, pc1, m1, v, n)
    requires s.Eval? && !keep ==> Here(p, pc1, [Pop])
    requires s.Let? ==> Here(p, pc1, [BindFast(s.x)])
    requires s.Assign? ==> Here(p, pc1, [StoreFast(Local(s.x))])
    requires s.Throw? ==> Here(p, pc1, [Raise])
    ensures var r: Result := match s
              case Eval(_) => (Normal(v), m1.w)
              case Throw(_) => (Threw(Raisable(cx.env, v)), m1.w)
              case _ => (Normal(Unit), m1.w.Set(s.x, v));
            Ends(p, At(pc, m), m, pc1 + if keep then 0 else 1, keep, cx, n, fuel, r, t)
  {
    if s.Eval? {
      if keep {
        t := Plainly(a, pc1, m1, cx);
      } else {
        var m2 := DoPop(p, At(pc, m), m, a, pc1, m1, v, n);
        t := Plainly(a + 1, pc1 + 1, m2, cx);
      }
    } else if s.Throw? {
      t := DoRaise(p, At(pc, m), m, a, pc1, m1, v, n, pc1 + 1, keep, cx, fuel);
    } else {
      var m2 := DoBind(p, At(pc, m), m, a, pc1, m1, v, n, s.x);
      t := Plainly(a + 1, pc1 + 1, m2, cx);
    }
  }

  /** The code of an exit, also said without the value it carries. */
  lemma ExitIs(o: Outcome, cx: Ctx, n: nat)
    requires IsExit(o)
    ensures GenExit(o, cx, n).code == ExitCode(o, cx, cx, n, [])
    ensures o.Returned? ==> ExitCode(o, cx, cx, n, []) == GenExit(Returned(Unit, 0), cx, n).code
  {
    assert GenExit(o, cx, n).code == ExitCode(o, cx, cx, n, []);
    if o.Returned? {
      assert GenExit(Returned(Unit, 0), cx, n).code == ExitCode(Returned(Unit, 0), cx, cx, n, []);
    }
  }

  lemma SimJump(p: Program, s: Stmt, cx: Ctx, n: nat, pc: nat, m: State, fuel: nat) returns (t: Wit)
    requires Sound(p, cx) && m.exc == None && (s.Break? || s.Continue?) && Compiles(s, Names(cx.loops))
    requires Here(p, pc, GenStmt(s, false, cx, n).code)
    ensures Ends(p, At(pc, m), m, pc + |GenStmt(s, false, cx, n).code|, false, cx, n, fuel, ExecStmt(s, Compiled(cx), m.w, fuel), t)
  {
    Resolve(cx.loops, s.lbl);
    Stay(p, At(pc, m));
    t := ExitNow(p, if s.Break? then Broke(s.lbl) else Continued(s.lbl), cx, n, n, pc, m, 0, pc, m,
                 pc + |GenStmt(s, false, cx, n).code|, fuel);
  }

  /** Control is at the code of an exit. */
  lemma ExitNow(p: Program, o: Outcome, cx: Ctx, n: nat, n1: nat, pc: nat, m: State, a: nat, pc1: nat, m1: State, end: nat, fuel: nat)
    returns (t: Wit)
    requires IsExit(o) && Resolved(o, cx) && DepthsOk(cx) && n <= n1
    requires Reaches(p, At(pc, m), a, At(pc1, m1)) && Undisturbed(m, m1, n) && m1.exc == None && m1.iters == m.iters
    requires m1.stack == m.stack + (if o.Returned? then [o.v] else [])
    requires (o.Returned? || o.ReturnedVar?) ==> o.fors == 0
    requires Here(p, pc1, GenExit(if o.Returned? then Returned(Unit, 0) else o, cx, n1).code)
    ensures Ends(p, At(pc, m), m, end, false, cx, n, fuel, (o, m1.w), t)
  {
    ExitIs(o, cx, n1);
    t := Plainly(a, pc1, m1, cx).(ne := n1);
  }

  lemma SimReturn(p: Program, s: Stmt, cx: Ctx, n: nat, pc: nat, m: State, fuel: nat) returns (t: Wit)
    requires Sound(p, cx) && m.exc == None && s.Return?
    requires Here(p, pc, GenStmt(s, false, cx, n).code)
    ensures Ends(p, At(pc, m), m, pc + |GenStmt(s, false, cx, n).code|, false, cx, n, fuel, ExecStmt(s, Compiled(cx), m.w, fuel), t)
  {
    var end := pc + |GenStmt(s, false, cx, n).code|;
    if s.result.None? {
      Split(p, pc, [Push(Unit)], GenExit(Returned(Unit, 0), cx, n).code);
      Stay(p, At(pc, m));
      DoPush(p, At(pc, m), 0, pc, m, Unit);
      t := ExitNow(p, Returned(Unit, 0), cx, n, n, pc, m, 1, pc + 1, m.PushV(Unit), end, fuel);
    } else if s.result.value.Var? && s.result.value.x in cx.sc.locals {
      Stay(p, At(pc, m));
      t := ExitNow(p, ReturnedVar(s.result.value.x, 0), cx, n, n, pc, m, 0, pc, m, end, fuel);
    } else {
      t := SimReturnValue(p, s.result.value, cx, n, pc, m, end, fuel);
    }
  }

  lemma SimReturnValue(p: Program, e: Expr, cx: Ctx, n: nat, pc: nat, m: State, end: nat, fuel: nat) returns (t: Wit)
    requires Sound(p, cx) && m.exc == None
    requires Here(p, pc, GenExpr(e, cx, n).code + GenExit(Returned(Unit, 0), cx, GenExpr(e, cx, n).next).code)
    ensures var (r, w) := EvalExpr(e, cx.sc, cx.env, m.w);
            Ends(p, At(pc, m), m, end, false, cx, n, fuel, (if r.Fail? then Threw(r.exc) else Returned(r.value, 0), w), t)
  {
    var ee := GenExpr(e, cx, n);
    Split(p, pc, ee.code, GenExit(Returned(Unit, 0), cx, ee.next).code);
    var steps, m1 := SimExpr(p, e, cx, n, pc, m);
    var r := EvalExpr(e, cx.sc, cx.env, m.w);
    if r.0.Fail? {
      t := Failing(p, pc, m, pc + |ee.code|, end, false, cx, n, n, fuel, r, steps, m1);
    } else {
      t := ExitNow(p, Returned(r.0.value, 0), cx, n, ee.next, pc, m, steps, pc + |ee.code|, m1, end, fuel);
    }
  }

  // ----- the whole recursion -----

  lemma SimStmt(p: Program, s: Stmt, keep: bool, cx: Ctx, n: nat, pc: nat, m: State, fuel: nat) returns (t: Wit)
    requires Sound(p, cx) && m.exc == None && !s.Defer? && Compiles(s, Names(cx.loops)) && (keep ==> Yields(s))
    requires Here(p, pc, GenStmt(s, keep, cx, n).code)
    ensures Ends(p, At(pc, m), m, pc + |GenStmt(s, keep, cx, n).code|, keep, cx, n, fuel, ExecStmt(s, Compiled(cx), m.w, fuel), t)
    decreases fuel, s, 5
  {
    hide Here, GenWith, GenArms, Ends, GenTry;
    match s
    case If(_, _) => t := SimIf(p, s, keep, cx, n, pc, m, fuel);
    case While(_, _, _) => t := SimWhile(p, s, cx, n, pc, m, fuel);
    case Loop(_, count, _) =>
      if count.Some? { t := SimCountedLoop(p, s, cx, n, pc, m, fuel); } else { t := SimLoop(p, s, cx, n, pc, m, fuel); }
    case For(_, _, _, _, _) => t := SimFor(p, s, cx, n, pc, m, fuel);
    case Try(_, _, _) => t := SimTry(p, s, keep, cx, n, pc, m, fuel);
    case With(_, _, _) => t := SimWith(p, s, keep, cx, n, pc, m, fuel);
    case Match(_, _, _) => t := SimMatch(p, s, keep, cx, n, pc, m, fuel);
    case Break(_) => t := SimJump(p, s, cx, n, pc, m, fuel);
    case Continue(_) => t := SimJump(p, s, cx, n, pc, m, fuel);
    case Return(_) => t := SimReturn(p, s, cx, n, pc, m, fuel);
    case _ => t := SimSimple(p, s, keep, cx, n, pc, m, fuel);
  }

  // ----- if -----

  /** Nothing has happened but the passage of control to `end`. */
  ghost predicate Skips(p: Program, c: Config, m: State, end: nat, n: nat, w: World, t: Wit) {
    && Reaches(p, c, t.steps, At(end, t.m)) && Undisturbed(m, t.m, n)
    && t.m.w == w && t.m.exc == None && t.m.stack == m.stack && t.m.iters == m.iters
  }

  lemma SimArms(p: Program, arms: Arms, keep: bool, cx: Ctx, endLbl: nat, nextLbl: nat, n: nat, pc: nat, m: State, fuel: nat, at: nat)
    returns (t: Wit)
    requires Sound(p, cx) && m.exc == None && ArmsCompile(arms, Names(cx.loops))
    requires Here(p, pc, GenArms(arms, keep, cx, endLbl, nextLbl, n).code) && Here(p, at, [Mark(endLbl)])
    ensures var (r, w) := ExecArms(arms, Compiled(cx), m.w, fuel);
            if r.Some? then Ends(p, At(pc, m), m, at + 1, keep, cx, n, fuel, (r.value, w), t)
            else Skips(p, At(pc, m), m, pc + |GenArms(arms, keep, cx, endLbl, nextLbl, n).code|, n, w, t)
    decreases fuel, arms, 2
  {
    hide GenBlock, ExecBlock, GenExpr, EvalExpr, Here, Reaches;
    LayArm(p, arms, keep, cx, endLbl, nextLbl, n, pc);
    var ec := GenExpr(arms.cond, cx, n);
    var eb := GenBlock(arms.body, keep, cx, ec.next);
    var pc1 := pc + |ec.code|;
    var pc2 := pc1 + 1 + |eb.code|;
    var steps, m1 := SimTest(p, arms.cond, cx, n, n, pc, m, nextLbl, pc2 + 1);
    var r := EvalExpr(arms.cond, cx.sc, cx.env, m.w).0;
    if r.Fail? {
      t := Plainly(steps, pc1, m1, cx);
    } else if Truthy(cx.env, r.value) {
      t := SimArmBody(p, arms, keep, cx, endLbl, n, ec.next, pc, m, fuel, at, steps, pc1 + 1, m1);
    } else if arms.LastArm? {
      t := Plainly(steps, pc2 + 2, m1, cx);
    } else {
      t := SimNextArms(p, arms, keep, cx, endLbl, n, eb.next, pc, m, fuel, at, steps, pc2 + 2, m1);
    }
  }

  lemma SimNextArms(p: Program, arms: Arms, keep: bool, cx: Ctx, endLbl: nat, n: nat, k: nat, pc: nat, m: State, fuel: nat, at: nat,
                    a: nat, pc1: nat, m1: State) returns (t: Wit)
    requires Sound(p, cx) && m1.exc == None && arms.Arm? && ArmsCompile(arms, Names(cx.loops)) && n <= k
    requires Reaches(p, At(pc, m), a, At(pc1, m1)) && Undisturbed(m, m1, n) && m1.stack == m.stack && m1.iters == m.iters
    requires Here(p, pc1, GenArms(arms.rest, keep, cx, endLbl, k, k + 1).code) && Here(p, at, [Mark(endLbl)])
    ensures var (r, w) := ExecArms(arms.rest, Compiled(cx), m1.w, fuel);
            if r.Some? then Ends(p, At(pc, m), m, at + 1, keep, cx, n, fuel, (r.value, w), t)
            else Skips(p, At(pc, m), m, pc1 + |GenArms(arms.rest, keep, cx, endLbl, k, k + 1).code|, n, w, t)
    decreases fuel, arms, 1
  {
    t := SimArms(p, arms.rest, keep, cx, endLbl, k, k + 1, pc1, m1, fuel, at);
    t := AfterSkip(p, pc, m, a, pc1, m1, keep, cx, n, k + 1, fuel, at, ExecArms(arms.rest, Compiled(cx), m1.w, fuel),
                   |GenArms(arms.rest, keep, cx, endLbl, k, k + 1).code|, t);
  }

  lemma SimArmBody(p: Program, arms: Arms, keep: bool, cx: Ctx, endLbl: nat, n: nat, n1: nat, pc: nat, m: State, fuel: nat, at: nat,
                   a: nat, pc1: nat, m1: State) returns (t: Wit)
    requires Sound(p, cx) && m1.exc == None && ArmsCompile(arms, Names(cx.loops)) && n <= n1
    requires Reaches(p, At(pc, m), a, At(pc1, m1)) && Undisturbed(m, m1, n) && m1.stack == m.stack && m1.iters == m.iters
    requires Here(p, pc1, GenBlock(arms.body, keep, cx, n1).code)
    requires Here(p, pc1 + |GenBlock(arms.body, keep, cx, n1).code|, [Goto(endLbl)]) && Here(p, at, [Mark(endLbl)])
    ensures Ends(p, At(pc, m), m, at + 1, keep, cx, n, fuel, ExecBlock(arms.body, Compiled(cx), m1.w, fuel), t)
    decreases fuel, arms, 1
  {
    var end1 := pc1 + |GenBlock(arms.body, keep, cx, n1).code|;
    PassGoto(p, end1, endLbl, at);
    t := SimBlock(p, arms.body, keep, cx, n1, pc1, m1, fuel);
    t := Settle(p, At(pc, m), m, a, At(pc1, m1), m1, end1, 2, at + 1, keep, cx, n, n1, fuel, fuel,
                ExecBlock(arms.body, Compiled(cx), m1.w, fuel), t);
  }

  lemma AfterSkip(p: Program, pc: nat, m: State, a: nat, pc1: nat, m1: State, keep: bool, cx: Ctx, n: nat, n1: nat, fuel: nat, at: nat,
                  r: (Option<Outcome>, World), len: nat, t: Wit) returns (t': Wit)
    requires Reaches(p, At(pc, m), a, At(pc1, m1)) && Undisturbed(m, m1, n) && n <= n1 && m1.stack == m.stack && m1.iters == m.iters
    requires if r.0.Some? then Ends(p, At(pc1, m1), m1, at + 1, keep, cx, n1, fuel, (r.0.value, r.1), t)
             else Skips(p, At(pc1, m1), m1, pc1 + len, n1, r.1, t)
    ensures if r.0.Some? then Ends(p, At(pc, m), m, at + 1, keep, cx, n, fuel, (r.0.value, r.1), t')
            else Skips(p, At(pc, m), m, pc1 + len, n, r.1, t')
  {
    if r.0.Some? {
      Nowhere(p, at + 1);
      t' := Settle(p, At(pc, m), m, a, At(pc1, m1), m1, at + 1, 0, at + 1, keep, cx, n, n1, fuel, fuel, (r.0.value, r.1), t);
    } else {
      Chain(p, At(pc, m), a, At(pc1, m1), t.steps, At(pc1 + len, t.m));
      t' := t.(steps := a + t.steps);
    }
  }

  lemma Nowhere(p: Program, pc: nat)
    ensures Moves(p, pc, 0, pc)
  {
    forall s: State ensures Reaches(p, At(pc, s), 0, At(pc, s)) { Stay(p, At(pc, s)); }
  }

  lemma SimElse(p: Program, els: Option<Block>, keep: bool, cx: Ctx, n: nat, pc: nat, m: State, fuel: nat) returns (t: Wit)
    requires Sound(p, cx) && m.exc == None && (els.Some? ==> BlockCompiles(els.value, Names(cx.loops)))
    requires Here(p, pc, GenElse(els, keep, keep, cx, n).code)
    ensures Ends(p, At(pc, m), m, pc + |GenElse(els, keep, keep, cx, n).code|, keep, cx, n, fuel, ExecElse(els, Compiled(cx), m.w, fuel), t)
    decreases fuel, els, 1
  {
    if els.Some? {
      t := SimBlock(p, els.value, keep, cx, n, pc, m, fuel);
    } else {
      Stay(p, At(pc, m));
      if keep {
        DoPush(p, At(pc, m), 0, pc, m, Unit);
        t := Plainly(1, pc + 1, m.PushV(Unit), cx);
      } else {
        t := Plainly(0, pc, m, cx);
      }
    }
  }

  /** The `else` block after `a` steps, and the mark that ends the statement. */
  lemma ElseThen(p: Program, els: Option<Block>, keep: bool, cx: Ctx, n: nat, n1: nat, pc: nat, m: State, fuel: nat,
                 a: nat, pc1: nat, m1: State, lbl: nat) returns (t: Wit)
    requires Sound(p, cx) && m1.exc == None && (els.Some? ==> BlockCompiles(els.value, Names(cx.loops))) && n <= n1
    requires Reaches(p, At(pc, m), a, At(pc1, m1)) && Undisturbed(m, m1, n) && m1.stack == m.stack && m1.iters == m.iters
    requires Here(p, pc1, GenElse(els, keep, keep, cx, n1).code)
    requires Here(p, pc1 + |GenElse(els, keep, keep, cx, n1).code|, [Mark(lbl)])
    ensures Ends(p, At(pc, m), m, pc1 + |GenElse(els, keep, keep, cx, n1).code| + 1, keep, cx, n, fuel,
                 ExecElse(els, Compiled(cx), m1.w, fuel), t)
    decreases fuel, els, 2
  {
    var end1 := pc1 + |GenElse(els, keep, keep, cx, n1).code|;
    PassMark(p, end1, lbl);
    t := SimElse(p, els, keep, cx, n1, pc1, m1, fuel);
    t := Settle(p, At(pc, m), m, a, At(pc1, m1), m1, end1, 1, end1 + 1, keep, cx, n, n1, fuel, fuel,
                ExecElse(els, Compiled(cx), m1.w, fuel), t);
  }

  lemma SimIf(p: Program, s: Stmt, keep: bool, cx: Ctx, n: nat, pc: nat, m: State, fuel: nat) returns (t: Wit)
    requires Sound(p, cx) && m.exc == None && s.If? && Compiles(s, Names(cx.loops))
    requires Here(p, pc, GenStmt(s, keep, cx, n).code)
    ensures Ends(p, At(pc, m), m, pc + |GenStmt(s, keep, cx, n).code|, keep, cx, n, fuel, ExecStmt(s, Compiled(cx), m.w, fuel), t)
    decreases fuel, s, 4
  {
    hide GenExpr, ExecMatch, GenElse, ExecCounted, GenArms, Names, GenBlock, ExecArms, Run, GenCleanups, EvalExpr,
         ExecBlock, BlockExits, Here, ExecTry, EvalExprs, ExecWith, BlockCompiles, ExecFor, GenClauses, GenStmt,
         Sound, HasExit;
    LayIf(p, s, keep, cx, n, pc);
    var ea := GenArms(s.arms, keep, cx, n, n + 1, n + 2);
    var ee := GenElse(s.els, keep, keep, cx, ea.next);
    t := SimArms(p, s.arms, keep, cx, n, n + 1, n + 2, pc, m, fuel, pc + |ea.code| + |ee.code|);
    var r := ExecArms(s.arms, Compiled(cx), m.w, fuel).0;
    if r.None? {
      t := ElseThen(p, s.els, keep, cx, n, ea.next, pc, m, fuel, t.steps, pc + |ea.code|, t.m, n);
    }
  }

  // ----- loops -----

  /** The body of a loop without an iterator has run once. If it goes on, the head is reached
      again; otherwise the statement has ended. `b` steps lead from the end of the body to the
      head, and from the mark of the break label to the end of the statement. */
  lemma AfterBody(p: Program, c: Config, m: State, a: nat, pc1: nat, m1: State, end1: nat, b: nat, bb: nat, end: nat,
                  cx: Ctx, l: LoopInfo, n: nat, n1: nat, fuel: nat, r: Result, t: Wit)
    returns (t': Wit)
    requires Sound(p, cx) && !l.kind.Iterating? && l.depth == |cx.handlers| && fuel > 0 && a > 0 && n <= n1
    requires Reaches(p, c, a, At(pc1, m1)) && Undisturbed(m, m1, n) && m1.iters == m.iters
    requires m.stack <= m1.stack && |m1.stack| == |m.stack| + if l.kind.Counter? then 1 else 0
    requires Ends(p, At(pc1, m1), m1, end1, false, cx.Enter(l), n1, fuel - 1, r, t)
    requires Moves(p, end1, b, Target(p, l.cont)) && Moves(p, Target(p, l.brk), bb, end)
    ensures if Goes(r.0, l.lbl) then
              && Reaches(p, c, t'.steps, At(Target(p, l.cont), t'.m)) && t'.steps > 0 && Undisturbed(m, t'.m, n)
              && t'.m.w == r.1 && t'.m.exc == None && t'.m.stack == m1.stack && t'.m.iters == m.iters
            else Ends(p, c, m, end, false, cx, n, fuel, LoopEnd(r.0, l.lbl, r.1), t')
  {
    if Goes(r.0, l.lbl) {
      var steps, m2 := ToHead(p, pc1, m1, end1, b, cx, l, n1, fuel - 1, r, t);
      Chain(p, c, a, At(pc1, m1), steps, At(Target(p, l.cont), m2));
      t' := Plainly(a + steps, Target(p, l.cont), m2, cx);
    } else if r.0.Broke? && Hits(r.0.lbl, l.lbl) {
      var steps, m2 := ToBreak(p, pc1, m1, end1, cx, l, n1, fuel - 1, r, t);
      Chain(p, c, a, At(pc1, m1), steps, At(Target(p, l.brk), m2));
      Move(p, c, a + steps, Target(p, l.brk), m2, bb, end);
      assert m2.stack == m.stack;
      t' := Plainly(a + steps + bb, end, m2, cx);
    } else {
      t' := ThroughLoop(p, c, m, a, pc1, m1, end1, end, cx, l, n, n1, fuel, fuel - 1, r, t);
    }
  }

  /** From the end of a body back to the head, and past the mark of the end. */
  lemma LoopMarks(p: Program, head: nat, start: nat, tail: nat, endLbl: nat)
    requires Linked(p) && Here(p, head, [Mark(start)]) && Here(p, tail, [Goto(start), Mark(endLbl)])
    ensures Target(p, start) == head && Moves(p, tail, 1, head)
    ensures Target(p, endLbl) == tail + 1 && Moves(p, tail + 1, 1, tail + 2) && Here(p, tail + 1, [Mark(endLbl)])
  {
    Marked(p, head, [Mark(start)], 0);
    Marked(p, tail, [Goto(start), Mark(endLbl)], 1);
    Nth(p, tail, [Goto(start), Mark(endLbl)], 1);
    PassMark(p, tail + 1, endLbl);
    Fetch(p, tail, [Goto(start), Mark(endLbl)]);
    forall s: State ensures Reaches(p, At(tail, s), 1, At(head, s)) { One(p, At(tail, s)); }
  }

  lemma SimWhile(p: Program, s: Stmt, cx: Ctx, n: nat, pc: nat, m: State, fuel: nat) returns (t: Wit)
    requires Sound(p, cx) && m.exc == None && s.While? && Compiles(s, Names(cx.loops))
    requires Here(p, pc, GenStmt(s, false, cx, n).code)
    ensures Ends(p, At(pc, m), m, pc + |GenStmt(s, false, cx, n).code|, false, cx, n, fuel, ExecStmt(s, Compiled(cx), m.w, fuel), t)
    decreases fuel, s, 4
  {
    hide GenBlock, GenExpr, GenRange, GenStmt, ExecBlock, EvalExpr;
    LayWhile(p, s, cx, n, pc);
    var l := LoopOf(s.lbl, n + 1, n, cx, Plain);
    var ec := GenExpr(s.cond, cx, n + 2);
    var eb := GenBlock(s.body, false, cx.Enter(l), ec.next);
    var pc1 := pc + 1 + |ec.code|;
    var pc2 := pc1 + 1 + |eb.code|;
    LoopMarks(p, pc, n, pc2, n + 1);
    var steps, m1 := WhileTest(p, s.cond, cx, n, n + 2, pc, m, pc2 + 2);
    var r := EvalExpr(s.cond, cx.sc, cx.env, m.w).0;
    if r.Fail? || !Truthy(cx.env, r.value) {
      t := Plainly(steps, pc2 + 2, m1, cx);
    } else if fuel == 0 {
      t := Plainly(steps, pc1 + 1, m1, cx);
    } else {
      t := WhileBody(p, s, cx, n, pc, m, fuel, steps, pc1 + 1, m1, l, ec.next, pc2);
    }
  }

  /** Mark, condition, branch: into the body, past the end, or an error. */
  lemma WhileTest(p: Program, c: Expr, cx: Ctx, n: nat, n1: nat, pc: nat, m: State, end: nat)
    returns (steps: nat, m1: State)
    requires Ready(p, cx) && m.exc == None && n <= n1 && end > 0
    requires Here(p, pc, [Mark(n)]) && Here(p, pc + 1, GenExpr(c, cx, n1).code)
    requires Here(p, pc + 1 + |GenExpr(c, cx, n1).code|, [GotoIfNot(n + 1)]) && Here(p, end - 1, [Mark(n + 1)])
    ensures var r := EvalExpr(c, cx.sc, cx.env, m.w);
            && Undisturbed(m, m1, n) && m1.w == r.1 && steps > 0
            && (if r.0.Fail? then Thrown(p, At(pc, m), m, r.0.exc, steps, m1)
                else m1.stack == m.stack && m1.iters == m.iters && m1.exc == None
                     && Reaches(p, At(pc, m), steps, At(if Truthy(cx.env, r.0.value) then pc + 2 + |GenExpr(c, cx, n1).code| else end, m1)))
  {
    PassMark(p, pc, n);
    steps, m1 := SimTest(p, c, cx, n, n1, pc + 1, m, n + 1, end - 1);
    var r := EvalExpr(c, cx.sc, cx.env, m.w).0;
    Chain(p, At(pc, m), 1, At(pc + 1, m), steps,
          if r.Fail? then Dispatch(p, m1) else At(if Truthy(cx.env, r.value) then pc + 2 + |GenExpr(c, cx, n1).code| else end, m1));
    steps := 1 + steps;
  }

  lemma WhileBody(p: Program, s: Stmt, cx: Ctx, n: nat, pc: nat, m: State, fuel: nat, a: nat, pc1: nat, m1: State,
                  l: LoopInfo, n1: nat, pc2: nat) returns (t: Wit)
    requires Sound(p, cx) && m.exc == None && s.While? && Compiles(s, Names(cx.loops)) && fuel > 0 && a > 0
    requires Here(p, pc, GenStmt(s, false, cx, n).code) && pc + |GenStmt(s, false, cx, n).code| == pc2 + 2
    requires l == LoopOf(s.lbl, n + 1, n, cx, Plain) && n <= n1
    requires Reaches(p, At(pc, m), a, At(pc1, m1)) && Undisturbed(m, m1, n) && m1.exc == None && m1.stack == m.stack && m1.iters == m.iters
    requires Here(p, pc1, GenBlock(s.body, false, cx.Enter(l), n1).code) && pc1 + |GenBlock(s.body, false, cx.Enter(l), n1).code| == pc2
    requires Target(p, n) == pc && Moves(p, pc2, 1, pc) && Target(p, n + 1) == pc2 + 1 && Moves(p, pc2 + 1, 1, pc2 + 2)
    ensures var (o, w2) := ExecBlock(s.body, Compiled(cx), m1.w, fuel - 1);
            Ends(p, At(pc, m), m, pc2 + 2, false, cx, n, fuel,
                 if Goes(o, s.lbl) then ExecStmt(s, Compiled(cx), w2, fuel - 1) else LoopEnd(o, s.lbl, w2), t)
    decreases fuel, s, 3
  {
    NamesEnter(cx.loops, l);
    var r := ExecBlock(s.body, Compiled(cx), m1.w, fuel - 1);
    t := SimBlock(p, s.body, false, cx.Enter(l), n1, pc1, m1, fuel - 1);
    t := AfterBody(p, At(pc, m), m, a, pc1, m1, pc2, 1, 1, pc2 + 2, cx, l, n, n1, fuel, r, t);
    if Goes(r.0, s.lbl) {
      t := LoopAgain(p, s, cx, n, pc, m, fuel, t.steps, t.m);
    }
  }

  /** The head has been reached again: the rest is the same statement with less fuel. */
  lemma LoopAgain(p: Program, s: Stmt, cx: Ctx, n: nat, pc: nat, m: State, fuel: nat, a: nat, m1: State) returns (t: Wit)
    requires Sound(p, cx) && (s.While? || s.Loop?) && Compiles(s, Names(cx.loops)) && fuel > 0 && a > 0
    requires Here(p, pc, GenStmt(s, false, cx, n).code)
    requires Reaches(p, At(pc, m), a, At(pc, m1)) && Undisturbed(m, m1, n) && m1.exc == None && m1.stack == m.stack && m1.iters == m.iters
    ensures Ends(p, At(pc, m), m, pc + |GenStmt(s, false, cx, n).code|, false, cx, n, fuel, ExecStmt(s, Compiled(cx), m1.w, fuel - 1), t)
    decreases fuel, s, 1
  {
    var end := pc + |GenStmt(s, false, cx, n).code|;
    t := SimStmt(p, s, false, cx, n, pc, m1, fuel - 1);
    Nowhere(p, end);
    t := Settle(p, At(pc, m), m, a, At(pc, m1), m1, end, 0, end, false, cx, n, n, fuel, fuel - 1,
                ExecStmt(s, Compiled(cx), m1.w, fuel - 1), t);
  }

  lemma SimLoop(p: Program, s: Stmt, cx: Ctx, n: nat, pc: nat, m: State, fuel: nat) returns (t: Wit)
    requires Sound(p, cx) && m.exc == None && s.Loop? && s.count.None? && Compiles(s, Names(cx.loops))
    requires Here(p, pc, GenStmt(s, false, cx, n).code)
    ensures Ends(p, At(pc, m), m, pc + |GenStmt(s, false, cx, n).code|, false, cx, n, fuel, ExecStmt(s, Compiled(cx), m.w, fuel), t)
    decreases fuel, s, 4
  {
    hide GenStmt, Leaving, ExecBlock, GenExpr, GenWith, GenMatch, Hits, LoopEnd, Names, BlockYields, HasExit, Here,
         BlockCompiles, CasesCompile, CatchesCompile, GenBlock, GenElse, ExecTry, EvalExpr, Truthy, GenCountdown,
         Thrown, ExecArms, BlockExits, GenClauses, Resume, Reaches, Yields, Store, ExecElse, Goes, GenTry, EvalExprs;
    LayLoop(p, s, cx, n, pc);
    var l := LoopOf(s.lbl, n + 1, n, cx, Plain);
    var eb := GenBlock(s.body, false, cx.Enter(l), n + 2);
    var pc2 := pc + 1 + |eb.code|;
    LoopMarks(p, pc, n, pc2, n + 1);
    PassMark(p, pc, n);
    if fuel == 0 {
      Stay(p, At(pc, m));
      t := Plainly(0, pc, m, cx);
    } else {
      NamesEnter(cx.loops, l);
      var r := ExecBlock(s.body, Compiled(cx), m.w, fuel - 1);
      t := SimBlock(p, s.body, false, cx.Enter(l), n + 2, pc + 1, m, fuel - 1);
      t := AfterBody(p, At(pc, m), m, 1, pc + 1, m, pc2, 1, 1, pc2 + 2, cx, l, n, n + 2, fuel, r, t);
      if Goes(r.0, s.lbl) {
        t := LoopAgain(p, s, cx, n, pc, m, fuel, t.steps, t.m);
      }
    }
  }

  lemma SimCountedLoop(p: Program, s: Stmt, cx: Ctx, n: nat, pc: nat, m: State, fuel: nat) returns (t: Wit)
    requires Sound(p, cx) && m.exc == None && s.Loop? && s.count.Some? && Compiles(s, Names(cx.loops))
    requires Here(p, pc, GenStmt(s, false, cx, n).code)
    ensures Ends(p, At(pc, m), m, pc + |GenStmt(s, false, cx, n).code|, false, cx, n, fuel, ExecStmt(s, Compiled(cx), m.w, fuel), t)
    decreases fuel, s, 4
  {
    hide GenCountdown, Ends;
    var ec := GenExpr(s.count.value, cx, n + 2);
    var el := GenCountdown(s.lbl, s.body, cx, n, n + 1, ec.next);
    Split(p, pc, ec.code, el.code);
    var pc1 := pc + |ec.code|;
    var steps, m1 := SimExpr(p, s.count.value, cx, n + 2, pc, m);
    var r := EvalExpr(s.count.value, cx.sc, cx.env, m.w);
    if r.0.Fail? {
      t := Failing(p, pc, m, pc1, pc1 + |el.code|, false, cx, n, n + 2, fuel, r, steps, m1);
    } else {
      t := SimCountdown(p, s.lbl, s.body, cx, n, n + 1, n, ec.next, m, pc1, m1, r.0.value, fuel);
      t := Before(p, At(pc, m), m, steps, At(pc1, m1), pc1 + |el.code|, false, cx, n, fuel, fuel,
                  ExecCounted(r.0.value, s.lbl, s.body, Compiled(cx), m1.w, fuel), t);
    }
  }

  /** At the head of a counted loop, with the counter on the stack. */
  lemma SimCountdown(p: Program, lbl: Label, body: Block, cx: Ctx, start: nat, endLbl: nat, n: nat, k: nat, m: State,
                     pc: nat, m1: State, v: Value, fuel: nat) returns (t: Wit)
    requires Sound(p, cx) && BlockCompiles(body, Names(cx.loops) + [lbl]) && n <= k
    requires Undisturbed(m, m1, n) && m1.exc == None && m1.stack == m.stack + [v] && m1.iters == m.iters
    requires Here(p, pc, GenCountdown(lbl, body, cx, start, endLbl, k).code)
    ensures Ends(p, At(pc, m1), m, pc + |GenCountdown(lbl, body, cx, start, endLbl, k).code|, false, cx, n, fuel,
                 ExecCounted(v, lbl, body, Compiled(cx), m1.w, fuel), t)
    decreases fuel, body, 4
  {
    hide GenBlock, GenRange, ExecBlock, Here;
    LayCountdown(p, lbl, body, cx, start, endLbl, k, pc);
    var l := LoopOf(lbl, endLbl, start, cx, Counter);
    var eb := GenBlock(body, false, cx.Enter(l), k + 1);
    var pc2 := pc + 2 + |eb.code|;
    CountdownMarks(p, pc, start, k, pc2, endLbl);
    Stay(p, At(pc, m1));
    if !v.Num? {
      t := DoBadCount(p, At(pc, m1), m, 0, pc, m1, start, k, v, n, pc2 + 3, cx, fuel);
    } else {
      var steps, m2 := DoCountdown(p, At(pc, m1), 0, pc, m1, start, k, pc2 + 1, m.stack, v);
      if v.r <= 0.0 {
        Move(p, At(pc, m1), steps, pc2 + 2, m2, 1, pc2 + 3);
        t := Plainly(steps + 1, pc2 + 3, m2, cx);
      } else if fuel == 0 {
        t := Plainly(steps, pc + 2, m2, cx);
      } else {
        t := CountdownBody(p, lbl, body, cx, start, endLbl, n, k, m, steps, pc, m1, m2, Num(v.r - 1.0), fuel, l, pc2);
      }
    }
  }

  lemma CountdownMarks(p: Program, pc: nat, start: nat, done: nat, pc2: nat, endLbl: nat)
    requires Linked(p) && Here(p, pc, [Mark(start), LoopCountdown(done)])
    requires Here(p, pc2, [Goto(start), Mark(done), Mark(endLbl)])
    ensures Target(p, start) == pc && Moves(p, pc2, 1, pc) && Here(p, pc2 + 1, [Mark(done)])
    ensures Target(p, endLbl) == pc2 + 2 && Moves(p, pc2 + 2, 1, pc2 + 3)
  {
    var tail := [Goto(start), Mark(done), Mark(endLbl)];
    Marked(p, pc, [Mark(start), LoopCountdown(done)], 0);
    Marked(p, pc2, tail, 2);
    Nth(p, pc2, tail, 1);
    Nth(p, pc2, tail, 2);
    PassMark(p, pc2 + 2, endLbl);
    Fetch(p, pc2, tail);
    forall s: State ensures Reaches(p, At(pc2, s), 1, At(pc, s)) { One(p, At(pc2, s)); }
  }

  lemma CountdownBody(p: Program, lbl: Label, body: Block, cx: Ctx, start: nat, endLbl: nat, n: nat, k: nat, m: State,
                      a: nat, pc: nat, m1: State, m2: State, v: Value, fuel: nat, l: LoopInfo, pc2: nat) returns (t: Wit)
    requires Sound(p, cx) && BlockCompiles(body, Names(cx.loops) + [lbl]) && n <= k && fuel > 0 && a > 0
    requires l == LoopOf(lbl, endLbl, start, cx, Counter)
    requires Reaches(p, At(pc, m1), a, At(pc + 2, m2)) && Undisturbed(m, m2, n) && m2.exc == None
    requires m2.stack == m.stack + [v] && m2.iters == m.iters
    requires Here(p, pc, GenCountdown(lbl, body, cx, start, endLbl, k).code)
    requires Here(p, pc + 2, GenBlock(body, false, cx.Enter(l), k + 1).code) && pc2 == pc + 2 + |GenBlock(body, false, cx.Enter(l), k + 1).code|
    requires pc2 + 3 == pc + |GenCountdown(lbl, body, cx, start, endLbl, k).code|
    requires Target(p, start) == pc && Moves(p, pc2, 1, pc) && Target(p, endLbl) == pc2 + 2 && Moves(p, pc2 + 2, 1, pc2 + 3)
    ensures var (o, w) := ExecBlock(body, Compiled(cx), m2.w, fuel - 1);
            Ends(p, At(pc, m1), m, pc2 + 3, false, cx, n, fuel,
                 if Goes(o, lbl) then ExecCounted(v, lbl, body, Compiled(cx), w, fuel - 1) else LoopEnd(o, lbl, w), t)
    decreases fuel, body, 3
  {
    hide ExecBlock, GenBlock, GenRange, Ends;
    NamesEnter(cx.loops, l);
    var r := ExecBlock(body, Compiled(cx), m2.w, fuel - 1);
    t := SimBlock(p, body, false, cx.Enter(l), k + 1, pc + 2, m2, fuel - 1);
    t := AfterBody(p, At(pc, m1), m, a, pc + 2, m2, pc2, 1, 1, pc2 + 3, cx, l, n, k + 1, fuel, r, t);
    if Goes(r.0, lbl) {
      var t1 := t;
      t := SimCountdown(p, lbl, body, cx, start, endLbl, n, k, m, pc, t1.m, v, fuel - 1);
      t := Before(p, At(pc, m1), m, t1.steps, At(pc, t1.m), pc2 + 3, false, cx, n, fuel, fuel - 1,
                  ExecCounted(v, lbl, body, Compiled(cx), r.1, fuel - 1), t);
    }
  }

  lemma SimFor(p: Program, s: Stmt, cx: Ctx, n: nat, pc: nat, m: State, fuel: nat) returns (t: Wit)
    requires Sound(p, cx) && m.exc == None && s.For? && Compiles(s, Names(cx.loops))
    requires Here(p, pc, GenStmt(s, false, cx, n).code)
    ensures Ends(p, At(pc, m), m, pc + |GenStmt(s, false, cx, n).code|, false, cx, n, fuel, ExecStmt(s, Compiled(cx), m.w, fuel), t)
    decreases fuel, s, 4
  {
    hide GenBlock, ExecBlock, ExecFor, GenIteration, GenExpr, EvalExpr, Reaches, Here, BlockExits, GenStmt;
    LayFor(p, s, cx, n, pc);
    var ei := GenExpr(s.iterable, cx, n);
    var pc1 := pc + |ei.code|;
    var end := pc + |GenStmt(s, false, cx, n).code|;
    var steps, m1 := SimExpr(p, s.iterable, cx, n, pc, m);
    var r := EvalExpr(s.iterable, cx.sc, cx.env, m.w);
    if r.0.Fail? {
      t := Failing(p, pc, m, pc1, end, false, cx, n, n, fuel, r, steps, m1);
    } else {
      var m2 := DoIterNew(p, At(pc, m), m, steps, pc1, m1, r.0.value, n);
      var it := cx.env.iter(r.1.trace, r.0.value);
      if it.Fail? {
        t := Plainly(steps + 1, end, m2, cx);
      } else {
        t := SimForRest(p, s, cx, n, ei.next, pc, m, fuel, steps + 1, pc1 + 1, m2, it.value, end);
      }
    }
  }

  lemma SimForRest(p: Program, s: Stmt, cx: Ctx, n: nat, k: nat, pc: nat, m: State, fuel: nat, a: nat, pc1: nat, m1: State,
                   it: Value, end: nat) returns (t: Wit)
    requires Sound(p, cx) && s.For? && Compiles(s, Names(cx.loops)) && n <= k
    requires Reaches(p, At(pc, m), a, At(pc1, m1)) && Undisturbed(m, m1, n) && m1.exc == None
    requires m1.stack == m.stack && m1.iters == m.iters + [it]
    requires var el := GenIteration(s.lbl, s.binder, s.body, cx, k);
             var ee := GenElse(s.els, false, false, cx, el.next);
             && Here(p, pc1, el.code) && Here(p, pc1 + |el.code|, ee.code)
             && Here(p, pc1 + |el.code| + |ee.code|, [Mark(k + 4)]) && end == pc1 + |el.code| + |ee.code| + 1
    ensures var (o, w) := ExecFor(it, s.lbl, s.binder, s.body, Compiled(cx), m1.w, fuel);
            Ends(p, At(pc, m), m, end, false, cx, n, fuel, if o.Some? then (o.value, w) else ExecElse(s.els, Compiled(cx), w, fuel), t)
    decreases fuel, s, 3
  {
    var el := GenIteration(s.lbl, s.binder, s.body, cx, k);
    var r := ExecFor(it, s.lbl, s.binder, s.body, Compiled(cx), m1.w, fuel);
    t := SimIteration(p, s.lbl, s.binder, s.body, cx, n, k, m, pc1, m1, it, fuel, end - 1);
    if r.0.Some? {
      t := Before(p, At(pc, m), m, a, At(pc1, m1), end, false, cx, n, fuel, fuel, (r.0.value, r.1), t);
    } else {
      Chain(p, At(pc, m), a, At(pc1, m1), t.steps, At(pc1 + |el.code|, t.m));
      t := ElseThen(p, s.els, false, cx, n, el.next, pc, m, fuel, a + t.steps, pc1 + |el.code|, t.m, k + 4);
    }
  }

  /** At the head of a `for`, with its iterator frame open. */
  lemma SimIteration(p: Program, lbl: Label, binder: Option<Name>, body: Block, cx: Ctx, n: nat, k: nat, m: State,
                     pc: nat, m1: State, it: Value, fuel: nat, at: nat) returns (t: Wit)
    requires Sound(p, cx) && BlockCompiles(body, Names(cx.loops) + [lbl]) && n <= k
    requires Undisturbed(m, m1, n) && m1.exc == None && m1.stack == m.stack && m1.iters == m.iters + [it]
    requires Here(p, pc, GenIteration(lbl, binder, body, cx, k).code) && Here(p, at, [Mark(k + 4)])
    ensures var (o, w) := ExecFor(it, lbl, binder, body, Compiled(cx), m1.w, fuel);
            if o.Some? then Ends(p, At(pc, m1), m, at + 1, false, cx, n, fuel, (o.value, w), t)
            else Skips(p, At(pc, m1), m, pc + |GenIteration(lbl, binder, body, cx, k).code|, n, w, t)
    decreases fuel, body, 4
  {
    hide GenBlock, BlockYields, GenRange, Names, Here, ThroughFor, Rank, LoopEnd, BlockCompiles, Run, GenIteration,
         GenStmt, BlockExits, Compiles, HasExit;
    LayIteration(p, lbl, binder, body, cx, k, pc);
    var l := LoopOf(lbl, k + 2, k + 1, cx, Iterating);
    var q := pc + 4 + |GenBlock(body, false, cx.Enter(l), k + 5).code|;
    var c := At(pc, m1);
    Stay(p, c);
    Advance(p, c, 0, pc, m1, k, k + 3, binder, m.iters, it);
    var m2 := m1.(w := m1.w.Log(IterAdvanced(it)));
    match cx.env.next(m1.w.trace, it)
    case Exhausted =>
      t := ForExhausted(p, c, m, 2, pc, m2, k, binder, q, n, it);
    case NextFails(e) =>
      t := Plainly(2, at + 1, m2.(exc := Some(e)), cx);
    case Item(v) =>
      var m3 := EnterBody(p, c, 2, pc, m2, k, k + 3, binder, v);
      if fuel == 0 {
        t := Plainly(4, pc + 4, m3, cx);
      } else {
        t := ForBody(p, lbl, binder, body, cx, n, k, m, pc, m1, 4, m3, it, fuel, at, l, q);
      }
  }

  function ForTail(k: nat): Code {
    [Mark(k + 1), Goto(k), Mark(k + 2), IterEnd, Goto(k + 4), Mark(k + 3), IterEnd]
  }

  lemma ForExhausted(p: Program, c: Config, m: State, a: nat, pc: nat, m2: State, k: nat, binder: Option<Name>, q: nat, n: nat, it: Value)
    returns (t: Wit)
    requires Linked(p) && Reaches(p, c, a, At(pc + 2, m2.PushV(Bool(false))))
    requires Here(p, pc, IterHead(k, k + 3, binder)) && Here(p, q, ForTail(k))
    requires Undisturbed(m, m2, n) && m2.exc == None && m2.stack == m.stack && m2.iters == m.iters + [it]
    ensures Skips(p, c, m, q + 7, n, m2.w, t)
  {
    Nth(p, q, ForTail(k), 5);
    Nth(p, q, ForTail(k), 6);
    SkipBody(p, c, a, pc, m2, k, k + 3, binder, q + 5);
    var m3 := DoIterEnd(p, c, a + 2, q + 6, m2, m.iters, it);
    t := Plainly(a + 3, q + 7, m3, Ctx(Scope({}, map[]), p.env, [], []));
  }

  /** The places in the tail of a `for`: from `continue` back to the head, and from `break` out. */
  lemma ForMarks(p: Program, pc: nat, k: nat, binder: Option<Name>, q: nat)
    requires Linked(p) && Here(p, pc, IterHead(k, k + 3, binder)) && Here(p, q, ForTail(k))
    ensures Target(p, k + 1) == q && Moves(p, q, 2, pc) && Target(p, k + 2) == q + 2
    ensures Here(p, q + 2, [Mark(k + 2)]) && Here(p, q + 3, [IterEnd]) && Here(p, q + 4, [Goto(k + 4)])
  {
    hide Here, Reaches;
    Marked(p, pc, IterHead(k, k + 3, binder), 0);
    Marked(p, q, ForTail(k), 0);
    Marked(p, q, ForTail(k), 2);
    Nth(p, q, ForTail(k), 2);
    Nth(p, q, ForTail(k), 3);
    Nth(p, q, ForTail(k), 4);
    Fetch(p, q, ForTail(k));
    forall s: State ensures Reaches(p, At(q, s), 2, At(pc, s)) {
      One(p, At(q, s));
      Then(p, At(q, s), 1, At(q + 1, s));
    }
  }

  lemma ForBreak(p: Program, c: Config, m: State, a: nat, q: nat, k: nat, m2: State, at: nat, cx: Ctx, n: nat, fuel: nat, it: Value)
    returns (t: Wit)
    requires Linked(p) && Reaches(p, c, a, At(q + 2, m2)) && Here(p, at, [Mark(k + 4)])
    requires Here(p, q + 2, [Mark(k + 2)]) && Here(p, q + 3, [IterEnd]) && Here(p, q + 4, [Goto(k + 4)])
    requires Undisturbed(m, m2, n) && m2.exc == None && m2.stack == m.stack && m2.iters == m.iters + [it]
    ensures Ends(p, c, m, at + 1, false, cx, n, fuel, (Normal(Unit), m2.w), t)
  {
    PassMark(p, q + 2, k + 2);
    Move(p, c, a, q + 2, m2, 1, q + 3);
    var m3 := DoIterEnd(p, c, a + 1, q + 3, m2, m.iters, it);
    PassGoto(p, q + 4, k + 4, at);
    Move(p, c, a + 2, q + 4, m3, 2, at + 1);
    t := Plainly(a + 4, at + 1, m3, cx);
  }

  lemma ForBody(p: Program, lbl: Label, binder: Option<Name>, body: Block, cx: Ctx, n: nat, k: nat, m: State, pc: nat, m1: State,
                a: nat, m3: State, it: Value, fuel: nat, at: nat, l: LoopInfo, q: nat) returns (t: Wit)
    requires Sound(p, cx) && BlockCompiles(body, Names(cx.loops) + [lbl]) && n <= k && fuel > 0 && a > 0
    requires l == LoopOf(lbl, k + 2, k + 1, cx, Iterating)
    requires Reaches(p, At(pc, m1), a, At(pc + 4, m3)) && Undisturbed(m, m3, n) && m3.exc == None
    requires m3.stack == m.stack && m3.iters == m.iters + [it]
    requires Here(p, pc, GenIteration(lbl, binder, body, cx, k).code) && Here(p, at, [Mark(k + 4)])
    requires Here(p, pc, IterHead(k, k + 3, binder)) && Here(p, q, ForTail(k))
    requires Here(p, pc + 4, GenBlock(body, false, cx.Enter(l), k + 5).code) && q == pc + 4 + |GenBlock(body, false, cx.Enter(l), k + 5).code|
    ensures var (o, w) := ExecBlock(body, Compiled(cx), m3.w, fuel - 1);
            if Goes(o, lbl) then
              var (o1, w1) := ExecFor(it, lbl, binder, body, Compiled(cx), w, fuel - 1);
              if o1.Some? then Ends(p, At(pc, m1), m, at + 1, false, cx, n, fuel, (o1.value, w1), t)
              else Skips(p, At(pc, m1), m, pc + |GenIteration(lbl, binder, body, cx, k).code|, n, w1, t)
            else Ends(p, At(pc, m1), m, at + 1, false, cx, n, fuel, ThroughFor(LoopEnd(o, lbl, w)), t)
    decreases fuel, body, 3
  {
    hide GenBlock, GenExpr, GenRange, GenStmt, ExecBlock, EvalExpr, Ends, Here;
    NamesEnter(cx.loops, l);
    var r := ExecBlock(body, Compiled(cx), m3.w, fuel - 1);
    var t1 := SimBlock(p, body, false, cx.Enter(l), k + 5, pc + 4, m3, fuel - 1);
    ForMarks(p, pc, k, binder, q);
    if Goes(r.0, lbl) {
      t := ForAgain(p, lbl, binder, body, cx, n, k, m, pc, m1, a, m3, it, fuel, at, l, q, r, t1);
    } else if r.0.Broke? && Hits(r.0.lbl, lbl) {
      var steps, m4 := ToBreak(p, pc + 4, m3, q, cx, l, k + 5, fuel - 1, r, t1);
      Chain(p, At(pc, m1), a, At(pc + 4, m3), steps, At(q + 2, m4));
      t := ForBreak(p, At(pc, m1), m, a + steps, q, k, m4, at, cx, n, fuel, it);
    } else {
      t := ThroughLoop(p, At(pc, m1), m, a, pc + 4, m3, q, at + 1, cx, l, n, k + 5, fuel, fuel - 1, r, t1);
    }
  }

  lemma ForAgain(p: Program, lbl: Label, binder: Option<Name>, body: Block, cx: Ctx, n: nat, k: nat, m: State, pc: nat, m1: State,
                 a: nat, m3: State, it: Value, fuel: nat, at: nat, l: LoopInfo, q: nat, r: Result, t1: Wit) returns (t: Wit)
    requires Sound(p, cx) && BlockCompiles(body, Names(cx.loops) + [lbl]) && n <= k && fuel > 0 && a > 0
    requires l == LoopOf(lbl, k + 2, k + 1, cx, Iterating) && Goes(r.0, lbl)
    requires Reaches(p, At(pc, m1), a, At(pc + 4, m3)) && Undisturbed(m, m3, n) && m3.exc == None
    requires m3.stack == m.stack && m3.iters == m.iters + [it]
    requires Here(p, pc, GenIteration(lbl, binder, body, cx, k).code) && Here(p, at, [Mark(k + 4)])
    requires Target(p, k + 1) == q && Moves(p, q, 2, pc)
    requires Ends(p, At(pc + 4, m3), m3, q, false, cx.Enter(l), k + 5, fuel - 1, r, t1)
    ensures var (o1, w1) := ExecFor(it, lbl, binder, body, Compiled(cx), r.1, fuel - 1);
            if o1.Some? then Ends(p, At(pc, m1), m, at + 1, false, cx, n, fuel, (o1.value, w1), t)
            else Skips(p, At(pc, m1), m, pc + |GenIteration(lbl, binder, body, cx, k).code|, n, w1, t)
    decreases fuel, body, 2
  {
    hide ExecFor, ExecStmt;
    Nowhere(p, q);
    var steps, m4 := ToHead(p, pc + 4, m3, q, 0, cx, l, k + 5, fuel - 1, r, t1);
    Chain(p, At(pc, m1), a, At(pc + 4, m3), steps, At(q, m4));
    Move(p, At(pc, m1), a + steps, q, m4, 2, pc);
    t := SimIteration(p, lbl, binder, body, cx, n, k, m, pc, m4, it, fuel - 1, at);
    var (o1, w1) := ExecFor(it, lbl, binder, body, Compiled(cx), r.1, fuel - 1);
    if o1.Some? {
      t := Before(p, At(pc, m1), m, a + steps + 2, At(pc, m4), at + 1, false, cx, n, fuel, fuel - 1, (o1.value, w1), t);
    } else {
      Chain(p, At(pc, m1), a + steps + 2, At(pc, m4), t.steps, At(pc + |GenIteration(lbl, binder, body, cx, k).code|, t.m));
      t := t.(steps := a + steps + 2 + t.steps);
    }
  }

  // ----- try -----

  lemma SimTry(p: Program, s: Stmt, keep: bool, cx: Ctx, n: nat, pc: nat, m: State, fuel: nat) returns (t: Wit)
    requires Sound(p, cx) && m.exc == None && s.Try? && Compiles(s, Names(cx.loops))
    requires Here(p, pc, GenTry(s, keep, cx, n).code)
    ensures Ends(p, At(pc, m), m, pc + |GenTry(s, keep, cx, n).code|, keep, cx, n, fuel, ExecTry(s, Compiled(cx), m.w, fuel), t)
    decreases fuel, s, 4
  {
    hide TryHere, GenTry, GenBlock, ExecBlock, GenRange, Ends;
    LayTry(p, s, keep, cx, n, pc);
    var eb := TryBody(s, keep, cx, n);
    var enter := EnterTry(n, ElseLbl(s, n), EndLbl(s, n));
    var m1 := m.(tries := m.tries + [FrameOf(enter, m)]);
    Stay(p, At(pc, m));
    DoEnterTry(p, At(pc, m), 0, pc, m, enter);
    t := SimBlock(p, s.body, keep && s.els.None?, cx.Open(TryHandler), EndLbl(s, n) + 1, pc + 1, m1, fuel);
    t := TryRest(p, s, keep, cx, n, eb.next, pc, m, fuel, m1, FrameOf(enter, m), ExecBlock(s.body, Compiled(cx), m.w, fuel), t,
                 pc + 1 + |eb.code|, pc + |GenTry(s, keep, cx, n).code|);
  }

  /** The body has ended with `r`. */
  lemma TryRest(p: Program, s: Stmt, keep: bool, cx: Ctx, n: nat, k: nat, pc: nat, m: State, fuel: nat, m1: State, f: TryFrame,
                r: Result, t1: Wit, q: nat, end: nat) returns (t: Wit)
    requires Sound(p, cx) && m.exc == None && s.Try? && Compiles(s, Names(cx.loops)) && n <= k && TryHere(p, s, keep, cx, n, k, q, end)
    requires f == FrameOf(EnterTry(n, ElseLbl(s, n), EndLbl(s, n)), m) && m1 == m.(tries := m.tries + [f])
    requires Reaches(p, At(pc, m), 1, At(pc + 1, m1))
    requires Ends(p, At(pc + 1, m1), m1, q, keep && s.els.None?, cx.Open(TryHandler), EndLbl(s, n) + 1, fuel, r, t1)
    ensures Ends(p, At(pc, m), m, end, keep, cx, n, fuel,
                 if r.0.Normal? && s.els.Some? then ExecBlock(s.els.value, Compiled(cx), r.1, fuel)
                 else if r.0.Threw? && Select(s.catches, r.0.exc, cx.env).Some? then
                   ExecCatch(s.catches, Select(s.catches, r.0.exc, cx.env).value, r.0.exc, Compiled(cx), r.1, fuel)
                 else r, t)
    decreases fuel, s, 3
  {
    if r.0.Threw? {
      t := TryThrown(p, s, keep, cx, n, k, pc, m, fuel, m1, f, r, t1, q, end);
    } else {
      Chain(p, At(pc, m), 1, At(pc + 1, m1), t1.steps, At(t1.pc, t1.m));
      t := t1.(steps := 1 + t1.steps);
      if r.0.Normal? {
        t := TryDone(p, s, keep, cx, n, k, pc, m, fuel, f, r, t.steps, t1.m, q, end);
      } else if !r.0.Timeout? {
        t := TryLeft(p, At(pc, m), m, n, f, r, end, keep, cx, fuel, t);
      }
    }
  }

  lemma TryDone(p: Program, s: Stmt, keep: bool, cx: Ctx, n: nat, k: nat, pc: nat, m: State, fuel: nat, f: TryFrame,
                r: Result, a: nat, m1: State, q: nat, end: nat) returns (t: Wit)
    requires Sound(p, cx) && s.Try? && Compiles(s, Names(cx.loops)) && n <= k && TryHere(p, s, keep, cx, n, k, q, end)
    requires f == FrameOf(EnterTry(n, ElseLbl(s, n), EndLbl(s, n)), m) && r.0.Normal?
    requires Reaches(p, At(pc, m), a, At(q, m1)) && m1.tries == m.tries + [f] && TempsKept(n, m.temps, m1.temps)
    requires m1.exc == None && m1.w == r.1 && m1.iters == m.iters
    requires m1.stack == m.stack + if keep && s.els.None? then [r.0.v] else []
    ensures Ends(p, At(pc, m), m, end, keep, cx, n, fuel, if s.els.Some? then ExecBlock(s.els.value, Compiled(cx), r.1, fuel) else r, t)
    decreases fuel, s, 2
  {
    hide GenBlock, GenRange, ExecBlock, Here;
    var pt := q + 2 + |GenDispatch(s.catches, k)|;
    LayTryTail(p, s, keep, cx, n, k, pt);
    Nth(p, q, [EndTry, Mark(n)], 0);
    var ec := TryClauses(s, keep, cx, n, k);
    var at := if s.els.Some? then pt + |ec.code| else end - 1;
    var m2 := DoEndTry(p, At(pc, m), a, q, m1, m.tries, f, at);
    if s.els.Some? {
      t := ElseThen(p, s.els, keep, cx, n, ec.next, pc, m, fuel, a + 2, at + 1, m2, EndLbl(s, n));
    } else {
      t := Plainly(a + 2, end, m2, cx);
    }
  }

  lemma TryThrown(p: Program, s: Stmt, keep: bool, cx: Ctx, n: nat, k: nat, pc: nat, m: State, fuel: nat, m1: State, f: TryFrame,
                  r: Result, t1: Wit, q: nat, end: nat) returns (t: Wit)
    requires Sound(p, cx) && s.Try? && Compiles(s, Names(cx.loops)) && n <= k && TryHere(p, s, keep, cx, n, k, q, end)
    requires f == FrameOf(EnterTry(n, ElseLbl(s, n), EndLbl(s, n)), m) && m1 == m.(tries := m.tries + [f])
    requires Reaches(p, At(pc, m), 1, At(pc + 1, m1)) && r.0.Threw?
    requires Undisturbed(m1, t1.m, EndLbl(s, n) + 1) && t1.m.w == r.1 && Thrown(p, At(pc + 1, m1), m1, r.0.exc, t1.steps, t1.m)
    ensures var x := Select(s.catches, r.0.exc, cx.env);
            Ends(p, At(pc, m), m, end, keep, cx, n, fuel,
                 if x.Some? then ExecCatch(s.catches, x.value, r.0.exc, Compiled(cx), r.1, fuel) else r, t)
    decreases fuel, s, 2
  {
    Nth(p, q, [EndTry, Mark(n)], 1);
    var steps, m2 := TryCaught(p, pc, m, m1, n, f, r.0.exc, t1.steps, t1.m, EndLbl(s, n) + 1, q + 1);
    t := TryDispatch(p, s, keep, cx, n, k, pc, m, fuel, f, r, steps, m2, q, end);
  }

  lemma TryDispatch(p: Program, s: Stmt, keep: bool, cx: Ctx, n: nat, k: nat, pc: nat, m: State, fuel: nat, f: TryFrame,
                    r: Result, a: nat, m1: State, q: nat, end: nat) returns (t: Wit)
    requires Sound(p, cx) && s.Try? && Compiles(s, Names(cx.loops)) && n <= k && TryHere(p, s, keep, cx, n, k, q, end) && r.0.Threw?
    requires Reaches(p, At(pc, m), a, At(q + 2, m1)) && m1.tries == m.tries + [f] && TempsKept(n, m.temps, m1.temps)
    requires m1.exc == Some(r.0.exc) && m1.w == r.1 && m1.stack == m.stack && m1.iters == m.iters
    ensures var x := Select(s.catches, r.0.exc, cx.env);
            Ends(p, At(pc, m), m, end, keep, cx, n, fuel,
                 if x.Some? then ExecCatch(s.catches, x.value, r.0.exc, Compiled(cx), r.1, fuel) else r, t)
    decreases fuel, s, 1
  {
    hide GenBlock, GenRange, ExecBlock, Here;
    var e := r.0.exc;
    var last := q + 1 + |GenDispatch(s.catches, k)|;
    var steps := RunDispatch(p, s.catches, k, q + 2, m1, e);
    ChosenIsSelected(s.catches, e, cx.env, k);
    var lbl := Chosen(s.catches, e, cx.env, k);
    Chain(p, At(pc, m), a, At(q + 2, m1), steps, At(if lbl.Some? then Target(p, lbl.value) else last, m1));
    if lbl.None? {
      t := DoRethrow(p, At(pc, m), m, a + steps, last, m1, f, e, n, end, keep, cx, fuel);
    } else {
      t := SimHandler(p, s, keep, cx, n, k, pc, m, fuel, f, e, a + steps, m1, last + 1, end, lbl.value - k);
    }
  }

  lemma SimHandler(p: Program, s: Stmt, keep: bool, cx: Ctx, n: nat, k: nat, pc: nat, m: State, fuel: nat, f: TryFrame,
                   e: Value, a: nat, m1: State, pt: nat, end: nat, i: nat) returns (t: Wit)
    requires Sound(p, cx) && s.Try? && Compiles(s, Names(cx.loops)) && n <= k && i < s.catches.Count()
    requires Here(p, pt, TryTail(s, keep, cx, n, k)) && end == pt + |TryTail(s, keep, cx, n, k)|
    requires Reaches(p, At(pc, m), a, At(Target(p, k + i), m1)) && m1.tries == m.tries + [f] && TempsKept(n, m.temps, m1.temps)
    requires m1.exc == Some(e) && m1.stack == m.stack && m1.iters == m.iters
    ensures Ends(p, At(pc, m), m, end, keep, cx, n, fuel, ExecCatch(s.catches, i, e, Compiled(cx), m1.w, fuel), t)
    decreases fuel, s, 0
  {
    LayTryTail(p, s, keep, cx, n, k, pt);
    t := SimClauses(p, s.catches, keep, cx, k, EndLbl(s, n), n, k + s.catches.Count(), pt, i, pc, m, fuel, f, e, a, m1, end - 1);
  }

  /** Control is at the label of clause `i`. */
  lemma SimClauses(p: Program, cs: Catches, keep: bool, cx: Ctx, first: nat, endLbl: nat, n: nat, n1: nat, q: nat, i: nat,
                   pc: nat, m: State, fuel: nat, f: TryFrame, e: Value, a: nat, m1: State, at: nat) returns (t: Wit)
    requires Sound(p, cx) && CatchesCompile(cs, Names(cx.loops)) && i < cs.Count() && n <= n1
    requires Here(p, q, GenClauses(cs, keep, cx, first, endLbl, n1).code) && Here(p, at, [Mark(endLbl)])
    requires Reaches(p, At(pc, m), a, At(Target(p, first + i), m1)) && m1.tries == m.tries + [f] && TempsKept(n, m.temps, m1.temps)
    requires m1.exc == Some(e) && m1.stack == m.stack && m1.iters == m.iters
    ensures Ends(p, At(pc, m), m, at + 1, keep, cx, n, fuel, ExecCatch(cs, i, e, Compiled(cx), m1.w, fuel), t)
    decreases fuel, cs, 1
  {
    hide GenBlock, ExecBlock;
    LayClause(p, cs, keep, cx, first, endLbl, n1, q);
    var eb := GenBlock(cs.body, keep, cx, n1);
    var q1 := q + 1 + |GenCaught(cs.pattern)|;
    if i == 0 {
      Marked(p, q, [Mark(first)], 0);
      var steps, m2 := RunCaught(p, At(pc, m), a, q, first, cs.pattern, m1, e, m.tries, f);
      t := SimClause(p, cs, keep, cx, endLbl, n, n1, q1, pc, m, fuel, steps, m2, at);
    } else {
      t := SimClauses(p, cs.rest, keep, cx, first + 1, endLbl, n, eb.next, q1 + |eb.code| + 1, i - 1, pc, m, fuel, f, e, a, m1, at);
    }
  }

  lemma SimClause(p: Program, cs: Catches, keep: bool, cx: Ctx, endLbl: nat, n: nat, n1: nat, q: nat,
                  pc: nat, m: State, fuel: nat, a: nat, m1: State, at: nat) returns (t: Wit)
    requires Sound(p, cx) && cs.Catch? && CatchesCompile(cs, Names(cx.loops)) && n <= n1
    requires Reaches(p, At(pc, m), a, At(q, m1)) && Undisturbed(m, m1, n) && m1.exc == None && m1.stack == m.stack && m1.iters == m.iters
    requires var eb := GenBlock(cs.body, keep, cx, n1);
             Here(p, q, eb.code) && Here(p, q + |eb.code|, [Goto(endLbl)]) && Here(p, at, [Mark(endLbl)])
    ensures Ends(p, At(pc, m), m, at + 1, keep, cx, n, fuel, ExecBlock(cs.body, Compiled(cx), m1.w, fuel), t)
    decreases fuel, cs, 0
  {
    var end1 := q + |GenBlock(cs.body, keep, cx, n1).code|;
    PassGoto(p, end1, endLbl, at);
    t := SimBlock(p, cs.body, keep, cx, n1, q, m1, fuel);
    t := Settle(p, At(pc, m), m, a, At(q, m1), m1, end1, 2, at + 1, keep, cx, n, n1, fuel, fuel,
                ExecBlock(cs.body, Compiled(cx), m1.w, fuel), t);
  }

  // ----- with -----

  lemma SimWith(p: Program, s: Stmt, keep: bool, cx: Ctx, n: nat, pc: nat, m: State, fuel: nat) returns (t: Wit)
    requires Sound(p, cx) && m.exc == None && s.With? && Compiles(s, Names(cx.loops))
    requires Here(p, pc, GenWith(s, keep, cx, n).code)
    ensures Ends(p, At(pc, m), m, pc + |GenWith(s, keep, cx, n).code|, keep, cx, n, fuel, ExecWith(s, Compiled(cx), m.w, fuel), t)
    decreases fuel, s, 4
  {
    hide GenBlock, ExecBlock, Here, Compiles;
    LayWith(p, s, keep, cx, n, pc);
    var ec := GenExpr(s.context, cx, n + 3);
    var pc1 := pc + |ec.code|;
    var end := pc + |GenWith(s, keep, cx, n).code|;
    var steps, m1 := SimExpr(p, s.context, cx, n + 3, pc, m);
    var r := EvalExpr(s.context, cx.sc, cx.env, m.w);
    if r.0.Fail? {
      t := Failing(p, pc, m, pc1, end, keep, cx, n, n + 3, fuel, r, steps, m1);
    } else {
      t := SimWithRegion(p, s, keep, cx, n, ec.next, pc, m, fuel, steps, pc1, m1, r.0.value, end);
    }
  }

  lemma SimWithRegion(p: Program, s: Stmt, keep: bool, cx: Ctx, n: nat, k: nat, pc: nat, m: State, fuel: nat,
                      a: nat, pc1: nat, m1: State, v: Value, end: nat) returns (t: Wit)
    requires Sound(p, cx) && s.With? && Compiles(s, Names(cx.loops)) && n < k
    requires Pushed(p, At(pc, m), m, a, pc1, m1, v, n) && Here(p, pc1, GenWithEnter(n, k)) && WithHere(p, s, keep, cx, n, k, pc1 + 6, end)
    ensures var (enter, w2) := ReadAttr(v, WITH_ENTER, p.env, m1.w);
            var (entered, w3) := CallValue(if enter.Ret? then enter.value else Unit, [], p.env, w2);
            var w4 := if entered.Ret? && s.alias.Some? then w3.Set(s.alias.value, entered.value) else w3;
            Ends(p, At(pc, m), m, end, keep, cx, n, fuel,
                 if enter.Fail? then (Threw(enter.exc), w2) else if entered.Fail? then (Threw(entered.exc), w3)
                 else WithExit(v, ExecBlock(s.body, Compiled(cx), w4, fuel), p.env), t)
    decreases fuel, s, 3
  {
    var steps, m2, ok := DoWithEnter(p, At(pc, m), m, a, pc1, m1, v, n, k);
    if ok {
      t := SimWithBody(p, s, keep, cx, n, k, pc, m, fuel, steps, pc1 + 6, m2, v, end);
    } else {
      t := Plainly(steps, end, m2, cx);
    }
  }

  lemma SimWithBody(p: Program, s: Stmt, keep: bool, cx: Ctx, n: nat, k: nat, pc: nat, m: State, fuel: nat,
                    a: nat, pc1: nat, m1: State, v: Value, end: nat) returns (t: Wit)
    requires Sound(p, cx) && s.With? && Compiles(s, Names(cx.loops)) && n < k
    requires Reaches(p, At(pc, m), a, At(pc1, m1)) && m1.exc == None && m1.stack == m.stack && m1.iters == m.iters
    requires m1.tries == m.tries + [TryFrame(k, k + 1, k + 3, |m.stack|, |m.iters|)] && TempsKept(n, m.temps, m1.temps)
    requires n in m1.temps && m1.temps[n] == v && n + 2 in m1.temps
    requires WithHere(p, s, keep, cx, n, k, pc1, end)
    ensures var w := if s.alias.Some? then m1.w.Set(s.alias.value, m1.temps[n + 2]) else m1.w;
            Ends(p, At(pc, m), m, end, keep, cx, n, fuel, WithExit(v, ExecBlock(s.body, Compiled(cx), w, fuel), p.env), t)
    decreases fuel, s, 2
  {
    hide GenBlock, GenStmt, ExecStmt, GenRange, Step, ExecBlock;
    var h := WithHandler(n);
    var eb := GenBlock(s.body, keep, cx.Open(h), k + 4);
    var p2 := pc1 + |GenAlias(s.alias, n)|;
    var steps, m2 := DoAlias(p, At(pc, m), a, pc1, m1, s.alias, n, m1.temps[n + 2]);
    t := SimBlock(p, s.body, keep, cx.Open(h), k + 4, p2, m2, fuel);
    t := WithEnd(p, pc, m, steps, p2, m2, n, k, TryFrame(k, k + 1, k + 3, |m.stack|, |m.iters|), v, p2 + |eb.code|,
                 end, keep, cx, fuel, ExecBlock(s.body, Compiled(cx), m2.w, fuel), t);
  }

  // ----- match -----

  lemma SimMatch(p: Program, s: Stmt, keep: bool, cx: Ctx, n: nat, pc: nat, m: State, fuel: nat) returns (t: Wit)
    requires Sound(p, cx) && m.exc == None && s.Match? && Compiles(s, Names(cx.loops))
    requires Here(p, pc, GenMatch(s, keep, cx, n).code)
    ensures Ends(p, At(pc, m), m, pc + |GenMatch(s, keep, cx, n).code|, keep, cx, n, fuel, ExecMatch(s, Compiled(cx), m.w, fuel), t)
    decreases fuel, s, 4
  {
    hide Here, GenCases;
    LayMatch(p, s, keep, cx, n, pc);
    var es := GenExpr(s.subject, cx, n + 1);
    var end := pc + |GenMatch(s, keep, cx, n).code|;
    var steps, m1 := KeepValue(p, s.subject, cx, n, pc, m);
    var r := EvalExpr(s.subject, cx.sc, cx.env, m.w).0;
    if r.Fail? {
      t := Plainly(steps, pc, m1, cx);
    } else {
      t := SimMatchRest(p, s, keep, cx, n, es.next, pc, m, fuel, steps, pc + |es.code| + 1, m1, r.value, end);
    }
  }

  /** An expression whose value goes to the temporary `n`. */
  lemma KeepValue(p: Program, e: Expr, cx: Ctx, n: nat, pc: nat, m: State) returns (steps: nat, m1: State)
    requires Ready(p, cx) && m.exc == None
    requires Here(p, pc, GenExpr(e, cx, n + 1).code) && Here(p, pc + |GenExpr(e, cx, n + 1).code|, [StoreFast(Temp(n))])
    ensures var r := EvalExpr(e, cx.sc, cx.env, m.w);
            && Undisturbed(m, m1, n) && m1.w == r.1
            && (if r.0.Fail? then Fails(p, pc, m, r.0.exc, steps, m1)
                else Keeps(m1, n, r.0.value) && m1.exc == None && m1.stack == m.stack && m1.iters == m.iters
                     && Reaches(p, At(pc, m), steps, At(pc + |GenExpr(e, cx, n + 1).code| + 1, m1)))
  {
    steps, m1 := SimExpr(p, e, cx, n + 1, pc, m);
    var r := EvalExpr(e, cx.sc, cx.env, m.w).0;
    if r.Ret? {
      m1 := DoStoreTemp(p, At(pc, m), m, steps, pc + |GenExpr(e, cx, n + 1).code|, m1, r.value, n, n);
      steps := steps + 1;
    }
  }

  lemma SimMatchRest(p: Program, s: Stmt, keep: bool, cx: Ctx, n: nat, k: nat, pc: nat, m: State, fuel: nat,
                     a: nat, pc1: nat, m1: State, v: Value, end: nat) returns (t: Wit)
    requires Sound(p, cx) && s.Match? && Compiles(s, Names(cx.loops)) && n < k
    requires Reaches(p, At(pc, m), a, At(pc1, m1)) && Undisturbed(m, m1, n) && m1.exc == None && m1.stack == m.stack && m1.iters == m.iters
    requires Keeps(m1, n, v) && MatchHere(p, s, keep, cx, n, k, pc1, end)
    ensures var (o, w) := ExecCases(s.cases, v, Compiled(cx), m1.w, fuel);
            Ends(p, At(pc, m), m, end, keep, cx, n, fuel, if o.Some? then (o.value, w) else ExecElse(s.els, Compiled(cx), w, fuel), t)
    decreases fuel, s, 3
  {
    hide GenCases, ExecCases, GenBlock, ExecBlock, Here, Run;
    var ec := GenCases(s.cases, n, keep, cx, k, k + 1, k + 2);
    var r := ExecCases(s.cases, v, Compiled(cx), m1.w, fuel);
    t := SimCases(p, s.cases, n, keep, cx, k, k + 1, k + 2, pc1, m1, v, fuel, end - 1);
    t := AfterSkip(p, pc, m, a, pc1, m1, keep, cx, n, k + 2, fuel, end - 1, r, |ec.code|, t);
    if r.0.None? {
      t := ElseThen(p, s.els, keep, cx, n, ec.next, pc, m, fuel, t.steps, pc1 + |ec.code|, t.m, k);
    }
  }

  /** Control is at the mark before the remaining cases. */
  lemma SimCases(p: Program, cs: Cases, temp: nat, keep: bool, cx: Ctx, endLbl: nat, nextLbl: nat, n: nat, pc: nat, m: State, v: Value,
                 fuel: nat, at: nat) returns (t: Wit)
    requires Sound(p, cx) && m.exc == None && CasesCompile(cs, Names(cx.loops)) && temp < n && Keeps(m, temp, v)
    requires Here(p, pc, GenCases(cs, temp, keep, cx, endLbl, nextLbl, n).code) && Here(p, at, [Mark(endLbl)])
    ensures var (o, w) := ExecCases(cs, v, Compiled(cx), m.w, fuel);
            if o.Some? then Ends(p, At(pc, m), m, at + 1, keep, cx, n, fuel, (o.value, w), t)
            else Skips(p, At(pc, m), m, pc + |GenCases(cs, temp, keep, cx, endLbl, nextLbl, n).code|, n, w, t)
    decreases fuel, cs, 5
  {
    if cs.NoCase? {
      PassMark(p, pc, nextLbl);
      Stay(p, At(pc, m));
      Move(p, At(pc, m), 0, pc, m, 1, pc + 1);
      t := Plainly(1, pc + 1, m, cx);
    } else if cs.pattern.Single? {
      t := SimSingle(p, cs, temp, keep, cx, endLbl, nextLbl, n, pc, m, v, fuel, at);
    } else {
      t := SimOneOf(p, cs, temp, keep, cx, endLbl, nextLbl, n, pc, m, v, fuel, at);
    }
  }

  lemma SimSingle(p: Program, cs: Cases, temp: nat, keep: bool, cx: Ctx, endLbl: nat, nextLbl: nat, n: nat, pc: nat, m: State, v: Value,
                  fuel: nat, at: nat) returns (t: Wit)
    requires Sound(p, cx) && m.exc == None && CasesCompile(cs, Names(cx.loops)) && temp < n && Keeps(m, temp, v) && cs.Case? && cs.pattern.Single?
    requires Here(p, pc, GenCases(cs, temp, keep, cx, endLbl, nextLbl, n).code) && Here(p, at, [Mark(endLbl)])
    ensures var (o, w) := ExecCases(cs, v, Compiled(cx), m.w, fuel);
            if o.Some? then Ends(p, At(pc, m), m, at + 1, keep, cx, n, fuel, (o.value, w), t)
            else Skips(p, At(pc, m), m, pc + |GenCases(cs, temp, keep, cx, endLbl, nextLbl, n).code|, n, w, t)
    decreases fuel, cs, 4
  {
    hide GenBlock, ExecBlock, LoadAt, GenExpr, GenAltBodies, Undisturbed, Here, CasesCompile, Ready, GenCases, Skips,
         EvalExpr, EvalExprs, Reaches;
    LaySingle(p, cs, temp, keep, cx, endLbl, nextLbl, n, pc);
    var q := cs.pattern.p;
    var et := GenTest(q, temp, [], n, cx, n + 2);
    var eb := GenBlock(cs.body, keep, cx, et.next);
    var p1 := pc + 1 + |et.code|;
    var p2 := p1 + 2 + |GenBind(q, temp, [])|;
    var a, m1 := SingleTest(p, q, temp, n, nextLbl, cx, pc, m, v);
    t := SingleEnd(p, cs, temp, keep, cx, endLbl, n, et.next, pc, m, v, fuel, at, a, p1 + 2, m1, MatchPattern(q, v, cx.sc, cx.env, m.w),
                   p2 + |eb.code| + 1);
  }

  /** The pattern of the case has been tested. */
  lemma SingleEnd(p: Program, cs: Cases, temp: nat, keep: bool, cx: Ctx, endLbl: nat, n: nat, k: nat, pc: nat, m: State, v: Value,
                  fuel: nat, at: nat, a: nat, pc1: nat, m1: State, r: (Matched, World), pr: nat) returns (t: Wit)
    requires Sound(p, cx) && CasesCompile(cs, Names(cx.loops)) && temp < n <= k && Keeps(m, temp, v) && cs.Case? && cs.pattern.Single?
    requires r == MatchPattern(cs.pattern.p, v, cx.sc, cx.env, m.w) && Decides(p, pc, m, pc1, Target(p, n), n, r, a, m1)
    requires var bind := GenBind(cs.pattern.p, temp, []);
             var eb := GenBlock(cs.body, keep, cx, k);
             var p2 := pc1 + |bind|;
             && Here(p, pc1, bind) && Here(p, p2, eb.code) && Here(p, p2 + |eb.code|, [Goto(endLbl)]) && Here(p, at, [Mark(endLbl)])
             && pr == p2 + |eb.code| + 1 && Here(p, pr, GenCases(cs.rest, temp, keep, cx, endLbl, n, eb.next).code)
    ensures var (o, w) := if r.0.Yes? then var (o, w) := ExecBlock(cs.body, Compiled(cx), BindPattern(cs.pattern.p, v, r.1), fuel); (Some(o), w)
                          else if r.0.No? then ExecCases(cs.rest, v, Compiled(cx), r.1, fuel) else (Some(Threw(r.0.exc)), r.1);
            if o.Some? then Ends(p, At(pc, m), m, at + 1, keep, cx, n, fuel, (o.value, w), t)
            else Skips(p, At(pc, m), m, pr + |GenCases(cs.rest, temp, keep, cx, endLbl, n, GenBlock(cs.body, keep, cx, k).next).code|, n, w, t)
    decreases fuel, cs, 3
  {
    var q := cs.pattern.p;
    if r.0.Yes? {
      MatchedFits(q, v, cx.sc, cx.env, m.w);
      t := CaseBody(p, cs.body, q, temp, keep, cx, endLbl, n, k, pc, m, v, fuel, at, a, pc1, m1);
    } else if r.0.No? {
      t := NextCase(p, cs, temp, keep, cx, endLbl, n, GenBlock(cs.body, keep, cx, k).next, pc, m, v, fuel, at, a, pr, m1);
    } else {
      t := Plainly(a, pc, m1, cx);
    }
  }

  /** The mark, the tests, and the jump to the body. */
  lemma SingleTest(p: Program, q: Pattern, temp: nat, n: nat, nextLbl: nat, cx: Ctx, pc: nat, m: State, v: Value)
    returns (steps: nat, m1: State)
    requires Ready(p, cx) && m.exc == None && temp < n && Keeps(m, temp, v)
    requires var et := GenTest(q, temp, [], n, cx, n + 2);
             Here(p, pc, [Mark(nextLbl)]) && Here(p, pc + 1, et.code) && Here(p, pc + 1 + |et.code|, [Goto(n + 1), Mark(n + 1)])
    ensures Decides(p, pc, m, pc + 3 + |GenTest(q, temp, [], n, cx, n + 2).code|, Target(p, n), n,
                    MatchPattern(q, v, cx.sc, cx.env, m.w), steps, m1)
  {
    var p1 := pc + 1 + |GenTest(q, temp, [], n, cx, n + 2).code|;
    PassMark(p, pc, nextLbl);
    steps, m1 := SimPattern(p, q, temp, [], n, cx, n + 2, pc + 1, m, v);
    var r := MatchPattern(q, v, cx.sc, cx.env, m.w).0;
    Chain(p, At(pc, m), 1, At(pc + 1, m), steps,
          if r.MatchFails? then Dispatch(p, m1) else At(if r.Yes? then p1 else Target(p, n), m1));
    steps := 1 + steps;
    if r.Yes? {
      ToOwnMark(p, p1, n + 1);
      Move(p, At(pc, m), steps, p1, m1, 2, p1 + 2);
      steps := steps + 2;
    }
  }

  lemma ToOwnMark(p: Program, pc: nat, lbl: nat)
    requires Linked(p) && Here(p, pc, [Goto(lbl), Mark(lbl)])
    ensures Moves(p, pc, 2, pc + 2)
  {
    Nth(p, pc, [Goto(lbl), Mark(lbl)], 0);
    Nth(p, pc, [Goto(lbl), Mark(lbl)], 1);
    PassGoto(p, pc, lbl, pc + 1);
  }

  /** A pattern has matched: bind its names, run the body, jump to the end. */
  lemma CaseBody(p: Program, body: Block, q: Pattern, temp: nat, keep: bool, cx: Ctx, endLbl: nat, n: nat, k: nat, pc: nat, m: State, v: Value,
                 fuel: nat, at: nat, a: nat, pc1: nat, m1: State) returns (t: Wit)
    requires Sound(p, cx) && BlockCompiles(body, Names(cx.loops)) && temp < n <= k && Keeps(m, temp, v) && Fits(q, v)
    requires Reaches(p, At(pc, m), a, At(pc1, m1)) && Undisturbed(m, m1, n) && m1.exc == None && m1.stack == m.stack && m1.iters == m.iters
    requires var eb := GenBlock(body, keep, cx, k);
             var p2 := pc1 + |GenBind(q, temp, [])|;
             && Here(p, pc1, GenBind(q, temp, [])) && Here(p, p2, eb.code) && Here(p, p2 + |eb.code|, [Goto(endLbl)])
             && Here(p, at, [Mark(endLbl)])
    ensures Ends(p, At(pc, m), m, at + 1, keep, cx, n, fuel, ExecBlock(body, Compiled(cx), BindPattern(q, v, m1.w), fuel), t)
    decreases fuel, body, 3
  {
    var p2 := pc1 + |GenBind(q, temp, [])|;
    var end1 := p2 + |GenBlock(body, keep, cx, k).code|;
    var b, m2 := RunBind(p, q, temp, [], pc1, m1, v);
    Chain(p, At(pc, m), a, At(pc1, m1), b, At(p2, m2));
    PassGoto(p, end1, endLbl, at);
    t := SimBlock(p, body, keep, cx, k, p2, m2, fuel);
    t := Settle(p, At(pc, m), m, a + b, At(p2, m2), m2, end1, 2, at + 1, keep, cx, n, k, fuel, fuel,
                ExecBlock(body, Compiled(cx), m2.w, fuel), t);
  }

  /** No match: control is at the mark before the remaining cases. */
  lemma NextCase(p: Program, cs: Cases, temp: nat, keep: bool, cx: Ctx, endLbl: nat, n: nat, k: nat, pc: nat, m: State, v: Value,
                 fuel: nat, at: nat, a: nat, pr: nat, m1: State) returns (t: Wit)
    requires Sound(p, cx) && cs.Case? && CasesCompile(cs, Names(cx.loops)) && temp < n <= k && Keeps(m, temp, v)
    requires Reaches(p, At(pc, m), a, At(Target(p, n), m1)) && Undisturbed(m, m1, n) && m1.exc == None && m1.stack == m.stack && m1.iters == m.iters
    requires Here(p, pr, GenCases(cs.rest, temp, keep, cx, endLbl, n, k).code) && Here(p, at, [Mark(endLbl)])
    ensures var (o, w) := ExecCases(cs.rest, v, Compiled(cx), m1.w, fuel);
            if o.Some? then Ends(p, At(pc, m), m, at + 1, keep, cx, n, fuel, (o.value, w), t)
            else Skips(p, At(pc, m), m, pr + |GenCases(cs.rest, temp, keep, cx, endLbl, n, k).code|, n, w, t)
    decreases fuel, cs, 2
  {
    CasesStart(p, cs.rest, temp, keep, cx, endLbl, n, k, pr);
    t := SimCases(p, cs.rest, temp, keep, cx, endLbl, n, k, pr, m1, v, fuel, at);
    t := AfterSkip(p, pc, m, a, pr, m1, keep, cx, n, k, fuel, at, ExecCases(cs.rest, v, Compiled(cx), m1.w, fuel),
                   |GenCases(cs.rest, temp, keep, cx, endLbl, n, k).code|, t);
  }

  lemma SimOneOf(p: Program, cs: Cases, temp: nat, keep: bool, cx: Ctx, endLbl: nat, nextLbl: nat, n: nat, pc: nat, m: State, v: Value,
                 fuel: nat, at: nat) returns (t: Wit)
    requires Sound(p, cx) && m.exc == None && CasesCompile(cs, Names(cx.loops)) && temp < n && Keeps(m, temp, v) && cs.Case? && cs.pattern.OneOf?
    requires Here(p, pc, GenCases(cs, temp, keep, cx, endLbl, nextLbl, n).code) && Here(p, at, [Mark(endLbl)])
    ensures var (o, w) := ExecCases(cs, v, Compiled(cx), m.w, fuel);
            if o.Some? then Ends(p, At(pc, m), m, at + 1, keep, cx, n, fuel, (o.value, w), t)
            else Skips(p, At(pc, m), m, pc + |GenCases(cs, temp, keep, cx, endLbl, nextLbl, n).code|, n, w, t)
    decreases fuel, cs, 4
  {
    hide GenBlock, ExecBlock, GenAltTests, Undisturbed, MatchAlts, Skips, GenBind, GenTest, GenAltBodies, GenCases,
         GenExpr, Compiled, BindPattern, Ready, BlockYields;
    LayOneOf(p, cs, temp, keep, cx, endLbl, nextLbl, n, pc);
    var (et, lbls) := GenAltTests(cs.pattern.alts, temp, cx, n + 1);
    var eb := GenAltBodies(cs.pattern.alts, lbls, temp, cs.body, keep, cx, endLbl, et.next);
    var p1 := pc + 1 + |et.code|;
    var a, m1, j := OneOfTest(p, cs.pattern.alts, temp, n, nextLbl, cx, pc, m, v);
    var r := MatchAlts(cs.pattern.alts, v, Compiled(cx), m.w);
    if r.0.Taken? {
      t := SimAltBodies(p, cs.pattern.alts, lbls, temp, cs.body, keep, cx, endLbl, n, et.next, p1 + 1, j, pc, m, v, fuel, at, a, m1);
    } else if r.0.Missed? {
      t := NextCase(p, cs, temp, keep, cx, endLbl, n, eb.next, pc, m, v, fuel, at, a, p1 + 1 + |eb.code|, m1);
    } else {
      t := Plainly(a, pc, m1, cx);
    }
  }

  /** The mark, all the tests, and the jump to the next case if none passed. */
  lemma OneOfTest(p: Program, alts: Patterns, temp: nat, n: nat, nextLbl: nat, cx: Ctx, pc: nat, m: State, v: Value)
    returns (steps: nat, m1: State, j: nat)
    requires Ready(p, cx) && m.exc == None && temp < n && Keeps(m, temp, v)
    requires var et := GenAltTests(alts, temp, cx, n + 1).0;
             Here(p, pc, [Mark(nextLbl)]) && Here(p, pc + 1, et.code) && Here(p, pc + 1 + |et.code|, [Goto(n)])
    ensures Picks(p, pc, m, Target(p, n), alts, GenAltTests(alts, temp, cx, n + 1).1, v, n, MatchAlts(alts, v, Compiled(cx), m.w), steps, m1, j)
  {
    var (et, lbls) := GenAltTests(alts, temp, cx, n + 1);
    var p1 := pc + 1 + |et.code|;
    PassMark(p, pc, nextLbl);
    steps, m1, j := SimAlts(p, alts, temp, cx, n + 1, pc + 1, m, v, Compiled(cx));
    steps := AfterAlts(p, alts, lbls, n, pc, m, v, p1, MatchAlts(alts, v, Compiled(cx), m.w), steps, m1, j);
  }

  lemma AfterAlts(p: Program, alts: Patterns, lbls: seq<nat>, n: nat, pc: nat, m: State, v: Value, p1: nat, r: (CaseMatch, World),
                  a: nat, m1: State, j: nat) returns (steps: nat)
    requires |lbls| == alts.Count() && Here(p, p1, [Goto(n)]) && Moves(p, pc, 1, pc + 1)
    requires Picks(p, pc + 1, m, p1, alts, lbls, v, n + 1, r, a, m1, j)
    ensures Picks(p, pc, m, Target(p, n), alts, lbls, v, n, r, steps, m1, j)
  {
    assert Reaches(p, At(pc, m), 1, At(pc + 1, m));
    Chain(p, At(pc, m), 1, At(pc + 1, m), a,
          if r.0.CaseFails? then Dispatch(p, m1) else At(if r.0.Missed? then p1 else Target(p, lbls[j]), m1));
    steps := 1 + a;
    if r.0.Missed? {
      Fetch(p, p1, [Goto(n)]);
      Then(p, At(pc, m), steps, At(p1, m1));
      steps := steps + 1;
    }
  }

  /** Control is at the label of alternative `j`. */
  lemma SimAltBodies(p: Program, alts: Patterns, lbls: seq<nat>, temp: nat, body: Block, keep: bool, cx: Ctx, endLbl: nat, n: nat, k: nat,
                     q: nat, j: nat, pc: nat, m: State, v: Value, fuel: nat, at: nat, a: nat, m1: State) returns (t: Wit)
    requires Sound(p, cx) && BlockCompiles(body, Names(cx.loops)) && temp < n <= k && Keeps(m, temp, v)
    requires |lbls| == alts.Count() && j < alts.Count() && Fits(AltAt(alts, j), v)
    requires Here(p, q, GenAltBodies(alts, lbls, temp, body, keep, cx, endLbl, k).code) && Here(p, at, [Mark(endLbl)])
    requires Reaches(p, At(pc, m), a, At(Target(p, lbls[j]), m1)) && Undisturbed(m, m1, n) && m1.exc == None && m1.stack == m.stack && m1.iters == m.iters
    ensures Ends(p, At(pc, m), m, at + 1, keep, cx, n, fuel, ExecBlock(body, Compiled(cx), BindPattern(AltAt(alts, j), v, m1.w), fuel), t)
    decreases fuel, body, 4, alts
  {
    hide GenBlock, GenRange, GenStmt, GenAltBodies, Here, Fits, ExecBlock, ExecFor;
    OpenAltBodies(alts, lbls, temp, body, keep, cx, endLbl, k);
    var eb := GenBlock(body, keep, cx, k);
    var bind := GenBind(alts.head, temp, []);
    LayAltBody(p, lbls[0], bind, eb.code, endLbl, GenAltBodies(alts.tail, lbls[1..], temp, body, keep, cx, endLbl, eb.next).code, q);
    if j == 0 {
      Marked(p, q, [Mark(lbls[0])], 0);
      PassMark(p, q, lbls[0]);
      Move(p, At(pc, m), a, q, m1, 1, q + 1);
      t := CaseBody(p, body, alts.head, temp, keep, cx, endLbl, n, k, pc, m, v, fuel, at, a + 1, q + 1, m1);
    } else {
      t := SimAltBodies(p, alts.tail, lbls[1..], temp, body, keep, cx, endLbl, n, eb.next, q + 1 + |bind| + |eb.code| + 1, j - 1,
                        pc, m, v, fuel, at, a, m1);
    }
  }

  // ----- blocks -----

  lemma SimBlock(p: Program, b: Block, keep: bool, cx: Ctx, n: nat, pc: nat, m: State, fuel: nat) returns (t: Wit)
    requires Sound(p, cx) && m.exc == None && BlockCompiles(b, Names(cx.loops))
    requires Here(p, pc, GenBlock(b, keep, cx, n).code)
    ensures Ends(p, At(pc, m), m, pc + |GenBlock(b, keep, cx, n).code|, keep, cx, n, fuel, ExecBlock(b, Compiled(cx), m.w, fuel), t)
    decreases fuel, b, 2
  {
    hide GenRange, ExecBlock;
    var keepLast := keep && BlockYields(b);
    var er := GenRange(b, keepLast, cx, n);
    var tail: Code := if keep && !BlockYields(b) then [Push(Unit)] else [];
    Split(p, pc, er.code, tail);
    t := SimRange(p, b, keepLast, cx, n, pc, m, fuel);
    var r := ExecBlock(b, Compiled(cx), m.w, fuel);
    if r.0.Normal? && keep && !BlockYields(b) {
      NoYieldUnit(b, Compiled(cx), m.w, fuel);
      DoPush(p, At(pc, m), t.steps, pc + |er.code|, t.m, Unit);
      t := Plainly(t.steps + 1, pc + |er.code| + 1, t.m.PushV(Unit), cx);
    }
  }

  lemma SimRange(p: Program, b: Block, keep: bool, cx: Ctx, n: nat, pc: nat, m: State, fuel: nat) returns (t: Wit)
    requires Sound(p, cx) && m.exc == None && BlockCompiles(b, Names(cx.loops)) && (keep ==> BlockYields(b))
    requires Here(p, pc, GenRange(b, keep, cx, n).code)
    ensures Ends(p, At(pc, m), m, pc + |GenRange(b, keep, cx, n).code|, keep, cx, n, fuel, ExecBlock(b, Compiled(cx), m.w, fuel), t)
    decreases fuel, b, 1
  {
    hide GenStmt, GenBlock, Compiles, Compiled, ExecStmt, Here;
    if b.Nil? {
      Stay(p, At(pc, m));
      t := Plainly(0, pc, m, cx);
    } else if b.head.Defer? {
      t := SimDefer(p, b, keep, cx, n, pc, m, fuel);
    } else {
      var es := GenStmt(b.head, keep && b.tail.Nil?, cx, n);
      Split(p, pc, es.code, GenRange(b.tail, keep, cx, es.next).code);
      t := SimStmt(p, b.head, keep && b.tail.Nil?, cx, n, pc, m, fuel);
      var r := ExecStmt(b.head, Compiled(cx), m.w, fuel);
      if r.0.Normal? && !b.tail.Nil? {
        t := SimTail(p, b, keep, cx, n, es.next, pc, m, fuel, t.steps, pc + |es.code|, t.m);
      }
    }
  }

  lemma SimTail(p: Program, b: Block, keep: bool, cx: Ctx, n: nat, n1: nat, pc: nat, m: State, fuel: nat, a: nat, pc1: nat, m1: State)
    returns (t: Wit)
    requires Sound(p, cx) && b.Cons? && BlockCompiles(b, Names(cx.loops)) && (keep ==> BlockYields(b.tail)) && n <= n1
    requires Reaches(p, At(pc, m), a, At(pc1, m1)) && Undisturbed(m, m1, n) && m1.exc == None && m1.stack == m.stack && m1.iters == m.iters
    requires Here(p, pc1, GenRange(b.tail, keep, cx, n1).code)
    ensures Ends(p, At(pc, m), m, pc1 + |GenRange(b.tail, keep, cx, n1).code|, keep, cx, n, fuel, ExecBlock(b.tail, Compiled(cx), m1.w, fuel), t)
    decreases fuel, b, 0
  {
    var end := pc1 + |GenRange(b.tail, keep, cx, n1).code|;
    t := SimRange(p, b.tail, keep, cx, n1, pc1, m1, fuel);
    Nowhere(p, end);
    t := Settle(p, At(pc, m), m, a, At(pc1, m1), m1, end, 0, end, keep, cx, n, n1, fuel, fuel, ExecBlock(b.tail, Compiled(cx), m1.w, fuel), t);
  }

  // ----- deferred bodies -----

  lemma SimDefer(p: Program, b: Block, keep: bool, cx: Ctx, n: nat, pc: nat, m: State, fuel: nat) returns (t: Wit)
    requires Sound(p, cx) && m.exc == None && BlockCompiles(b, Names(cx.loops)) && (keep ==> BlockYields(b)) && b.Cons? && b.head.Defer?
    requires Here(p, pc, GenRange(b, keep, cx, n).code)
    ensures Ends(p, At(pc, m), m, pc + |GenRange(b, keep, cx, n).code|, keep, cx, n, fuel, ExecBlock(b, Compiled(cx), m.w, fuel), t)
    decreases fuel, b, 0
  {
    hide GenBlock, GenRange, GenStmt, GenExpr, GenCleanups, GenCleanup;
    LayDefer(p, b, keep, cx, n, pc);
    var h := DeferHandler(b.head.body);
    var er := GenRange(b.tail, keep, cx.Open(h), n + 3);
    var f := TryFrame(n, n + 1, n + 2, |m.stack|, |m.iters|);
    var m1 := m.(tries := m.tries + [f]);
    Stay(p, At(pc, m));
    DoEnterTry(p, At(pc, m), 0, pc, m, EnterTry(n, n + 1, n + 2));
    t := SimRange(p, b.tail, keep, cx.Open(h), n + 3, pc + 1, m1, fuel);
    var r := ExecBlock(b.tail, Compiled(cx), m.w, fuel);
    if r.0.Timeout? {
      Chain(p, At(pc, m), 1, At(pc + 1, m1), t.steps, At(t.pc, t.m));
      t := t.(steps := 1 + t.steps);
    } else {
      t := DeferRest(p, b, keep, cx, n, pc, m, fuel, m1, f, er, r, t);
    }
  }

  lemma DeferRest(p: Program, b: Block, keep: bool, cx: Ctx, n: nat, pc: nat, m: State, fuel: nat, m1: State, f: TryFrame, er: Emit,
                  r: Result, t1: Wit) returns (t: Wit)
    requires Sound(p, cx) && BlockCompiles(b, Names(cx.loops)) && b.Cons? && b.head.Defer?
    requires Here(p, pc, GenRange(b, keep, cx, n).code) && er == GenRange(b.tail, keep, cx.Open(DeferHandler(b.head.body)), n + 3)
    requires f == TryFrame(n, n + 1, n + 2, |m.stack|, |m.iters|) && m1 == m.(tries := m.tries + [f])
    requires Reaches(p, At(pc, m), 1, At(pc + 1, m1)) && !r.0.Timeout?
    requires Ends(p, At(pc + 1, m1), m1, pc + 1 + |er.code|, keep, cx.Open(DeferHandler(b.head.body)), n + 3, fuel, r, t1)
    ensures Ends(p, At(pc, m), m, pc + |GenRange(b, keep, cx, n).code|, keep, cx, n, fuel,
                 Resume(CODE, r.0, ExecBlock(b.head.body, Compiled(cx), r.1, fuel)), t)
    decreases fuel, b.head, 2
  {
    hide GenRange, Ends, ExecBlock;
    LayDefer(p, b, keep, cx, n, pc);
    assert !BlockExits(b.head.body) && BlockCompiles(b.head.body, Names(cx.loops)) by { assert Compiles(b.head, Names(cx.loops)); }
    BlockStays(b.head.body, Compiled(cx), r.1, fuel);
    t := DeferEnd(p, b.head.body, keep, cx, n, er.next, pc, m, fuel, m1, f, r, t1, pc + 1 + |er.code|, pc + |GenRange(b, keep, cx, n).code|);
  }

  /** The region has ended with `r`: the cleanup of that end runs. */
  lemma DeferEnd(p: Program, cleanup: Block, keep: bool, cx: Ctx, n: nat, k: nat, pc: nat, m: State, fuel: nat, m1: State, f: TryFrame,
                 r: Result, t1: Wit, p2: nat, end: nat) returns (t: Wit)
    requires Sound(p, cx) && BlockCompiles(cleanup, Names(cx.loops)) && !BlockExits(cleanup) && n <= k && !r.0.Timeout?
    requires Stays(ExecBlock(cleanup, Compiled(cx), r.1, fuel).0)
    requires var e1 := GenBlock(cleanup, false, cx, k);
             var e2 := GenBlock(cleanup, false, cx, e1.next);
             var p4 := p2 + 2 + |e1.code|;
             && Here(p, p2, [EndTry, Mark(n + 1)]) && Here(p, p2 + 2, e1.code)
             && Here(p, p4, [Goto(n + 2), Mark(n), PopTry]) && Here(p, p4 + 3, e2.code)
             && Here(p, p4 + 3 + |e2.code|, [Rethrow, Mark(n + 2)]) && end == p4 + 5 + |e2.code|
    requires f == TryFrame(n, n + 1, n + 2, |m.stack|, |m.iters|) && m1 == m.(tries := m.tries + [f])
    requires Reaches(p, At(pc, m), 1, At(pc + 1, m1))
    requires Ends(p, At(pc + 1, m1), m1, p2, keep, cx.Open(DeferHandler(cleanup)), n + 3, fuel, r, t1)
    ensures Ends(p, At(pc, m), m, end, keep, cx, n, fuel, Resume(CODE, r.0, ExecBlock(cleanup, Compiled(cx), r.1, fuel)), t)
    decreases fuel, cleanup, 5
  {
    hide GenBlock, GenRange, Here, ExecBlock;
    var e1 := GenBlock(cleanup, false, cx, k);
    var p4 := p2 + 2 + |e1.code|;
    if r.0.Threw? {
      t := DeferThrown(p, cleanup, keep, cx, n, e1.next, pc, m, fuel, m1, f, r, t1, p4, end);
    } else {
      Chain(p, At(pc, m), 1, At(pc + 1, m1), t1.steps, At(t1.pc, t1.m));
      if r.0.Normal? {
        Nth(p, end - 2, [Rethrow, Mark(n + 2)], 1);
        t := DeferNormal(p, cleanup, keep, cx, n, k, pc, m, fuel, f, r, 1 + t1.steps, t1.m, p2, end);
      } else {
        t := DeferExit(p, cleanup, keep, cx, n, pc, m, fuel, f, r, t1.(steps := 1 + t1.steps), end);
      }
    }
  }

  lemma DeferNormal(p: Program, cleanup: Block, keep: bool, cx: Ctx, n: nat, k: nat, pc: nat, m: State, fuel: nat, f: TryFrame,
                    r: Result, a: nat, m2: State, p2: nat, end: nat) returns (t: Wit)
    requires Sound(p, cx) && BlockCompiles(cleanup, Names(cx.loops)) && !BlockExits(cleanup) && n <= k && r.0.Normal?
    requires Stays(ExecBlock(cleanup, Compiled(cx), r.1, fuel).0)
    requires f == TryFrame(n, n + 1, n + 2, |m.stack|, |m.iters|)
    requires Reaches(p, At(pc, m), a, At(p2, m2)) && m2.tries == m.tries + [f] && TempsKept(n, m.temps, m2.temps)
    requires m2.exc == None && m2.w == r.1 && m2.stack == m.stack + (if keep then [r.0.v] else []) && m2.iters == m.iters
    requires var e1 := GenBlock(cleanup, false, cx, k);
             && Here(p, p2, [EndTry, Mark(n + 1)]) && Here(p, p2 + 2, e1.code)
             && Here(p, p2 + 2 + |e1.code|, [Goto(n + 2), Mark(n), PopTry]) && end > 0 && Here(p, end - 1, [Mark(n + 2)])
    ensures Ends(p, At(pc, m), m, end, keep, cx, n, fuel, Resume(CODE, r.0, ExecBlock(cleanup, Compiled(cx), r.1, fuel)), t)
    decreases fuel, cleanup, 4
  {
    hide GenBlock, GenRange, ExecBlock;
    var p4 := p2 + 2 + |GenBlock(cleanup, false, cx, k).code|;
    Nth(p, p2, [EndTry, Mark(n + 1)], 0);
    Nth(p, p2, [EndTry, Mark(n + 1)], 1);
    Nth(p, p4, [Goto(n + 2), Mark(n), PopTry], 0);
    var m3 := DoEndTry(p, At(pc, m), a, p2, m2, m.tries, f, p2 + 1);
    t := SimBlock(p, cleanup, false, cx, k, p2 + 2, m3, fuel);
    var r2 := ExecBlock(cleanup, Compiled(cx), r.1, fuel);
    if r2.0.Normal? {
      Chain(p, At(pc, m), a + 2, At(p2 + 2, m3), t.steps, At(p4, t.m));
      PassGoto(p, p4, n + 2, end - 1);
      Move(p, At(pc, m), a + 2 + t.steps, p4, t.m, 2, end);
      t := Plainly(a + 4 + t.steps, end, t.m, cx);
    } else {
      t := Abrupt(p, At(pc, m), m, a + 2, At(p2 + 2, m3), m3, p4, false, cx, end, keep, cx, n, k, fuel, fuel, r2, t);
    }
  }

  lemma DeferThrown(p: Program, cleanup: Block, keep: bool, cx: Ctx, n: nat, k: nat, pc: nat, m: State, fuel: nat, m1: State, f: TryFrame,
                    r: Result, t1: Wit, p4: nat, end: nat) returns (t: Wit)
    requires Sound(p, cx) && BlockCompiles(cleanup, Names(cx.loops)) && !BlockExits(cleanup) && n <= k && r.0.Threw?
    requires Stays(ExecBlock(cleanup, Compiled(cx), r.1, fuel).0)
    requires f == TryFrame(n, n + 1, n + 2, |m.stack|, |m.iters|) && m1 == m.(tries := m.tries + [f])
    requires Reaches(p, At(pc, m), 1, At(pc + 1, m1))
    requires Undisturbed(m1, t1.m, n) && t1.m.w == r.1 && Thrown(p, At(pc + 1, m1), m1, r.0.exc, t1.steps, t1.m)
    requires var e2 := GenBlock(cleanup, false, cx, k);
             && Here(p, p4, [Goto(n + 2), Mark(n), PopTry]) && Here(p, p4 + 3, e2.code)
             && Here(p, p4 + 3 + |e2.code|, [Rethrow, Mark(n + 2)])
    ensures Ends(p, At(pc, m), m, end, keep, cx, n, fuel, Resume(CODE, r.0, ExecBlock(cleanup, Compiled(cx), r.1, fuel)), t)
    decreases fuel, cleanup, 4
  {
    hide GenBlock, ExecBlock;
    var p6 := p4 + 3 + |GenBlock(cleanup, false, cx, k).code|;
    var steps, m3 := DeferCaught(p, n, pc, m, m1, f, r.0.exc, t1, p4);
    t := SimBlock(p, cleanup, false, cx, k, p4 + 3, m3, fuel);
    var r2 := ExecBlock(cleanup, Compiled(cx), r.1, fuel);
    if r2.0.Normal? {
      Chain(p, At(pc, m), steps, At(p4 + 3, m3), t.steps, At(p6, t.m));
      Nth(p, p6, [Rethrow, Mark(n + 2)], 0);
      t := DoRethrowLost(p, At(pc, m), m, steps + t.steps, p6, t.m, n, end, keep, cx, fuel);
    } else {
      t := Abrupt(p, At(pc, m), m, steps, At(p4 + 3, m3), m3, p6, false, cx, end, keep, cx, n, k, fuel, fuel, r2, t);
    }
  }

  /** The handler of a `defer` region drops its frame and the exception. */
  lemma DeferCaught(p: Program, n: nat, pc: nat, m: State, m1: State, f: TryFrame, e: Value, t1: Wit, p4: nat)
    returns (steps: nat, m3: State)
    requires Linked(p) && f == TryFrame(n, n + 1, n + 2, |m.stack|, |m.iters|) && m1 == m.(tries := m.tries + [f])
    requires Reaches(p, At(pc, m), 1, At(pc + 1, m1)) && Undisturbed(m1, t1.m, n)
    requires Thrown(p, At(pc + 1, m1), m1, e, t1.steps, t1.m) && Here(p, p4, [Goto(n + 2), Mark(n), PopTry])
    ensures Reaches(p, At(pc, m), steps, At(p4 + 3, m3))
    ensures m3 == t1.m.(stack := m.stack, iters := m.iters, tries := m.tries, exc := None) && Undisturbed(m, m3, n)
  {
    var head := [Goto(n + 2), Mark(n), PopTry];
    var m2;
    steps, m2 := Caught(p, pc, m, 1, pc + 1, m1, e, t1.steps, t1.m, f);
    Marked(p, p4, head, 1);
    Nth(p, p4, head, 1);
    Nth(p, p4, head, 2);
    PassMark(p, p4 + 1, n);
    Move(p, At(pc, m), steps, p4 + 1, m2, 1, p4 + 2);
    m3 := DoPopTry(p, At(pc, m), steps + 1, p4 + 2, m2, m.tries, f);
    steps := steps + 2;
  }

  lemma DeferExit(p: Program, cleanup: Block, keep: bool, cx: Ctx, n: nat, pc: nat, m: State, fuel: nat, f: TryFrame,
                  r: Result, t1: Wit, end: nat) returns (t: Wit)
    requires Sound(p, cx) && BlockCompiles(cleanup, Names(cx.loops)) && !BlockExits(cleanup) && IsExit(r.0)
    requires Stays(ExecBlock(cleanup, Compiled(cx), r.1, fuel).0)
    requires Reaches(p, At(pc, m), t1.steps, At(t1.pc, t1.m)) && t1.m.tries == m.tries + [f] && TempsKept(n, m.temps, t1.m.temps)
    requires t1.m.exc == None && t1.m.w == r.1
    requires Leaving(p, m, cx.Open(DeferHandler(cleanup)), n, r.0, t1)
    ensures Ends(p, At(pc, m), m, end, keep, cx, n, fuel, Resume(CODE, r.0, ExecBlock(cleanup, Compiled(cx), r.1, fuel)), t)
    decreases fuel, cleanup, 4
  {
    hide GenBlock, ExecBlock, BlockCompiles;
    var eb := GenBlock(cleanup, false, t1.site, t1.ne);
    RegionExit(r.0, cx, DeferHandler(cleanup), t1.site, t1.ne, t1.pend);
    Split(p, t1.pc, [PopTry] + eb.code, ExitCode(r.0, cx, t1.site, eb.next, t1.pend));
    Split(p, t1.pc, [PopTry], eb.code);
    t := DeferCleanup(p, cleanup, keep, cx, n, pc, m, fuel, f, r, t1, end);
  }

  /** Control is at the cleanup, and after it comes the rest of the exit. */
  lemma DeferCleanup(p: Program, cleanup: Block, keep: bool, cx: Ctx, n: nat, pc: nat, m: State, fuel: nat, f: TryFrame,
                     r: Result, t1: Wit, end: nat) returns (t: Wit)
    requires Sound(p, cx) && BlockCompiles(cleanup, Names(cx.loops)) && !BlockExits(cleanup) && IsExit(r.0)
    requires Stays(ExecBlock(cleanup, Compiled(cx), r.1, fuel).0) && SiteOk(t1.site, cx) && Resolved(r.0, cx) && n <= t1.ne
    requires Reaches(p, At(pc, m), t1.steps, At(t1.pc, t1.m)) && t1.m.tries == m.tries + [f] && TempsKept(n, m.temps, t1.m.temps)
    requires t1.m.exc == None && t1.m.w == r.1 && Loaded(m, r.0, t1.m, t1.pend)
    requires var eb := GenBlock(cleanup, false, t1.site, t1.ne);
             && Here(p, t1.pc, [PopTry]) && Here(p, t1.pc + 1, eb.code)
             && Here(p, t1.pc + 1 + |eb.code|, ExitCode(r.0, cx, t1.site, eb.next, t1.pend))
    ensures Ends(p, At(pc, m), m, end, keep, cx, n, fuel, Resume(CODE, r.0, ExecBlock(cleanup, Compiled(cx), r.1, fuel)), t)
    decreases fuel, cleanup, 3
  {
    hide GenBlock, ExecBlock, BlockCompiles, BlockExits, ExitCode;
    var site, ne := t1.site, t1.ne;
    var eb := GenBlock(cleanup, false, site, ne);
    var m3 := DoPopTry(p, At(pc, m), t1.steps, t1.pc, t1.m, m.tries, f);
    BlockAnywhere(cleanup, Names(site.loops));
    t := SimBlock(p, cleanup, false, site, ne, t1.pc + 1, m3, fuel);
    t := AfterExitCleanup(p, keep, cx, n, pc, m, fuel, r, t1, t1.steps + 1, m3, ExecBlock(cleanup, Compiled(cx), r.1, fuel), t, end,
                          t1.pc + 1, t1.pc + 1 + |eb.code|, eb.next);
  }

  /** A cleanup on the way out has run: go on with the exit, or let its own end replace it. */
  lemma AfterExitCleanup(p: Program, keep: bool, cx: Ctx, n: nat, pc: nat, m: State, fuel: nat, r: Result, t1: Wit,
                         a: nat, m3: State, r2: Result, t2: Wit, end: nat, pc3: nat, pc4: nat, k: nat) returns (t: Wit)
    requires IsExit(r.0) && Stays(r2.0) && SiteOk(t1.site, cx) && Resolved(r.0, cx) && n <= t1.ne <= k
    requires Reaches(p, At(pc, m), a, At(pc3, m3)) && Undisturbed(m, m3, n) && Loaded(m, r.0, m3, t1.pend)
    requires Ends(p, At(pc3, m3), m3, pc4, false, t1.site, t1.ne, fuel, r2, t2)
    requires Here(p, pc4, ExitCode(r.0, cx, t1.site, k, t1.pend))
    ensures Ends(p, At(pc, m), m, end, keep, cx, n, fuel, Resume(CODE, r.0, r2), t)
  {
    if r2.0.Normal? {
      Chain(p, At(pc, m), a, At(pc3, m3), t2.steps, At(pc4, t2.m));
      t := Wit(a + t2.steps, t2.m, pc4, t1.site, k, t1.pend);
    } else {
      t := Abrupt(p, At(pc, m), m, a, At(pc3, m3), m3, pc4, false, t1.site, end, keep, cx, n, t1.ne, fuel, fuel, r2, t2);
    }
  }
}
