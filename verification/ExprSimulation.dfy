/** Expression code leaves the value of the expression on the operand stack, or raises
    its error, whether or not it was folded. */
module ExprSimulation {
  import opened Wrappers
  import opened Syntax
  import opened Semantics
  import opened Machine
  import opened Codegen
  import opened Simulation

  // ----- folding -----

  /** A folded expression has, in every world, the folded value and no effect. */
  lemma {:induction false} FoldSound(e: Expr, sc: Scope, env: Env, b: Budget, w: World)
    requires Fold(e, sc.consts, env, b).Some?
    ensures EvalExpr(e, sc, env, w) == (Ret(Fold(e, sc.consts, env, b).value.0), w)
    decreases e
  {
    var b1 := b.(steps := b.steps - 1);
    match e
    case Const(_) =>
    case Var(_) =>
    case Unary(op, a) => FoldSound(a, sc, env, b1, w);
    case Binary(op, l, r) =>
      FoldSound(l, sc, env, b1, w);
      FoldSound(r, sc, env, Fold(l, sc.consts, env, b1).value.1, w);
    case And(l, r) =>
      FoldSound(l, sc, env, b1, w);
      var x := Fold(l, sc.consts, env, b1);
      if Truthy(env, x.value.0) { FoldSound(r, sc, env, x.value.1, w); }
    case Or(l, r) =>
      FoldSound(l, sc, env, b1, w);
      var x := Fold(l, sc.consts, env, b1);
      if !Truthy(env, x.value.0) { FoldSound(r, sc, env, x.value.1, w); }
    case IfElse(c, t, f) =>
      FoldSound(c, sc, env, b1, w);
      var x := Fold(c, sc.consts, env, b1);
      if Truthy(env, x.value.0) { FoldSound(t, sc, env, x.value.1, w); } else { FoldSound(f, sc, env, x.value.1, w); }
    case Tuple(es) => FoldAllSound(es, sc, env, b1, w);
    case _ =>
  }

  lemma {:induction false} FoldAllSound(es: Exprs, sc: Scope, env: Env, b: Budget, w: World)
    requires FoldAll(es, sc.consts, env, b).Some?
    ensures EvalExprs(es, sc, env, w) == (Values(FoldAll(es, sc.consts, env, b).value.0), w)
    decreases es
  {
    match es
    case NoExpr =>
    case MoreExpr(e, rest) =>
      FoldSound(e, sc, env, b, w);
      FoldAllSound(rest, sc, env, Fold(e, sc.consts, env, b).value.1, w);
  }

  // ----- simulation -----

  ghost predicate DeliversAll(p: Program, pc: nat, m: State, end: nat, n: nat, r: (Results, World), steps: nat, m': State) {
    && Undisturbed(m, m', n) && m'.w == r.1
    && (match r.0
        case Values(vs) =>
          && Reaches(p, At(pc, m), steps, At(end, m'))
          && m'.exc == None && m'.stack == m.stack + vs && m'.iters == m.iters
        case Failed(e) => Fails(p, pc, m, e, steps, m'))
  }

  /** A run has got to an instruction that answers with a value or an error. */
  lemma Answered(p: Program, pc: nat, m: State, a: nat, pc1: nat, m1: State, m2: State, r: Response, n: nat)
    returns (m': State)
    requires Reaches(p, At(pc, m), a, At(pc1, m1))
    requires Step(p, At(pc1, m1)) == Answer(p, pc1, m2, r)
    requires m2.exc == None && Undisturbed(m, m2, n) && m2.stack == m.stack && m2.iters == m.iters
    ensures Delivers(p, pc, m, pc1 + 1, n, (r, m2.w), a + 1, m')
  {
    Then(p, At(pc, m), a, At(pc1, m1));
    m' := if r.Ret? then m2.PushV(r.value) else m2.(exc := Some(r.exc));
  }

  lemma DoUnary(p: Program, pc: nat, m: State, a: nat, pc1: nat, m1: State, op: UnOp, v: Value, n: nat)
    returns (m': State)
    requires Reaches(p, At(pc, m), a, At(pc1, m1)) && Here(p, pc1, [UnaryOp(op)])
    requires m1.exc == None && Undisturbed(m, m1, n) && m1.stack == m.stack + [v] && m1.iters == m.iters
    ensures Delivers(p, pc, m, pc1 + 1, n, (ApplyUnary(p.env, op, v), m1.w), a + 1, m')
  {
    Fetch(p, pc1, [UnaryOp(op)]);
    m' := Answered(p, pc, m, a, pc1, m1, m1.Drop(), ApplyUnary(p.env, op, v), n);
  }

  lemma DoAttr(p: Program, pc: nat, m: State, a: nat, pc1: nat, m1: State, field: Name, v: Value, n: nat)
    returns (m': State)
    requires Reaches(p, At(pc, m), a, At(pc1, m1)) && Here(p, pc1, [GetAttr(field)])
    requires m1.exc == None && Undisturbed(m, m1, n) && m1.stack == m.stack + [v] && m1.iters == m.iters
    ensures Delivers(p, pc, m, pc1 + 1, n, ReadAttr(v, field, p.env, m1.w), a + 1, m')
  {
    Fetch(p, pc1, [GetAttr(field)]);
    var (r, w1) := ReadAttr(v, field, p.env, m1.w);
    m' := Answered(p, pc, m, a, pc1, m1, m1.Drop().(w := w1), r, n);
  }

  lemma DoBinary(p: Program, pc: nat, m: State, a: nat, pc1: nat, m1: State, op: BinOp, x: Value, y: Value, n: nat)
    returns (m': State)
    requires Reaches(p, At(pc, m), a, At(pc1, m1)) && Here(p, pc1, [BinaryOp(op)])
    requires m1.exc == None && Undisturbed(m, m1, n) && m1.stack == m.stack + [x, y] && m1.iters == m.iters
    ensures Delivers(p, pc, m, pc1 + 1, n, (ApplyBinary(p.env, op, x, y), m1.w), a + 1, m')
  {
    Fetch(p, pc1, [BinaryOp(op)]);
    assert m1.Drop().Drop().stack == m.stack;
    m' := Answered(p, pc, m, a, pc1, m1, m1.Drop().Drop(), ApplyBinary(p.env, op, x, y), n);
  }

  lemma DoCall(p: Program, pc: nat, m: State, a: nat, pc1: nat, m1: State, args: seq<Value>, f: Value, n: nat)
    returns (m': State)
    requires Reaches(p, At(pc, m), a, At(pc1, m1)) && Here(p, pc1, [CallN(|args|)]) && CallsTidy(p.env)
    requires m1.exc == None && Undisturbed(m, m1, n) && m1.stack == m.stack + (args + [f]) && m1.iters == m.iters
    ensures Delivers(p, pc, m, pc1 + 1, n, CallValue(f, args, p.env, m1.w), a + 1, m')
  {
    Fetch(p, pc1, [CallN(|args|)]);
    assert p.code[pc1] == CallN(|args|);
    TidyCallStep(p, pc1, m1, m.stack, args, f);
    hide Step, StepTop, TempsKept, Reaches, Here;
    var (r, w1) := CallValue(f, args, p.env, m1.w);
    m' := Answered(p, pc, m, a, pc1, m1, m1.(stack := m.stack, w := w1), r, n);
  }

  lemma DoTuple(p: Program, pc: nat, m: State, a: nat, pc1: nat, m1: State, vs: seq<Value>, n: nat)
    returns (m': State)
    requires Reaches(p, At(pc, m), a, At(pc1, m1)) && Here(p, pc1, [TupleNew(|vs|)])
    requires m1.exc == None && Undisturbed(m, m1, n) && m1.stack == m.stack + vs && m1.iters == m.iters
    ensures Delivers(p, pc, m, pc1 + 1, n, (Ret(Seq(vs)), m1.w), a + 1, m')
  {
    Fetch(p, pc1, [TupleNew(|vs|)]);
    assert m1.stack[..|m.stack|] == m.stack && m1.stack[|m.stack|..] == vs;
    m' := Answered(p, pc, m, a, pc1, m1, m1.(stack := m.stack), Ret(Seq(vs)), n);
  }

  /** A second stretch after one that pushed `x`: both values, or the error of the second. */
  lemma Second(p: Program, pc: nat, m: State, pc1: nat, pc2: nat, n: nat, n1: nat, x: Value, w1: World,
               s1: nat, m1: State, y: (Response, World), s2: nat, m2: State)
    requires Delivers(p, pc, m, pc1, n, (Ret(x), w1), s1, m1) && n <= n1
    requires Delivers(p, pc1, m1, pc2, n1, y, s2, m2)
    ensures Undisturbed(m, m2, n) && m2.w == y.1 && m2.iters == m.iters
    ensures y.0.Fail? ==> Fails(p, pc, m, y.0.exc, s1 + s2, m2)
    ensures y.0.Ret? ==> Reaches(p, At(pc, m), s1 + s2, At(pc2, m2)) && m2.exc == None
                         && m2.stack == m.stack + [x, y.0.value]
  {
    if y.0.Ret? {
      Chain(p, At(pc, m), s1, At(pc1, m1), s2, At(pc2, m2));
      assert (m.stack + [x]) + [y.0.value] == m.stack + [x, y.0.value];
    } else {
      Chain(p, At(pc, m), s1, At(pc1, m1), s2, Dispatch(p, m2));
    }
  }

  lemma {:induction false} SimExpr(p: Program, e: Expr, cx: Ctx, n: nat, pc: nat, m: State)
    returns (steps: nat, m': State)
    requires Ready(p, cx) && m.exc == None
    requires Here(p, pc, GenExpr(e, cx, n).code)
    ensures Delivers(p, pc, m, pc + |GenExpr(e, cx, n).code|, n, EvalExpr(e, cx.sc, cx.env, m.w), steps, m')
    decreases e, 1
  {
    if TryEval(e, cx).Some? {
      steps, m' := SimFolded(p, e, cx, n, pc, m);
    } else {
      match e
      case Const(v) => steps, m' := SimAtom(p, e, cx, n, pc, m);
      case Var(x) => steps, m' := SimAtom(p, e, cx, n, pc, m);
      case Unary(_, _) => steps, m' := SimUnary(p, e, cx, n, pc, m);
      case Binary(_, _, _) => steps, m' := SimBinary(p, e, cx, n, pc, m);
      case And(_, _) => steps, m' := SimShortCut(p, e, cx, n, pc, m);
      case Or(_, _) => steps, m' := SimShortCut(p, e, cx, n, pc, m);
      case IfElse(_, _, _) => steps, m' := SimIfElse(p, e, cx, n, pc, m);
      case Tuple(_) => steps, m' := SimTuple(p, e, cx, n, pc, m);
      case Member(_, _) => steps, m' := SimMember(p, e, cx, n, pc, m);
      case Call(_, _) => steps, m' := SimCall(p, e, cx, n, pc, m);
    }
  }

  lemma SimFolded(p: Program, e: Expr, cx: Ctx, n: nat, pc: nat, m: State) returns (steps: nat, m': State)
    requires Ready(p, cx) && m.exc == None && TryEval(e, cx).Some?
    requires Here(p, pc, GenExpr(e, cx, n).code)
    ensures Delivers(p, pc, m, pc + |GenExpr(e, cx, n).code|, n, EvalExpr(e, cx.sc, cx.env, m.w), steps, m')
  {
    var v := TryEval(e, cx).value;
    FoldSound(e, cx.sc, cx.env, FULL_BUDGET, m.w);
    Fetch(p, pc, [Push(v)]);
    One(p, At(pc, m));
    steps, m' := 1, m.PushV(v);
  }

  lemma SimAtom(p: Program, e: Expr, cx: Ctx, n: nat, pc: nat, m: State) returns (steps: nat, m': State)
    requires Ready(p, cx) && m.exc == None && (e.Const? || e.Var?) && TryEval(e, cx).None?
    requires Here(p, pc, GenPlain(e, cx, n).code)
    ensures Delivers(p, pc, m, pc + |GenPlain(e, cx, n).code|, n, EvalExpr(e, cx.sc, cx.env, m.w), steps, m')
  {
    Fetch(p, pc, GenPlain(e, cx, n).code);
    Stay(p, At(pc, m));
    if e.Var? && e.x in cx.sc.consts {
      assert Fold(e, cx.sc.consts, cx.env, FULL_BUDGET).Some?;
    }
    steps := 1;
    m' := Answered(p, pc, m, 0, pc, m, m, EvalExpr(e, cx.sc, cx.env, m.w).0, n);
  }

  lemma SimUnary(p: Program, e: Expr, cx: Ctx, n: nat, pc: nat, m: State) returns (steps: nat, m': State)
    requires Ready(p, cx) && m.exc == None && e.Unary?
    requires Here(p, pc, GenPlain(e, cx, n).code)
    ensures Delivers(p, pc, m, pc + |GenPlain(e, cx, n).code|, n, EvalExpr(e, cx.sc, cx.env, m.w), steps, m')
    decreases e, 0
  {
    var ea := GenExpr(e.operand, cx, n);
    Split(p, pc, ea.code, [UnaryOp(e.op)]);
    steps, m' := SimExpr(p, e.operand, cx, n, pc, m);
    var r := EvalExpr(e.operand, cx.sc, cx.env, m.w).0;
    if r.Ret? {
      m' := DoUnary(p, pc, m, steps, pc + |ea.code|, m', e.op, r.value, n);
      steps := steps + 1;
    }
  }

  lemma SimMember(p: Program, e: Expr, cx: Ctx, n: nat, pc: nat, m: State) returns (steps: nat, m': State)
    requires Ready(p, cx) && m.exc == None && e.Member?
    requires Here(p, pc, GenPlain(e, cx, n).code)
    ensures Delivers(p, pc, m, pc + |GenPlain(e, cx, n).code|, n, EvalExpr(e, cx.sc, cx.env, m.w), steps, m')
    decreases e, 0
  {
    var eo := GenExpr(e.obj, cx, n);
    Split(p, pc, eo.code, [GetAttr(e.field)]);
    steps, m' := SimExpr(p, e.obj, cx, n, pc, m);
    var r := EvalExpr(e.obj, cx.sc, cx.env, m.w).0;
    if r.Ret? {
      m' := DoAttr(p, pc, m, steps, pc + |eo.code|, m', e.field, r.value, n);
      steps := steps + 1;
    }
  }

  lemma SimBinary(p: Program, e: Expr, cx: Ctx, n: nat, pc: nat, m: State) returns (steps: nat, m': State)
    requires Ready(p, cx) && m.exc == None && e.Binary?
    requires Here(p, pc, GenPlain(e, cx, n).code)
    ensures Delivers(p, pc, m, pc + |GenPlain(e, cx, n).code|, n, EvalExpr(e, cx.sc, cx.env, m.w), steps, m')
    decreases e, 0
  {
    var op := [BinaryOp(e.bop)];
    var el := GenExpr(e.left, cx, n);
    var er := GenExpr(e.right, cx, el.next);
    Split(p, pc, el.code, er.code + op);
    var pc1 := pc + |el.code|;
    Split(p, pc1, er.code, op);
    var pc2 := pc1 + |er.code|;
    steps, m' := SimExpr(p, e.left, cx, n, pc, m);
    var (x, w1) := EvalExpr(e.left, cx.sc, cx.env, m.w);
    if x.Ret? {
      var s1, m1 := steps, m';
      steps, m' := SimExpr(p, e.right, cx, el.next, pc1, m1);
      var y := EvalExpr(e.right, cx.sc, cx.env, w1);
      Second(p, pc, m, pc1, pc2, n, el.next, x.value, w1, s1, m1, y, steps, m');
      steps := s1 + steps;
      if y.0.Ret? {
        m' := DoBinary(p, pc, m, steps, pc2, m', e.bop, x.value, y.0.value, n);
        steps := steps + 1;
      }
    }
  }

  lemma SimTuple(p: Program, e: Expr, cx: Ctx, n: nat, pc: nat, m: State) returns (steps: nat, m': State)
    requires Ready(p, cx) && m.exc == None && e.Tuple?
    requires Here(p, pc, GenPlain(e, cx, n).code)
    ensures Delivers(p, pc, m, pc + |GenPlain(e, cx, n).code|, n, EvalExpr(e, cx.sc, cx.env, m.w), steps, m')
    decreases e, 0
  {
    var op := [TupleNew(e.elems.Count())];
    var ee := GenExprs(e.elems, cx, n);
    Split(p, pc, ee.code, op);
    steps, m' := SimExprs(p, e.elems, cx, n, pc, m);
    var r := EvalExprs(e.elems, cx.sc, cx.env, m.w).0;
    if r.Values? {
      CountValues(e.elems, cx, m.w);
      m' := DoTuple(p, pc, m, steps, pc + |ee.code|, m', r.values, n);
      steps := steps + 1;
    }
  }

  lemma {:induction false} CountValues(es: Exprs, cx: Ctx, w: World)
    requires EvalExprs(es, cx.sc, cx.env, w).0.Values?
    ensures |EvalExprs(es, cx.sc, cx.env, w).0.values| == es.Count()
    decreases es
  {
    if es.MoreExpr? {
      CountValues(es.tail, cx, EvalExpr(es.head, cx.sc, cx.env, w).1);
    }
  }

  lemma SimCall(p: Program, e: Expr, cx: Ctx, n: nat, pc: nat, m: State) returns (steps: nat, m': State)
    requires Ready(p, cx) && m.exc == None && e.Call?
    requires Here(p, pc, GenPlain(e, cx, n).code)
    ensures Delivers(p, pc, m, pc + |GenPlain(e, cx, n).code|, n, EvalExpr(e, cx.sc, cx.env, m.w), steps, m')
    decreases e, 0
  {
    var op := [CallN(e.args.Count())];
    var ea := GenExprs(e.args, cx, n);
    var ef := GenExpr(e.callee, cx, ea.next);
    Split(p, pc, ea.code, ef.code + op);
    var pc1 := pc + |ea.code|;
    Split(p, pc1, ef.code, op);
    var pc2 := pc1 + |ef.code|;
    steps, m' := SimExprs(p, e.args, cx, n, pc, m);
    var (xs, w1) := EvalExprs(e.args, cx.sc, cx.env, m.w);
    if xs.Values? {
      CountValues(e.args, cx, m.w);
      var s1, m1 := steps, m';
      steps, m' := SimExpr(p, e.callee, cx, ea.next, pc1, m1);
      var f := EvalExpr(e.callee, cx.sc, cx.env, w1);
      if f.0.Ret? {
        Chain(p, At(pc, m), s1, At(pc1, m1), steps, At(pc2, m'));
        assert (m.stack + xs.values) + [f.0.value] == m.stack + (xs.values + [f.0.value]);
        m' := DoCall(p, pc, m, s1 + steps, pc2, m', xs.values, f.0.value, n);
        steps := s1 + steps + 1;
      } else {
        Chain(p, At(pc, m), s1, At(pc1, m1), steps, Dispatch(p, m'));
        steps := s1 + steps;
      }
    }
  }

  lemma {:induction false} SimExprs(p: Program, es: Exprs, cx: Ctx, n: nat, pc: nat, m: State)
    returns (steps: nat, m': State)
    requires Ready(p, cx) && m.exc == None
    requires Here(p, pc, GenExprs(es, cx, n).code)
    ensures DeliversAll(p, pc, m, pc + |GenExprs(es, cx, n).code|, n, EvalExprs(es, cx.sc, cx.env, m.w), steps, m')
    decreases es
  {
    match es
    case NoExpr =>
      Stay(p, At(pc, m));
      steps, m' := 0, m;
    case MoreExpr(e, rest) =>
      var ee := GenExpr(e, cx, n);
      var er := GenExprs(rest, cx, ee.next);
      Split(p, pc, ee.code, er.code);
      steps, m' := SimExpr(p, e, cx, n, pc, m);
      var (x, w1) := EvalExpr(e, cx.sc, cx.env, m.w);
      if x.Ret? {
        var pc1, s1, m1 := pc + |ee.code|, steps, m';
        steps, m' := SimExprs(p, rest, cx, ee.next, pc1, m1);
        var xs := EvalExprs(rest, cx.sc, cx.env, w1).0;
        if xs.Values? {
          Chain(p, At(pc, m), s1, At(pc1, m1), steps, At(pc1 + |er.code|, m'));
        } else {
          Chain(p, At(pc, m), s1, At(pc1, m1), steps, Dispatch(p, m'));
        }
        steps := s1 + steps;
      }
  }

  // ----- short circuits and the conditional -----

  /** Keep the tested value in a temporary and branch on it. */
  lemma DoTest(p: Program, pc: nat, m: State, a: nat, pc1: nat, m1: State, v: Value, t: nat, lbl: nat, isAnd: bool, n: nat)
    returns (m': State)
    requires Reaches(p, At(pc, m), a, At(pc1, m1)) && n <= t
    requires Here(p, pc1, [StoreFast(Temp(t)), LoadFast(Temp(t)), if isAnd then GotoIfNot(lbl) else GotoIf(lbl)])
    requires m1.exc == None && Undisturbed(m, m1, n) && m1.stack == m.stack + [v] && m1.iters == m.iters
    ensures Reaches(p, At(pc, m), a + 3, At(if Truthy(p.env, v) == isAnd then pc1 + 3 else Target(p, lbl), m'))
    ensures m' == m1.(stack := m.stack, temps := m1.temps[t := v]) && Undisturbed(m, m', n)
  {
    var test := [StoreFast(Temp(t)), LoadFast(Temp(t)), if isAnd then GotoIfNot(lbl) else GotoIf(lbl)];
    Fetch(p, pc1, test);
    m' := m1.(stack := m.stack, temps := m1.temps[t := v]);
    Then(p, At(pc, m), a, At(pc1, m1));
    assert Step(p, At(pc1, m1)) == At(pc1 + 1, m');
    Then(p, At(pc, m), a + 1, At(pc1 + 1, m'));
    var m2 := m'.PushV(v);
    assert Step(p, At(pc1 + 1, m')) == At(pc1 + 2, m2);
    assert m2.Drop() == m';
    Then(p, At(pc, m), a + 2, At(pc1 + 2, m2));
  }

  /** After the right operand jump over the reload of the left one; or do the reload. */
  lemma JoinShortCut(p: Program, pc: nat, t: nat, n: nat)
    requires Linked(p) && Here(p, pc, [Goto(n + 1), Mark(n), LoadFast(Temp(t)), Mark(n + 1)])
    ensures Moves(p, pc, 2, pc + 4)
    ensures Target(p, n) == pc + 1
  {
    var tail := [Goto(n + 1), Mark(n), LoadFast(Temp(t)), Mark(n + 1)];
    Marked(p, pc, tail, 1);
    Nth(p, pc, tail, 0);
    Nth(p, pc, tail, 3);
    PassGoto(p, pc, n + 1, pc + 3);
  }

  lemma Reload(p: Program, pc: nat, m: State, t: nat, n: nat)
    requires Here(p, pc, [Goto(n + 1), Mark(n), LoadFast(Temp(t)), Mark(n + 1)])
    ensures Reaches(p, At(pc + 1, m), 3, At(pc + 4, m.PushV(m.Read(Temp(t)))))
  {
    Fetch(p, pc, [Goto(n + 1), Mark(n), LoadFast(Temp(t)), Mark(n + 1)]);
    One(p, At(pc + 1, m));
    Then(p, At(pc + 1, m), 1, At(pc + 2, m));
    Then(p, At(pc + 1, m), 2, At(pc + 3, m.PushV(m.Read(Temp(t)))));
  }

  /** A last expression after `a` steps that left the stacks as they were. */
  lemma LastExpr(p: Program, e: Expr, cx: Ctx, n: nat, n1: nat, pc: nat, m: State, a: nat, pc1: nat, m1: State, b: nat, end: nat)
    returns (steps: nat, m': State)
    requires Ready(p, cx) && m1.exc == None && Here(p, pc1, GenExpr(e, cx, n1).code)
    requires Reaches(p, At(pc, m), a, At(pc1, m1)) && Undisturbed(m, m1, n) && n <= n1
    requires m1.stack == m.stack && m1.iters == m.iters
    requires Moves(p, pc1 + |GenExpr(e, cx, n1).code|, b, end)
    ensures Delivers(p, pc, m, end, n, EvalExpr(e, cx.sc, cx.env, m1.w), steps, m')
    decreases e, 2
  {
    var pc2 := pc1 + |GenExpr(e, cx, n1).code|;
    steps, m' := SimExpr(p, e, cx, n1, pc1, m1);
    if EvalExpr(e, cx.sc, cx.env, m1.w).0.Ret? {
      Chain(p, At(pc, m), a, At(pc1, m1), steps, At(pc2, m'));
      Move(p, At(pc, m), a + steps, pc2, m', b, end);
      steps := a + steps + b;
    } else {
      Chain(p, At(pc, m), a, At(pc1, m1), steps, Dispatch(p, m'));
      steps := a + steps;
    }
  }

  lemma LayShortCut(p: Program, e: Expr, cx: Ctx, n: nat, pc: nat)
    requires (e.And? || e.Or?) && Here(p, pc, GenPlain(e, cx, n).code)
    ensures var el := GenExpr(e.left, cx, n + 3);
            var er := GenExpr(e.right, cx, el.next);
            var pc1 := pc + |el.code|;
            var pc3 := pc1 + 3 + |er.code|;
            && Here(p, pc, el.code)
            && Here(p, pc1, [StoreFast(Temp(n + 2)), LoadFast(Temp(n + 2)), if e.And? then GotoIfNot(n) else GotoIf(n)])
            && Here(p, pc1 + 3, er.code)
            && Here(p, pc3, [Goto(n + 1), Mark(n), LoadFast(Temp(n + 2)), Mark(n + 1)])
            && pc + |GenPlain(e, cx, n).code| == pc3 + 4
  {
    var el := GenExpr(e.left, cx, n + 3);
    var er := GenExpr(e.right, cx, el.next);
    var test := [StoreFast(Temp(n + 2)), LoadFast(Temp(n + 2)), if e.And? then GotoIfNot(n) else GotoIf(n)];
    var tail := [Goto(n + 1), Mark(n), LoadFast(Temp(n + 2)), Mark(n + 1)];
    assert GenPlain(e, cx, n).code == el.code + (test + (er.code + tail));
    Split(p, pc, el.code, test + (er.code + tail));
    Split(p, pc + |el.code|, test, er.code + tail);
    Split(p, pc + |el.code| + 3, er.code, tail);
  }

  lemma SimShortCut(p: Program, e: Expr, cx: Ctx, n: nat, pc: nat, m: State) returns (steps: nat, m': State)
    requires Ready(p, cx) && m.exc == None && (e.And? || e.Or?)
    requires Here(p, pc, GenPlain(e, cx, n).code)
    ensures Delivers(p, pc, m, pc + |GenPlain(e, cx, n).code|, n, EvalExpr(e, cx.sc, cx.env, m.w), steps, m')
    decreases e, 0
  {
    hide GenExpr, Run, EvalExprs;
    LayShortCut(p, e, cx, n, pc);
    var el := GenExpr(e.left, cx, n + 3);
    var er := GenExpr(e.right, cx, el.next);
    var pc1 := pc + |el.code|;
    var pc3 := pc1 + 3 + |er.code|;
    JoinShortCut(p, pc3, n + 2, n);
    steps, m' := SimExpr(p, e.left, cx, n + 3, pc, m);
    var x := EvalExpr(e.left, cx.sc, cx.env, m.w).0;
    if x.Ret? {
      m' := DoTest(p, pc, m, steps, pc1, m', x.value, n + 2, n, e.And?, n);
      steps := steps + 3;
      if Truthy(cx.env, x.value) == e.And? {
        steps, m' := LastExpr(p, e.right, cx, n, el.next, pc, m, steps, pc1 + 3, m', 2, pc3 + 4);
      } else {
        Reload(p, pc3, m', n + 2, n);
        Chain(p, At(pc, m), steps, At(pc3 + 1, m'), 3, At(pc3 + 4, m'.PushV(x.value)));
        steps, m' := steps + 3, m'.PushV(x.value);
      }
    }
  }

  /** Branch on the top of the stack: on to the next instruction, or past the mark of `lbl`. */
  lemma DoBranch(p: Program, pc: nat, m: State, a: nat, pc1: nat, m1: State, v: Value, lbl: nat, at: nat, n: nat)
    returns (steps: nat, m': State)
    requires Reaches(p, At(pc, m), a, At(pc1, m1))
    requires Linked(p) && Here(p, pc1, [GotoIfNot(lbl)]) && Here(p, at, [Mark(lbl)])
    requires m1.exc == None && Undisturbed(m, m1, n) && m1.stack == m.stack + [v] && m1.iters == m.iters
    ensures Reaches(p, At(pc, m), steps, At(if Truthy(p.env, v) then pc1 + 1 else at + 1, m'))
    ensures m' == m1.(stack := m.stack) && Undisturbed(m, m', n) && steps > a
  {
    Fetch(p, pc1, [GotoIfNot(lbl)]);
    Marked(p, at, [Mark(lbl)], 0);
    Then(p, At(pc, m), a, At(pc1, m1));
    m' := m1.(stack := m.stack);
    assert m1.Drop() == m';
    steps := a + 1;
    if !Truthy(p.env, v) {
      PassMark(p, at, lbl);
      Move(p, At(pc, m), steps, at, m', 1, at + 1);
      steps := steps + 1;
    }
  }

  lemma JoinIfElse(p: Program, pc3: nat, pc4: nat, n: nat)
    requires Linked(p) && Here(p, pc3, [Goto(n + 1), Mark(n)]) && Here(p, pc4, [Mark(n + 1)])
    ensures Here(p, pc3 + 1, [Mark(n)]) && Moves(p, pc3, 2, pc4 + 1) && Moves(p, pc4, 1, pc4 + 1)
  {
    Nth(p, pc3, [Goto(n + 1), Mark(n)], 0);
    Nth(p, pc3, [Goto(n + 1), Mark(n)], 1);
    PassMark(p, pc4, n + 1);
    PassGoto(p, pc3, n + 1, pc4);
  }

  /** An expression and a branch on it: on to the next instruction, past the mark, or its error. */
  lemma SimTest(p: Program, e: Expr, cx: Ctx, n: nat, n1: nat, pc: nat, m: State, lbl: nat, at: nat)
    returns (steps: nat, m1: State)
    requires Ready(p, cx) && m.exc == None && n <= n1
    requires Here(p, pc, GenExpr(e, cx, n1).code) && Here(p, pc + |GenExpr(e, cx, n1).code|, [GotoIfNot(lbl)]) && Here(p, at, [Mark(lbl)])
    ensures var r := EvalExpr(e, cx.sc, cx.env, m.w);
            && Undisturbed(m, m1, n) && m1.w == r.1
            && (if r.0.Fail? then Fails(p, pc, m, r.0.exc, steps, m1)
                else m1.stack == m.stack && m1.iters == m.iters && m1.exc == None && steps > 0
                     && Reaches(p, At(pc, m), steps, At(if Truthy(cx.env, r.0.value) then pc + |GenExpr(e, cx, n1).code| + 1 else at + 1, m1)))
    decreases e, 4
  {
    steps, m1 := SimExpr(p, e, cx, n1, pc, m);
    var r := EvalExpr(e, cx.sc, cx.env, m.w);
    if r.0.Ret? {
      steps, m1 := DoBranch(p, pc, m, steps, pc + |GenExpr(e, cx, n1).code|, m1, r.0.value, lbl, at, n);
    }
  }

  lemma LayIfElse(p: Program, e: Expr, cx: Ctx, n: nat, pc: nat)
    requires e.IfElse? && Here(p, pc, GenPlain(e, cx, n).code) && Linked(p)
    ensures var ec := GenExpr(e.cond, cx, n + 2);
            var et := GenExpr(e.thn, cx, ec.next);
            var ef := GenExpr(e.els, cx, et.next);
            var pc1 := pc + |ec.code|;
            var pc3 := pc1 + 1 + |et.code|;
            var end := pc + |GenPlain(e, cx, n).code|;
            && Here(p, pc, ec.code) && Here(p, pc1, [GotoIfNot(n)]) && Here(p, pc1 + 1, et.code)
            && Here(p, pc3, [Goto(n + 1), Mark(n)]) && Here(p, pc3 + 2, ef.code)
            && Here(p, pc3 + 2 + |ef.code|, [Mark(n + 1)]) && end == pc3 + 2 + |ef.code| + 1
  {
    hide GenBlock, GenExpr, GenRange, GenStmt, ExecBlock, EvalExpr;
    var ec := GenExpr(e.cond, cx, n + 2);
    var et := GenExpr(e.thn, cx, ec.next);
    var ef := GenExpr(e.els, cx, et.next);
    var mid := [Goto(n + 1), Mark(n)];
    var c3 := mid + (ef.code + [Mark(n + 1)]);
    assert GenPlain(e, cx, n).code == ec.code + ([GotoIfNot(n)] + (et.code + c3));
    var pc1 := pc + |ec.code|;
    var pc3 := pc1 + 1 + |et.code|;
    Split(p, pc, ec.code, [GotoIfNot(n)] + (et.code + c3));
    Split(p, pc1, [GotoIfNot(n)], et.code + c3);
    Split(p, pc1 + 1, et.code, c3);
    Split(p, pc3, mid, ef.code + [Mark(n + 1)]);
    Split(p, pc3 + 2, ef.code, [Mark(n + 1)]);
  }

  lemma PlanIfElse(p: Program, e: Expr, cx: Ctx, n: nat, pc: nat)
    requires e.IfElse? && Here(p, pc, GenPlain(e, cx, n).code) && Linked(p)
    ensures var ec := GenExpr(e.cond, cx, n + 2);
            var et := GenExpr(e.thn, cx, ec.next);
            var pc1 := pc + |ec.code|;
            var pc3 := pc1 + 1 + |et.code|;
            var end := pc + |GenPlain(e, cx, n).code|;
            && Here(p, pc, ec.code) && Here(p, pc1, [GotoIfNot(n)]) && Here(p, pc1 + 1, et.code)
            && Moves(p, pc3, 2, end) && Here(p, pc3 + 1, [Mark(n)])
            && Here(p, pc3 + 2, GenExpr(e.els, cx, et.next).code) && Moves(p, end - 1, 1, end)
            && end == pc3 + 2 + |GenExpr(e.els, cx, et.next).code| + 1
  {
    hide GenExpr, Moves;
    LayIfElse(p, e, cx, n, pc);
    var ec := GenExpr(e.cond, cx, n + 2);
    var end := pc + |GenPlain(e, cx, n).code|;
    JoinIfElse(p, pc + |ec.code| + 1 + |GenExpr(e.thn, cx, ec.next).code|, end - 1, n);
  }

  /** Branch on a pushed value to one of two expressions. */
  lemma Fork(p: Program, e1: Expr, e2: Expr, cx: Ctx, n: nat, n1: nat, n2: nat, pc: nat, m: State,
             a: nat, pc1: nat, m1: State, v: Value, lbl: nat, pc2: nat, end: nat)
    returns (steps: nat, m': State)
    requires Ready(p, cx) && Reaches(p, At(pc, m), a, At(pc1, m1))
    requires m1.exc == None && Undisturbed(m, m1, n) && m1.stack == m.stack + [v] && m1.iters == m.iters
    requires Here(p, pc1, [GotoIfNot(lbl)]) && Here(p, pc2, [Mark(lbl)]) && n <= n1 && n <= n2
    requires Here(p, pc1 + 1, GenExpr(e1, cx, n1).code) && Here(p, pc2 + 1, GenExpr(e2, cx, n2).code)
    requires Moves(p, pc1 + 1 + |GenExpr(e1, cx, n1).code|, 2, end)
    requires Moves(p, pc2 + 1 + |GenExpr(e2, cx, n2).code|, 1, end)
    ensures Delivers(p, pc, m, end, n, EvalExpr(if Truthy(cx.env, v) then e1 else e2, cx.sc, cx.env, m1.w), steps, m')
    decreases if Truthy(cx.env, v) then e1 else e2, 3
  {
    steps, m' := DoBranch(p, pc, m, a, pc1, m1, v, lbl, pc2, n);
    if Truthy(cx.env, v) {
      steps, m' := LastExpr(p, e1, cx, n, n1, pc, m, steps, pc1 + 1, m', 2, end);
    } else {
      steps, m' := LastExpr(p, e2, cx, n, n2, pc, m, steps, pc2 + 1, m', 1, end);
    }
  }

  lemma SimIfElse(p: Program, e: Expr, cx: Ctx, n: nat, pc: nat, m: State) returns (steps: nat, m': State)
    requires Ready(p, cx) && m.exc == None && e.IfElse?
    requires Here(p, pc, GenPlain(e, cx, n).code)
    ensures Delivers(p, pc, m, pc + |GenPlain(e, cx, n).code|, n, EvalExpr(e, cx.sc, cx.env, m.w), steps, m')
    decreases e, 0
  {
    hide GenExpr, GenBlock, Run, Reaches;
    PlanIfElse(p, e, cx, n, pc);
    var ec := GenExpr(e.cond, cx, n + 2);
    var et := GenExpr(e.thn, cx, ec.next);
    var pc1 := pc + |ec.code|;
    steps, m' := SimExpr(p, e.cond, cx, n + 2, pc, m);
    var x := EvalExpr(e.cond, cx.sc, cx.env, m.w).0;
    if x.Ret? {
      steps, m' := Fork(p, e.thn, e.els, cx, n, ec.next, et.next, pc, m, steps, pc1, m', x.value, n,
                        pc1 + 1 + |et.code| + 1, pc + |GenPlain(e, cx, n).code|);
    }
  }
}
