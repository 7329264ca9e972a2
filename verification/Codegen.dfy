/** The code emitted for each construct, as a function of the label counter. */
module Codegen {
  import opened Wrappers
  import opened Syntax
  import opened Semantics
  import opened Machine

  /** Emitted instructions and the label counter afterwards. */
  datatype Emit = Emit(code: Code, next: nat)

  datatype Handler = TryHandler | WithHandler(ctx: nat) | DeferHandler(body: Block)

  datatype LoopKind = Plain | Counter | Iterating

  /** An enclosing loop: where `break` and `continue` go, how many handlers were open
      when it started, and what it keeps on the machine's stacks. */
  datatype LoopInfo = LoopInfo(lbl: Label, brk: nat, cont: nat, depth: nat, kind: LoopKind)

  datatype Ctx = Ctx(sc: Scope, env: Env, handlers: seq<Handler>, loops: seq<LoopInfo>) {
    function Open(h: Handler): Ctx {
      this.(handlers := handlers + [h])
    }

    function Enter(l: LoopInfo): Ctx {
      this.(loops := loops + [l])
    }
  }

  // ----- compile-time folding -----

  const MAX_CONST_STEPS: nat := 100_000
  const MAX_CONST_ALLOC: nat := 4 * 1024 * 1024
  const MAX_CONST_NODES: nat := 50_000

  datatype Budget = Budget(steps: nat, alloc: nat, nodes: nat)

  const FULL_BUDGET := Budget(MAX_CONST_STEPS, 0, 0)

  /** Both a compile-time error and "depends on a runtime value" mean: emit ordinary code. */
  type Folded = Option<(Value, Budget)>

  function Charge(v: Value, b: Budget, bytes: nat, nodes: nat): Folded {
    var b1 := b.(alloc := b.alloc + bytes, nodes := b.nodes + nodes);
    if b1.alloc > MAX_CONST_ALLOC || b1.nodes > MAX_CONST_NODES then None else Some((v, b1))
  }

  function FoldResponse(r: Response, b: Budget): Folded {
    match r
    case Ret(v) => Some((v, b))
    case Fail(_) => None
  }

  /** Orderings are folded on numbers only. */
  function FoldBinary(env: Env, op: BinOp, a: Value, b: Value, left: Budget): Folded {
    if op in {Lt, Le, Gt, Ge} && !(a.Num? && b.Num?) then None
    else FoldResponse(ApplyBinary(env, op, a, b), left)
  }

  function Fold(e: Expr, consts: map<Name, Value>, env: Env, b0: Budget): Folded {
    if b0.steps == 0 then None else
    var b := b0.(steps := b0.steps - 1);
    match e
    case Const(v) => if v.Text? then Charge(v, b, |v.s|, 1) else Some((v, b))
    case Var(x) => if x in consts then Some((consts[x], b)) else None
    case Unary(op, a) =>
      var r := Fold(a, consts, env, b);
      if r.None? then None else FoldResponse(ApplyUnary(env, op, r.value.0), r.value.1)
    case Binary(op, l, r) =>
      var x := Fold(l, consts, env, b);
      if x.None? then None else
      var y := Fold(r, consts, env, x.value.1);
      if y.None? then None else FoldBinary(env, op, x.value.0, y.value.0, y.value.1)
    case And(l, r) =>
      var x := Fold(l, consts, env, b);
      if x.None? || !Truthy(env, x.value.0) then x else Fold(r, consts, env, x.value.1)
    case Or(l, r) =>
      var x := Fold(l, consts, env, b);
      if x.None? || Truthy(env, x.value.0) then x else Fold(r, consts, env, x.value.1)
    case IfElse(c, t, f) =>
      var x := Fold(c, consts, env, b);
      if x.None? then None
      else if Truthy(env, x.value.0) then Fold(t, consts, env, x.value.1)
      else Fold(f, consts, env, x.value.1)
    case Tuple(es) =>
      var r := FoldAll(es, consts, env, b);
      if r.None? then None
      else Charge(Seq(r.value.0), r.value.1, 16 * |r.value.0|, |r.value.0| + 1)
    case _ => None
  }

  function FoldAll(es: Exprs, consts: map<Name, Value>, env: Env, b: Budget): Option<(seq<Value>, Budget)> {
    match es
    case NoExpr => Some(([], b))
    case MoreExpr(e, rest) =>
      var x := Fold(e, consts, env, b);
      if x.None? then None else
      var xs := FoldAll(rest, consts, env, x.value.1);
      if xs.None? then None else Some(([x.value.0] + xs.value.0, xs.value.1))
  }

  function TryEval(e: Expr, cx: Ctx): Option<Value> {
    if e.Const? then None else
    var r := Fold(e, cx.sc.consts, cx.env, FULL_BUDGET);
    if r.None? then None else Some(r.value.0)
  }

  // ----- expressions -----

  function GenExpr(e: Expr, cx: Ctx, n: nat): (r: Emit)
    ensures r.next >= n
    decreases e, 1
  {
    var folded := TryEval(e, cx);
    if folded.Some? then Emit([Push(folded.value)], n) else GenPlain(e, cx, n)
  }

  function GenPlain(e: Expr, cx: Ctx, n: nat): (r: Emit)
    ensures r.next >= n
    decreases e, 0
  {
    match e
    case Const(v) => Emit([Push(v)], n)
    case Var(x) => Emit([if x in cx.sc.locals then LoadFast(Local(x)) else LoadGlobal(x)], n)
    case Unary(op, a) =>
      var ea := GenExpr(a, cx, n);
      Emit(ea.code + [UnaryOp(op)], ea.next)
    case Binary(op, l, r) =>
      var el := GenExpr(l, cx, n);
      var er := GenExpr(r, cx, el.next);
      Emit(el.code + (er.code + [BinaryOp(op)]), er.next)
    case And(l, r) =>
      // labels: n ends the short cut, n + 1 the whole; temporary n + 2
      var el := GenExpr(l, cx, n + 3);
      var er := GenExpr(r, cx, el.next);
      Emit(el.code + ([StoreFast(Temp(n + 2)), LoadFast(Temp(n + 2)), GotoIfNot(n)]
           + (er.code + [Goto(n + 1), Mark(n), LoadFast(Temp(n + 2)), Mark(n + 1)])), er.next)
    case Or(l, r) =>
      var el := GenExpr(l, cx, n + 3);
      var er := GenExpr(r, cx, el.next);
      Emit(el.code + ([StoreFast(Temp(n + 2)), LoadFast(Temp(n + 2)), GotoIf(n)]
           + (er.code + [Goto(n + 1), Mark(n), LoadFast(Temp(n + 2)), Mark(n + 1)])), er.next)
    case IfElse(c, t, f) =>
      var ec := GenExpr(c, cx, n + 2);
      var et := GenExpr(t, cx, ec.next);
      var ef := GenExpr(f, cx, et.next);
      Emit(ec.code + ([GotoIfNot(n)] + (et.code + ([Goto(n + 1), Mark(n)] + (ef.code + [Mark(n + 1)])))), ef.next)
    case Tuple(es) =>
      var ee := GenExprs(es, cx, n);
      Emit(ee.code + [TupleNew(es.Count())], ee.next)
    case Member(o, field) =>
      var eo := GenExpr(o, cx, n);
      Emit(eo.code + [GetAttr(field)], eo.next)
    case Call(f, args) =>
      var ea := GenExprs(args, cx, n);
      var ef := GenExpr(f, cx, ea.next);
      Emit(ea.code + (ef.code + [CallN(args.Count())]), ef.next)
  }

  function GenExprs(es: Exprs, cx: Ctx, n: nat): (r: Emit)
    ensures r.next >= n
    decreases es
  {
    match es
    case NoExpr => Emit([], n)
    case MoreExpr(e, rest) =>
      var ee := GenExpr(e, cx, n);
      var er := GenExprs(rest, cx, ee.next);
      Emit(ee.code + er.code, er.next)
  }

  // ----- match -----

  type Path = seq<nat>

  function LoadPath(path: Path): Code {
    if path == [] then []
    else LoadPath(path[..|path| - 1]) + [Push(Num(path[|path| - 1] as real)), Index]
  }

  function LoadAt(temp: nat, path: Path): Code {
    [LoadFast(Temp(temp))] + LoadPath(path)
  }

  function GenTest(p: Pattern, temp: nat, path: Path, fail: nat, cx: Ctx, n: nat): (r: Emit)
    ensures r.next >= n
    decreases p
  {
    match p
    case BindPat(_) => Emit([], n)
    case ValuePat(e) =>
      var ee := GenExpr(e, cx, n);
      Emit(LoadAt(temp, path) + (ee.code + [MatchEq, GotoIfNot(fail)]), ee.next)
    case SeqPat(ps) =>
      var rest := GenItemTests(ps, temp, path, 0, fail, cx, n);
      Emit(LoadAt(temp, path) + ([IsList, GotoIfNot(fail)]
           + (LoadAt(temp, path) + ([ListLen, Push(Num(ps.Count() as real)), BinaryOp(Eq), GotoIfNot(fail)]
           + rest.code))), rest.next)
  }

  function GenItemTests(ps: Patterns, temp: nat, path: Path, i: nat, fail: nat, cx: Ctx, n: nat): (r: Emit)
    ensures r.next >= n
    decreases ps
  {
    match ps
    case NoPat => Emit([], n)
    case MorePat(p, rest) =>
      var e := GenTest(p, temp, path + [i], fail, cx, n);
      var er := GenItemTests(rest, temp, path, i + 1, fail, cx, e.next);
      Emit(e.code + er.code, er.next)
  }

  function GenBind(p: Pattern, temp: nat, path: Path): Code
    decreases p
  {
    match p
    case BindPat(x) => LoadAt(temp, path) + [BindFast(x)]
    case ValuePat(_) => []
    case SeqPat(ps) => GenItemBinds(ps, temp, path, 0)
  }

  function GenItemBinds(ps: Patterns, temp: nat, path: Path, i: nat): Code
    decreases ps
  {
    match ps
    case NoPat => []
    case MorePat(p, rest) => GenBind(p, temp, path + [i]) + GenItemBinds(rest, temp, path, i + 1)
  }

  /** Tests of the alternatives; alternative `j` jumps to the label `lbls[j]`. */
  function GenAltTests(alts: Patterns, temp: nat, cx: Ctx, n: nat): (r: (Emit, seq<nat>))
    ensures r.0.next >= n && |r.1| == alts.Count()
    decreases alts
  {
    match alts
    case NoPat => (Emit([], n), [])
    case MorePat(p, rest) =>
      var e := GenTest(p, temp, [], n + 1, cx, n + 2);
      var (er, lbls) := GenAltTests(rest, temp, cx, e.next);
      (Emit(e.code + ([Goto(n), Mark(n + 1)] + er.code), er.next), [n] + lbls)
  }

  // ----- statements -----

  /** The innermost loop a `break` or `continue` names. */
  function LoopIndex(loops: seq<LoopInfo>, lbl: Label): Option<nat> {
    if loops == [] then None
    else if Hits(lbl, loops[|loops| - 1].lbl) then Some(|loops| - 1)
    else LoopIndex(loops[..|loops| - 1], lbl)
  }

  function Kinds(loops: seq<LoopInfo>): (r: seq<LoopKind>)
    ensures |r| == |loops|
  {
    seq(|loops|, i requires 0 <= i < |loops| => loops[i].kind)
  }

  /** Drop what loops keep on the stacks, the last one first. */
  function Discards(kinds: seq<LoopKind>): Code {
    if kinds == [] then [] else
    var last := kinds[|kinds| - 1];
    (match last
     case Plain => []
     case Counter => [Pop]
     case Iterating => [IterEnd]) + Discards(kinds[..|kinds| - 1])
  }

  function Counters(kinds: seq<LoopKind>): nat {
    if kinds == [] then 0
    else Counters(kinds[..|kinds| - 1]) + if kinds[|kinds| - 1].Counter? then 1 else 0
  }

  function Iterators(kinds: seq<LoopKind>): nat {
    if kinds == [] then 0
    else Iterators(kinds[..|kinds| - 1]) + if kinds[|kinds| - 1].Iterating? then 1 else 0
  }

  function Pops(k: nat): Code {
    if k == 0 then [] else [Pop] + Pops(k - 1)
  }

  function Rank(exits: bool): nat {
    if exits then 2 else 0
  }

  const CALL_EXIT: Code := [Load(WITH_EXIT), CallN(2)]

  function GenStmt(s: Stmt, keep: bool, cx: Ctx, n: nat): (r: Emit)
    ensures r.next >= n
    decreases Rank(HasExit(s)), s, 1
  {
    match s
    case Eval(e) =>
      var ee := GenExpr(e, cx, n);
      Emit(ee.code + (if keep then [] else [Pop]), ee.next)
    case Let(x, e) =>
      var ee := GenExpr(e, cx, n);
      Emit(ee.code + [BindFast(x)], ee.next)
    case Assign(x, e) =>
      var ee := GenExpr(e, cx, n);
      Emit(ee.code + [StoreFast(Local(x))], ee.next)
    case Throw(e) =>
      var ee := GenExpr(e, cx, n);
      Emit(ee.code + [Raise], ee.next)
    case If(arms, els) =>
      var ea := GenArms(arms, keep, cx, n, n + 1, n + 2);
      var ee := GenElse(els, keep, keep, cx, ea.next);
      Emit(ea.code + (ee.code + [Mark(n)]), ee.next)
    case While(lbl, c, body) =>
      var ec := GenExpr(c, cx, n + 2);
      var eb := GenBlock(body, false, cx.Enter(LoopInfo(lbl, n + 1, n, |cx.handlers|, Plain)), ec.next);
      Emit([Mark(n)] + (ec.code + ([GotoIfNot(n + 1)] + (eb.code + [Goto(n), Mark(n + 1)]))), eb.next)
    case Loop(lbl, count, body) =>
      if count.Some? then
        var ec := GenExpr(count.value, cx, n + 2);
        var el := GenCountdown(lbl, body, cx, n, n + 1, ec.next);
        Emit(ec.code + el.code, el.next)
      else
        var eb := GenBlock(body, false, cx.Enter(LoopInfo(lbl, n + 1, n, |cx.handlers|, Plain)), n + 2);
        Emit([Mark(n)] + (eb.code + [Goto(n), Mark(n + 1)]), eb.next)
    case For(lbl, binder, iterable, body, els) =>
      var ei := GenExpr(iterable, cx, n);
      var el := GenIteration(lbl, binder, body, cx, ei.next);
      var ee := GenElse(els, false, false, cx, el.next);
      Emit(ei.code + ([IterNew] + (el.code + (ee.code + [Mark(ei.next + 4)]))), ee.next)
    case Try(_, _, _) => GenTry(s, keep, cx, n)
    case With(_, _, _) => GenWith(s, keep, cx, n)
    case Match(_, _, _) => GenMatch(s, keep, cx, n)
    case Defer(_) => Emit([], n)
    case Break(lbl) => GenExit(Broke(lbl), cx, n)
    case Continue(lbl) => GenExit(Continued(lbl), cx, n)
    case Return(result) =>
      if result.None? then
        var ex := GenExit(Returned(Unit, 0), cx, n);
        Emit([Push(Unit)] + ex.code, ex.next)
      else if result.value.Var? && result.value.x in cx.sc.locals then
        GenExit(ReturnedVar(result.value.x, 0), cx, n)
      else
        var ee := GenExpr(result.value, cx, n);
        var ex := GenExit(Returned(Unit, 0), cx, ee.next);
        Emit(ee.code + ex.code, ex.next)
  }

  function GenTry(s: Stmt, keep: bool, cx: Ctx, n: nat): (r: Emit)
    requires s.Try?
    ensures r.next >= n
    decreases Rank(HasExit(s)), s, 0
  {
    var elseLbl := if s.els.Some? then n + 1 else 0;
    var endLbl := if s.els.Some? then n + 2 else n + 1;
    var eb := GenBlock(s.body, keep && s.els.None?, cx.Open(TryHandler), endLbl + 1);
    var ec := GenClauses(s.catches, keep, cx, eb.next, endLbl, eb.next + s.catches.Count());
    var ee := GenElse(s.els, keep, false, cx, ec.next);
    Emit([EnterTry(n, elseLbl, endLbl)] + (eb.code + ([EndTry, Mark(n)]
         + (GenDispatch(s.catches, eb.next) + (ec.code
         + ((if s.els.Some? then [Mark(elseLbl)] else []) + (ee.code + [Mark(endLbl)])))))), ee.next)
  }

  /** Temporaries: n the context, n + 1 the exception, n + 2 the entered value. */
  function GenWith(s: Stmt, keep: bool, cx: Ctx, n: nat): (r: Emit)
    requires s.With?
    ensures r.next >= n
    decreases Rank(HasExit(s)), s, 0
  {
    var ec := GenExpr(s.context, cx, n + 3);
    var k := ec.next;
    var eb := GenBlock(s.body, keep, cx.Open(WithHandler(n)), k + 4);
    Emit(ec.code + (GenWithEnter(n, k) + (GenAlias(s.alias, n) + (eb.code + (GenWithLeave(n, k)
         + ((if keep then [Push(Unit)] else []) + [Mark(k + 3)]))))), eb.next)
  }

  function GenMatch(s: Stmt, keep: bool, cx: Ctx, n: nat): (r: Emit)
    requires s.Match?
    ensures r.next >= n
    decreases Rank(HasExit(s)), s, 0
  {
    var es := GenExpr(s.subject, cx, n + 1);
    var ec := GenCases(s.cases, n, keep, cx, es.next, es.next + 1, es.next + 2);
    var ee := GenElse(s.els, keep, keep, cx, ec.next);
    Emit(es.code + ([StoreFast(Temp(n))] + (ec.code + (ee.code + [Mark(es.next)]))), ee.next)
  }

  /** `unit`: an absent `else` still has to leave a value. */
  function GenElse(els: Option<Block>, keep: bool, unit: bool, cx: Ctx, n: nat): (r: Emit)
    ensures r.next >= n
    decreases Rank(els.Some? && BlockExits(els.value)), els, 3
  {
    if els.Some? then GenBlock(els.value, keep, cx, n)
    else Emit(if unit then [Push(Unit)] else [], n)
  }

  function GenArms(arms: Arms, keep: bool, cx: Ctx, endLbl: nat, nextLbl: nat, n: nat): (r: Emit)
    ensures r.next >= n
    decreases Rank(ArmsExit(arms)), arms, 0
  {
    var ec := GenExpr(arms.cond, cx, n);
    var eb := GenBlock(arms.body, keep, cx, ec.next);
    var head := ec.code + ([GotoIfNot(nextLbl)] + (eb.code + [Goto(endLbl), Mark(nextLbl)]));
    match arms
    case LastArm(_, _) => Emit(head, eb.next)
    case Arm(_, _, rest) =>
      var er := GenArms(rest, keep, cx, endLbl, eb.next, eb.next + 1);
      Emit(head + er.code, er.next)
  }

  function GenCountdown(lbl: Label, body: Block, cx: Ctx, start: nat, endLbl: nat, n: nat): (r: Emit)
    ensures r.next >= n
    decreases Rank(BlockExits(body)), body, 3
  {
    var eb := GenBlock(body, false, cx.Enter(LoopInfo(lbl, endLbl, start, |cx.handlers|, Counter)), n + 1);
    Emit([Mark(start), LoopCountdown(n)] + (eb.code + [Goto(start), Mark(n), Mark(endLbl)]), eb.next)
  }

  /** Labels: n start, n + 1 continue, n + 2 break, n + 3 exhausted, n + 4 end of the statement. */
  function GenIteration(lbl: Label, binder: Option<Name>, body: Block, cx: Ctx, n: nat): (r: Emit)
    ensures r.next >= n
    decreases Rank(BlockExits(body)), body, 3
  {
    var eb := GenBlock(body, false, cx.Enter(LoopInfo(lbl, n + 2, n + 1, |cx.handlers|, Iterating)), n + 5);
    Emit([Mark(n), IterNext, GotoIfNot(n + 3), if binder.Some? then BindFast(binder.value) else Pop]
         + (eb.code
         + [Mark(n + 1), Goto(n), Mark(n + 2), IterEnd, Goto(n + 4), Mark(n + 3), IterEnd]), eb.next)
  }

  /** Clause `j` has the label `first + j`. */
  function GenTypeTests(cs: Catches, first: nat): Code {
    match cs
    case NoCatch => []
    case Catch(p, _, rest) =>
      (if p.BindExc? && p.typeName.Some? then [ExcMatch(p.typeName.value), GotoIf(first)] else [])
      + GenTypeTests(rest, first + 1)
  }

  function GenDispatch(cs: Catches, first: nat): Code {
    var untyped := SelectUntyped(cs, first);
    GenTypeTests(cs, first) + [if untyped.Some? then Goto(untyped.value) else Rethrow]
  }

  function GenCaught(p: CatchPattern): Code {
    (if p.BindExc? then [PushExc, BindFast(p.x)] else []) + [PopTry]
  }

  function GenClauses(cs: Catches, keep: bool, cx: Ctx, first: nat, endLbl: nat, n: nat): (r: Emit)
    ensures r.next >= n
    decreases Rank(CatchesExit(cs)), cs, 0
  {
    match cs
    case NoCatch => Emit([], n)
    case Catch(p, body, rest) =>
      var eb := GenBlock(body, keep, cx, n);
      var er := GenClauses(rest, keep, cx, first + 1, endLbl, eb.next);
      Emit([Mark(first)] + (GenCaught(p) + (eb.code + ([Goto(endLbl)] + er.code))), er.next)
  }

  function GenWithEnter(n: nat, k: nat): Code {
    [StoreFast(Temp(n)), LoadFast(Temp(n)), GetAttr(WITH_ENTER), CallN(0), StoreFast(Temp(n + 2)),
     EnterTry(k, k + 1, k + 3)]
  }

  function GenAlias(alias: Option<Name>, n: nat): Code {
    if alias.Some? then [LoadFast(Temp(n + 2)), BindFast(alias.value)] else []
  }

  function GenWithLeave(n: nat, k: nat): Code {
    [EndTry, Mark(k + 1), LoadFast(Temp(n)), Push(Unit)] + CALL_EXIT + [Pop, Goto(k + 3),
     Mark(k), PushExc, StoreFast(Temp(n + 1)), PopTry, LoadFast(Temp(n)), LoadFast(Temp(n + 1))]
    + CALL_EXIT + [GotoIf(k + 2), LoadFast(Temp(n + 1)), Raise, Mark(k + 2)]
  }

  function GenCases(cs: Cases, temp: nat, keep: bool, cx: Ctx, endLbl: nat, nextLbl: nat, n: nat): (r: Emit)
    ensures r.next >= n
    decreases Rank(CasesExit(cs)), cs, 0
  {
    match cs
    case NoCase => Emit([Mark(nextLbl)], n)
    case Case(Single(p), body, rest) =>
      // labels: n the next case, n + 1 the body
      var et := GenTest(p, temp, [], n, cx, n + 2);
      var eb := GenBlock(body, keep, cx, et.next);
      var er := GenCases(rest, temp, keep, cx, endLbl, n, eb.next);
      Emit([Mark(nextLbl)] + (et.code + ([Goto(n + 1), Mark(n + 1)]
           + (GenBind(p, temp, []) + (eb.code + ([Goto(endLbl)] + er.code))))), er.next)
    case Case(OneOf(alts), body, rest) =>
      var (et, lbls) := GenAltTests(alts, temp, cx, n + 1);
      var eb := GenAltBodies(alts, lbls, temp, body, keep, cx, endLbl, et.next);
      var er := GenCases(rest, temp, keep, cx, endLbl, n, eb.next);
      Emit([Mark(nextLbl)] + (et.code + ([Goto(n)] + (eb.code + er.code))), er.next)
  }

  /** The body is emitted once for every alternative. */
  function GenAltBodies(alts: Patterns, lbls: seq<nat>, temp: nat, body: Block, keep: bool, cx: Ctx, endLbl: nat, n: nat)
    : (r: Emit)
    requires |lbls| == alts.Count()
    ensures r.next >= n
    decreases Rank(BlockExits(body)), body, 3, alts
  {
    match alts
    case NoPat => Emit([], n)
    case MorePat(p, rest) =>
      var eb := GenBlock(body, keep, cx, n);
      var er := GenAltBodies(rest, lbls[1..], temp, body, keep, cx, endLbl, eb.next);
      Emit([Mark(lbls[0])] + (GenBind(p, temp, []) + (eb.code + ([Goto(endLbl)] + er.code))), er.next)
  }

  function GenBlock(b: Block, keep: bool, cx: Ctx, n: nat): (r: Emit)
    ensures r.next >= n
    decreases Rank(BlockExits(b)), b, 2
  {
    var er := GenRange(b, keep && BlockYields(b), cx, n);
    Emit(er.code + (if keep && !BlockYields(b) then [Push(Unit)] else []), er.next)
  }

  function GenRange(b: Block, keep: bool, cx: Ctx, n: nat): (r: Emit)
    ensures r.next >= n
    decreases Rank(BlockExits(b)), b, 1
  {
    match b
    case Nil => Emit([], n)
    case Cons(Defer(cleanup), rest) =>
      // labels: n catch, n + 1 success, n + 2 end
      assert b.head == Defer(cleanup) && HasExit(b.head) == BlockExits(cleanup);
      var er := GenRange(rest, keep, cx.Open(DeferHandler(cleanup)), n + 3);
      var e1 := GenBlock(cleanup, false, cx, er.next);
      var e2 := GenBlock(cleanup, false, cx, e1.next);
      Emit([EnterTry(n, n + 1, n + 2)] + (er.code + ([EndTry, Mark(n + 1)] + (e1.code
           + ([Goto(n + 2), Mark(n), PopTry] + (e2.code + [Rethrow, Mark(n + 2)]))))), e2.next)
    case Cons(s, rest) =>
      var es := GenStmt(s, keep && rest.Nil?, cx, n);
      var er := GenRange(rest, keep, cx, es.next);
      Emit(es.code + er.code, er.next)
  }

  /** Cleanup code of one open handler on the way out. A body with an exit in it is
      rejected before its handler is opened, so that case emits nothing. */
  function GenCleanup(h: Handler, cx: Ctx, n: nat): (r: Emit)
    ensures r.next >= n
    decreases 1, 0, 0
  {
    match h
    case TryHandler => Emit([PopTry], n)
    case WithHandler(c) => Emit([PopTry, LoadFast(Temp(c)), Push(Unit)] + CALL_EXIT + [Pop], n)
    case DeferHandler(b) =>
      if BlockExits(b) then Emit([], n) else
      var eb := GenBlock(b, false, cx, n);
      Emit([PopTry] + eb.code, eb.next)
  }

  function GenCleanups(hs: seq<Handler>, cx: Ctx, n: nat): (r: Emit)
    ensures r.next >= n
    decreases 1, 1, |hs|
  {
    if hs == [] then Emit([], n) else
    var e1 := GenCleanup(hs[|hs| - 1], cx, n);
    var er := GenCleanups(hs[..|hs| - 1], cx, e1.next);
    Emit(e1.code + er.code, er.next)
  }

  /** After the cleanups: drop what the loops left on the stacks and go. `kinds` are the
      loops inside the target loop, or all of them for a return. */
  function GenLeave(o: Outcome, loops: seq<LoopInfo>, pend: seq<LoopKind>, n: nat): Emit {
    match o
    case Broke(lbl) =>
      var i := LoopIndex(loops, lbl);
      if i.None? || i.value >= |loops| then Emit([], n) else
      Emit(Discards(Kinds(loops[i.value + 1..]) + pend)
           + (if loops[i.value].kind.Counter? then [Pop] else []) + [Goto(loops[i.value].brk)], n)
    case Continued(lbl) =>
      var i := LoopIndex(loops, lbl);
      if i.None? || i.value >= |loops| then Emit([], n) else
      Emit(Discards(Kinds(loops[i.value + 1..]) + pend) + [Goto(loops[i.value].cont)], n)
    case Returned(_, _) =>
      var k := Counters(Kinds(loops) + pend);
      if k == 0 then Emit([RetTop], n)
      else Emit([StoreFast(Temp(n))] + Pops(k) + [LoadFast(Temp(n)), RetTop], n + 1)
    case ReturnedVar(x, _) => Emit(Pops(Counters(Kinds(loops) + pend)) + [RetFast(Local(x))], n)
    case _ => Emit([], n)
  }

  /** How many handlers stay open at the place an exit goes to. */
  function ExitDepth(o: Outcome, cx: Ctx): nat {
    if o.Broke? || o.Continued? then
      var i := LoopIndex(cx.loops, o.lbl);
      if i.Some? && i.value < |cx.loops| && cx.loops[i.value].depth <= |cx.handlers|
      then cx.loops[i.value].depth else |cx.handlers|
    else 0
  }

  function GenExit(o: Outcome, cx: Ctx, n: nat): (r: Emit)
    ensures r.next >= n
    decreases 1, 2, 0
  {
    var ec := GenCleanups(cx.handlers[ExitDepth(o, cx)..], cx, n);
    var el := GenLeave(o, cx.loops, [], ec.next);
    Emit(ec.code + el.code, el.next)
  }

  /** A whole function body: a value left at its end is returned. */
  function GenBody(b: Block, sc: Scope, env: Env): Code {
    var cx := Ctx(sc, env, [], []);
    GenBlock(b, true, cx, 0).code + [RetTop]
  }

  // ----- what the generator accepts -----

  predicate Compiles(s: Stmt, loops: seq<Label>) {
    match s
    case If(arms, els) => ArmsCompile(arms, loops) && (els.Some? ==> BlockCompiles(els.value, loops))
    case While(lbl, _, body) => BlockCompiles(body, loops + [lbl])
    case Loop(lbl, _, body) => BlockCompiles(body, loops + [lbl])
    case For(lbl, _, _, body, els) =>
      BlockCompiles(body, loops + [lbl]) && (els.Some? ==> BlockCompiles(els.value, loops))
    case Try(body, catches, els) =>
      BlockCompiles(body, loops) && CatchesCompile(catches, loops)
      && (els.Some? ==> BlockCompiles(els.value, loops))
    case With(_, _, body) => BlockCompiles(body, loops)
    case Match(_, cases, els) => CasesCompile(cases, loops) && (els.Some? ==> BlockCompiles(els.value, loops))
    case Defer(body) => !BlockExits(body) && BlockCompiles(body, loops)
    case Break(lbl) => exists i :: 0 <= i < |loops| && Hits(lbl, loops[i])
    case Continue(lbl) => exists i :: 0 <= i < |loops| && Hits(lbl, loops[i])
    case _ => true
  }

  predicate BlockCompiles(b: Block, loops: seq<Label>) {
    match b
    case Nil => true
    case Cons(s, rest) => Compiles(s, loops) && BlockCompiles(rest, loops)
  }

  predicate ArmsCompile(arms: Arms, loops: seq<Label>) {
    BlockCompiles(arms.body, loops) && (arms.Arm? ==> ArmsCompile(arms.rest, loops))
  }

  predicate CatchesCompile(cs: Catches, loops: seq<Label>) {
    match cs
    case NoCatch => true
    case Catch(_, body, rest) => BlockCompiles(body, loops) && CatchesCompile(rest, loops)
  }

  predicate CasesCompile(cs: Cases, loops: seq<Label>) {
    match cs
    case NoCase => true
    case Case(p, body, rest) => (p == OneOf(NoPat) || BlockCompiles(body, loops)) && CasesCompile(rest, loops)
  }
}
