/** The labels of statement code, and the table that resolves them. */
module StatementLabels {
  import opened Wrappers
  import opened Syntax
  import opened Semantics
  import opened Machine
  import opened Codegen
  import opened Simulation
  import opened Exits
  import opened Layouts
  import opened Labels
  import opened Regions

  /** The labels the open loops may be left or continued by. */
  ghost predicate LoopsIn(cx: Ctx, o: set<nat>) {
    forall i :: 0 <= i < |cx.loops| ==> cx.loops[i].brk in o && cx.loops[i].cont in o
  }

  lemma EnterIn(cx: Ctx, l: LoopInfo, o: set<nat>, o1: set<nat>)
    requires LoopsIn(cx, o) && o <= o1 && l.brk in o1 && l.cont in o1
    ensures LoopsIn(cx.Enter(l), o1)
  {
  }

  lemma {:induction false} NeatStmt(s: Stmt, keep: bool, cx: Ctx, n: nat, o: set<nat>)
    requires LoopsIn(cx, o)
    ensures Neat(GenStmt(s, keep, cx, n).code, n, GenStmt(s, keep, cx, n).next, {}, o)
    decreases Rank(HasExit(s)), s, 3
  {
    match s
    case If(_, _) => NeatIf(s, keep, cx, n, o);
    case While(_, _, _) => NeatWhile(s, cx, n, o);
    case Loop(_, count, _) => if count.Some? { NeatCounted(s, cx, n, o); } else { NeatLoop(s, cx, n, o); }
    case For(_, _, _, _, _) => NeatFor(s, cx, n, o);
    case Try(_, _, _) => NeatTry(s, keep, cx, n, o);
    case With(_, _, _) => NeatWith(s, keep, cx, n, o);
    case Match(_, _, _) => NeatMatch(s, keep, cx, n, o);
    case Defer(_) => Unmarked([], n, o);
    case Break(lbl) => NeatExit(Broke(lbl), cx, n, o);
    case Continue(lbl) => NeatExit(Continued(lbl), cx, n, o);
    case Return(_) => NeatReturn(s, cx, n, o);
    case _ => NeatSimple(s, keep, cx, n, o);
  }

  lemma NeatSimple(s: Stmt, keep: bool, cx: Ctx, n: nat, o: set<nat>)
    requires s.Eval? || s.Let? || s.Assign? || s.Throw?
    ensures Neat(GenStmt(s, keep, cx, n).code, n, GenStmt(s, keep, cx, n).next, {}, o)
  {
    hide Neat;
    NeatExpr(s.e, cx, n, o);
    var tail: Code := match s
      case Eval(_) => if keep then [] else [Pop]
      case Let(x, _) => [BindFast(x)]
      case Assign(x, _) => [StoreFast(Local(x))]
      case Throw(_) => [Raise];
    Tail(GenExpr(s.e, cx, n).code, tail, n, GenExpr(s.e, cx, n).next, {}, o);
  }

  lemma NeatReturn(s: Stmt, cx: Ctx, n: nat, o: set<nat>)
    requires s.Return? && LoopsIn(cx, o)
    ensures Neat(GenStmt(s, false, cx, n).code, n, GenStmt(s, false, cx, n).next, {}, o)
    decreases 2, s, 1
  {
    hide Neat;
    if s.result.None? {
      NeatExit(Returned(Unit, 0), cx, n, o);
      Lead([Push(Unit)], GenExit(Returned(Unit, 0), cx, n).code, n, GenExit(Returned(Unit, 0), cx, n).next, {}, o);
    } else if s.result.value.Var? && s.result.value.x in cx.sc.locals {
      NeatExit(ReturnedVar(s.result.value.x, 0), cx, n, o);
    } else {
      var ee := GenExpr(s.result.value, cx, n);
      var ex := GenExit(Returned(Unit, 0), cx, ee.next);
      NeatExpr(s.result.value, cx, n, o);
      NeatExit(Returned(Unit, 0), cx, ee.next, o);
      Join(ee.code, ex.code, n, ee.next, ex.next, {}, {}, {}, o);
    }
  }

  lemma NeatIf(s: Stmt, keep: bool, cx: Ctx, n: nat, o: set<nat>)
    requires s.If? && LoopsIn(cx, o)
    ensures Neat(GenStmt(s, keep, cx, n).code, n, GenStmt(s, keep, cx, n).next, {}, o)
    decreases Rank(HasExit(s)), s, 1
  {
    hide Neat;
    var o1 := o + {n};
    var ea := GenArms(s.arms, keep, cx, n, n + 1, n + 2);
    var ee := GenElse(s.els, keep, keep, cx, ea.next);
    NeatArms(s.arms, keep, cx, n, n + 1, n + 2, o1);
    NeatElse(s.els, keep, keep, cx, ea.next, o1);
    Place(n, ee.next, o1);
    Join(ee.code, [Mark(n)], ea.next, ee.next, ee.next, {}, {n}, {n}, o1);
    Join(ea.code, ee.code + [Mark(n)], n + 2, ea.next, ee.next, {n + 1}, {n}, {n, n + 1}, o1);
    Absorb(ea.code + (ee.code + [Mark(n)]), n, n + 2, ee.next, {n, n + 1}, {}, o1, o);
  }

  lemma {:induction false} NeatArms(arms: Arms, keep: bool, cx: Ctx, endLbl: nat, nextLbl: nat, n: nat, o: set<nat>)
    requires LoopsIn(cx, o) && endLbl in o && nextLbl < n
    ensures var e := GenArms(arms, keep, cx, endLbl, nextLbl, n); Neat(e.code, n, e.next, {nextLbl}, o)
    decreases Rank(ArmsExit(arms)), arms, 0
  {
    hide Neat;
    var o1 := o + {nextLbl};
    var ec := GenExpr(arms.cond, cx, n);
    var eb := GenBlock(arms.body, keep, cx, ec.next);
    var mid := eb.code + [Goto(endLbl), Mark(nextLbl)];
    var head := ec.code + ([GotoIfNot(nextLbl)] + mid);
    NeatExpr(arms.cond, cx, n, o1);
    NeatBlock(arms.body, keep, cx, ec.next, o1);
    JumpPlace(Goto(endLbl), nextLbl, eb.next, o1);
    Join(eb.code, [Goto(endLbl), Mark(nextLbl)], ec.next, eb.next, eb.next, {}, {nextLbl}, {nextLbl}, o1);
    Lead([GotoIfNot(nextLbl)], mid, ec.next, eb.next, {nextLbl}, o1);
    Join(ec.code, [GotoIfNot(nextLbl)] + mid, n, ec.next, eb.next, {}, {nextLbl}, {nextLbl}, o1);
    Absorb(head, n, n, eb.next, {nextLbl}, {nextLbl}, o1, o);
    if arms.Arm? { NeatMoreArms(arms, keep, cx, endLbl, nextLbl, n, eb.next, head, o); }
  }

  lemma NeatMoreArms(arms: Arms, keep: bool, cx: Ctx, endLbl: nat, nextLbl: nat, n: nat, k: nat, head: Code, o: set<nat>)
    requires LoopsIn(cx, o) && endLbl in o && nextLbl < n <= k && arms.Arm? && Neat(head, n, k, {nextLbl}, o)
    ensures var er := GenArms(arms.rest, keep, cx, endLbl, k, k + 1); Neat(head + er.code, n, er.next, {nextLbl}, o)
    decreases Rank(ArmsExit(arms.rest)), arms.rest, 1
  {
    hide Neat;
    var er := GenArms(arms.rest, keep, cx, endLbl, k, k + 1);
    NeatArms(arms.rest, keep, cx, endLbl, k, k + 1, o);
    Absorb(er.code, k, k + 1, er.next, {k}, {}, o, o);
    Join(head, er.code, n, k, er.next, {nextLbl}, {}, {nextLbl}, o);
  }

  lemma {:induction false} NeatElse(els: Option<Block>, keep: bool, unit: bool, cx: Ctx, n: nat, o: set<nat>)
    requires LoopsIn(cx, o)
    ensures Neat(GenElse(els, keep, unit, cx, n).code, n, GenElse(els, keep, unit, cx, n).next, {}, o)
    decreases Rank(els.Some? && BlockExits(els.value)), els, 3
  {
    if els.Some? { NeatBlock(els.value, keep, cx, n, o); } else { Unmarked(if unit then [Push(Unit)] else [], n, o); }
  }

  // ----- loops -----

  lemma NeatWhile(s: Stmt, cx: Ctx, n: nat, o: set<nat>)
    requires s.While? && LoopsIn(cx, o)
    ensures Neat(GenStmt(s, false, cx, n).code, n, GenStmt(s, false, cx, n).next, {}, o)
    decreases Rank(HasExit(s)), s, 1
  {
    hide Neat;
    var o1 := o + {n, n + 1};
    var l := LoopOf(s.lbl, n + 1, n, cx, LoopKind.Plain);
    var ec := GenExpr(s.cond, cx, n + 2);
    var eb := GenBlock(s.body, false, cx.Enter(l), ec.next);
    EnterIn(cx, l, o, o1);
    NeatExpr(s.cond, cx, n + 2, o1);
    NeatBlock(s.body, false, cx.Enter(l), ec.next, o1);
    NeatLoopBody(eb.code, n, ec.next, eb.next, o1);
    var c2 := eb.code + [Goto(n), Mark(n + 1)];
    Lead([GotoIfNot(n + 1)], c2, ec.next, eb.next, {n + 1}, o1);
    Join(ec.code, [GotoIfNot(n + 1)] + c2, n + 2, ec.next, eb.next, {}, {n + 1}, {n + 1}, o1);
    NeatHead(ec.code + ([GotoIfNot(n + 1)] + c2), n, eb.next, o1, o);
  }

  lemma NeatLoopBody(body: Code, n: nat, k: nat, j: nat, o: set<nat>)
    requires Neat(body, k, j, {}, o) && n + 1 < k <= j && n in o
    ensures Neat(body + [Goto(n), Mark(n + 1)], k, j, {n + 1}, o)
  {
    hide Neat;
    JumpPlace(Goto(n), n + 1, j, o);
    Join(body, [Goto(n), Mark(n + 1)], k, j, j, {}, {n + 1}, {n + 1}, o);
  }

  lemma NeatHead(rest: Code, n: nat, k: nat, o1: set<nat>, o: set<nat>)
    requires Neat(rest, n + 2, k, {n + 1}, o1) && n + 2 <= k && o1 == o + {n, n + 1}
    ensures Neat([Mark(n)] + rest, n, k, {}, o)
  {
    hide Neat;
    Place(n, n + 2, o1);
    Join([Mark(n)], rest, n + 2, n + 2, k, {n}, {n + 1}, {n, n + 1}, o1);
    Absorb([Mark(n)] + rest, n, n + 2, k, {n, n + 1}, {}, o1, o);
  }

  lemma NeatLoop(s: Stmt, cx: Ctx, n: nat, o: set<nat>)
    requires s.Loop? && s.count.None? && LoopsIn(cx, o)
    ensures Neat(GenStmt(s, false, cx, n).code, n, GenStmt(s, false, cx, n).next, {}, o)
    decreases Rank(HasExit(s)), s, 1
  {
    hide Neat;
    var o1 := o + {n, n + 1};
    var l := LoopOf(s.lbl, n + 1, n, cx, LoopKind.Plain);
    var eb := GenBlock(s.body, false, cx.Enter(l), n + 2);
    EnterIn(cx, l, o, o1);
    NeatBlock(s.body, false, cx.Enter(l), n + 2, o1);
    NeatLoopBody(eb.code, n, n + 2, eb.next, o1);
    NeatHead(eb.code + [Goto(n), Mark(n + 1)], n, eb.next, o1, o);
    assert GenStmt(s, false, cx, n) == Emit([Mark(n)] + (eb.code + [Goto(n), Mark(n + 1)]), eb.next);
  }

  lemma NeatCounted(s: Stmt, cx: Ctx, n: nat, o: set<nat>)
    requires s.Loop? && s.count.Some? && LoopsIn(cx, o)
    ensures Neat(GenStmt(s, false, cx, n).code, n, GenStmt(s, false, cx, n).next, {}, o)
    decreases Rank(HasExit(s)), s, 1
  {
    hide Neat;
    var o1 := o + {n, n + 1};
    var ec := GenExpr(s.count.value, cx, n + 2);
    var el := GenCountdown(s.lbl, s.body, cx, n, n + 1, ec.next);
    NeatExpr(s.count.value, cx, n + 2, o1);
    NeatCountdown(s.lbl, s.body, cx, n, n + 1, ec.next, o1);
    Join(ec.code, el.code, n + 2, ec.next, el.next, {}, {n, n + 1}, {n, n + 1}, o1);
    Absorb(ec.code + el.code, n, n + 2, el.next, {n, n + 1}, {}, o1, o);
  }

  lemma NeatCountdown(lbl: Label, body: Block, cx: Ctx, start: nat, endLbl: nat, n: nat, o: set<nat>)
    requires LoopsIn(cx, o) && start in o && endLbl in o && start < endLbl < n
    ensures var e := GenCountdown(lbl, body, cx, start, endLbl, n); Neat(e.code, n, e.next, {start, endLbl}, o)
    decreases Rank(BlockExits(body)), body, 4
  {
    var o1 := o + {n};
    var l := LoopOf(lbl, endLbl, start, cx, Counter);
    var eb := GenBlock(body, false, cx.Enter(l), n + 1);
    EnterIn(cx, l, o, o1);
    NeatBlock(body, false, cx.Enter(l), n + 1, o1);
    NeatCountdownCode(eb.code, start, endLbl, n, eb.next, o);
  }

  lemma NeatCountdownCode(body: Code, start: nat, endLbl: nat, n: nat, k: nat, o: set<nat>)
    requires Neat(body, n + 1, k, {}, o + {n}) && start in o && start < endLbl < n < k
    ensures Neat([Mark(start), LoopCountdown(n)] + (body + [Goto(start), Mark(n), Mark(endLbl)]), n, k, {start, endLbl}, o)
  {
    var o1 := o + {n};
    var head, tail := [Mark(start), LoopCountdown(n)], [Goto(start), Mark(n), Mark(endLbl)];
    assert head[0] == Mark(start) && tail[1] == Mark(n) && tail[2] == Mark(endLbl);
    assert Neat(head, n + 1, n + 1, {start}, o1);
    assert Neat(tail, k, k, {n, endLbl}, o1);
    NeatSandwich(head, body, tail, n, k, {start}, {n, endLbl}, o1);
    Absorb(head + (body + tail), n, n + 1, k, {start} + {n, endLbl}, {start, endLbl}, o1, o);
  }

  lemma NeatSandwich(a: Code, b: Code, c: Code, n: nat, k: nat, ga: set<nat>, gc: set<nat>, o: set<nat>)
    requires Neat(a, n + 1, n + 1, ga, o) && Neat(b, n + 1, k, {}, o) && Neat(c, k, k, gc, o) && n + 1 <= k
    requires ga !! gc && (forall l :: l in ga ==> l < n + 1) && (forall l :: l in gc ==> l < n + 1)
    ensures Neat(a + (b + c), n + 1, k, ga + gc, o)
  {
    hide Neat;
    Join(b, c, n + 1, k, k, {}, gc, gc, o);
    Join(a, b + c, n + 1, n + 1, k, ga, gc, ga + gc, o);
  }

  lemma NeatFor(s: Stmt, cx: Ctx, n: nat, o: set<nat>)
    requires s.For? && LoopsIn(cx, o)
    ensures Neat(GenStmt(s, false, cx, n).code, n, GenStmt(s, false, cx, n).next, {}, o)
    decreases Rank(HasExit(s)), s, 1
  {
    hide Neat;
    var ei := GenExpr(s.iterable, cx, n);
    var k := ei.next;
    var o1 := o + {k + 4};
    var el := GenIteration(s.lbl, s.binder, s.body, cx, k);
    var ee := GenElse(s.els, false, false, cx, el.next);
    NeatExpr(s.iterable, cx, n, o);
    NeatIteration(s.lbl, s.binder, s.body, cx, k, o1);
    NeatElse(s.els, false, false, cx, el.next, o1);
    Place(k + 4, ee.next, o1);
    Join(ee.code, [Mark(k + 4)], el.next, ee.next, ee.next, {}, {k + 4}, {k + 4}, o1);
    NeatForCode(ei.code, el.code, ee.code + [Mark(k + 4)], n, k, el.next, ee.next, o);
  }

  lemma NeatForCode(a: Code, b: Code, c: Code, n: nat, k: nat, j: nat, i: nat, o: set<nat>)
    requires Neat(a, n, k, {}, o) && Neat(b, k + 5, j, {k, k + 1, k + 2, k + 3}, o + {k + 4}) && Neat(c, j, i, {k + 4}, o + {k + 4})
    requires n <= k && k + 5 <= j <= i
    ensures Neat(a + ([IterNew] + (b + c)), n, i, {}, o)
  {
    hide Neat;
    var g := {k, k + 1, k + 2, k + 3, k + 4};
    var o1 := o + {k + 4};
    Join(b, c, k + 5, j, i, {k, k + 1, k + 2, k + 3}, {k + 4}, g, o1);
    Absorb(b + c, k, k + 5, i, g, {}, o1, o);
    Lead([IterNew], b + c, k, i, {}, o);
    Join(a, [IterNew] + (b + c), n, k, i, {}, {}, {}, o);
  }

  /** The labels k to k + 3 of a `for` are marked here; k + 4 ends the statement. */
  lemma NeatIteration(lbl: Label, binder: Option<Name>, body: Block, cx: Ctx, k: nat, o: set<nat>)
    requires LoopsIn(cx, o) && k + 4 in o
    ensures var e := GenIteration(lbl, binder, body, cx, k); Neat(e.code, k + 5, e.next, {k, k + 1, k + 2, k + 3}, o)
    decreases Rank(BlockExits(body)), body, 4
  {
    var o1 := o + {k, k + 1, k + 2, k + 3};
    var l := LoopOf(lbl, k + 2, k + 1, cx, Iterating);
    var eb := GenBlock(body, false, cx.Enter(l), k + 5);
    EnterIn(cx, l, o, o1);
    NeatBlock(body, false, cx.Enter(l), k + 5, o1);
    NeatIterationCode(binder, eb.code, k, eb.next, o);
  }

  lemma NeatIterationCode(binder: Option<Name>, body: Code, k: nat, j: nat, o: set<nat>)
    requires Neat(body, k + 5, j, {}, o + {k, k + 1, k + 2, k + 3}) && k + 4 in o && k + 5 <= j
    ensures Neat(IterationHead(binder, k) + (body + IterationTail(k)), k + 5, j, {k, k + 1, k + 2, k + 3}, o)
  {
    hide Neat;
    var o1 := o + {k, k + 1, k + 2, k + 3};
    var head := IterationHead(binder, k);
    NeatIterationHead(binder, k, o1);
    NeatIterationTail(k, j, o1);
    NeatSandwich(head, body, IterationTail(k), k + 4, j, {k}, {k + 1, k + 2, k + 3}, o1);
    Absorb(head + (body + IterationTail(k)), k + 5, k + 5, j, {k} + {k + 1, k + 2, k + 3}, {k, k + 1, k + 2, k + 3}, o1, o);
  }

  function IterationHead(binder: Option<Name>, k: nat): Code {
    [Mark(k), IterNext, GotoIfNot(k + 3), if binder.Some? then BindFast(binder.value) else Pop]
  }

  function IterationTail(k: nat): Code {
    [Mark(k + 1), Goto(k), Mark(k + 2), IterEnd, Goto(k + 4), Mark(k + 3), IterEnd]
  }

  lemma NeatIterationHead(binder: Option<Name>, k: nat, o: set<nat>)
    requires k in o && k + 3 in o
    ensures Neat(IterationHead(binder, k), k + 5, k + 5, {k}, o)
  {
    assert IterationHead(binder, k)[0] == Mark(k);
  }

  lemma NeatIterationTail(k: nat, j: nat, o: set<nat>)
    requires k in o && k + 4 in o && k + 1 in o && k + 2 in o && k + 3 in o && k + 5 <= j
    ensures Neat(IterationTail(k), j, j, {k + 1, k + 2, k + 3}, o)
  {
    var tail := IterationTail(k);
    assert tail[0] == Mark(k + 1) && tail[2] == Mark(k + 2) && tail[5] == Mark(k + 3);
  }

  // ----- try -----

  function Range(first: nat, count: nat): (r: set<nat>)
    ensures forall l: nat :: l in r <==> first <= l < first + count
    decreases count
  {
    if count == 0 then {} else {first} + Range(first + 1, count - 1)
  }

  lemma {:induction false} TypeTestTargets(cs: Catches, first: nat, o: set<nat>)
    requires Range(first, cs.Count()) <= o
    ensures forall i :: 0 <= i < |GenTypeTests(cs, first)| ==> !GenTypeTests(cs, first)[i].Mark? && Targets(GenTypeTests(cs, first)[i]) <= o
    decreases cs
  {
    if cs.Catch? {
      assert first in Range(first, cs.Count());
      assert Range(first + 1, cs.rest.Count()) <= Range(first, cs.Count());
      TypeTestTargets(cs.rest, first + 1, o);
    }
  }

  /** The dispatch jumps only to the labels of the clauses. */
  lemma NeatDispatch(cs: Catches, first: nat, rest: Code, n: nat, k: nat, g: set<nat>, o: set<nat>)
    requires Neat(rest, n, k, g, o) && Range(first, cs.Count()) <= o && n <= k && forall l :: l in g ==> l < n
    ensures Neat(GenDispatch(cs, first) + rest, n, k, g, o)
  {
    hide Neat;
    TypeTestTargets(cs, first, o);
    UntypedShift(cs, first, first);
    Lead(GenDispatch(cs, first), rest, n, k, g, o);
  }

  lemma {:induction false} NeatClauses(cs: Catches, keep: bool, cx: Ctx, first: nat, endLbl: nat, n: nat, o: set<nat>)
    requires LoopsIn(cx, o) && endLbl in o && first + cs.Count() <= n
    ensures var e := GenClauses(cs, keep, cx, first, endLbl, n); Neat(e.code, n, e.next, Range(first, cs.Count()), o)
    decreases Rank(CatchesExit(cs)), cs, 0
  {
    hide Neat;
    if cs.NoCatch? {
      Unmarked([], n, o);
      assert Range(first, 0) == {};
    } else {
      var eb := GenBlock(cs.body, keep, cx, n);
      var er := GenClauses(cs.rest, keep, cx, first + 1, endLbl, eb.next);
      var g := Range(first + 1, cs.rest.Count());
      NeatBlock(cs.body, keep, cx, n, o);
      NeatClauses(cs.rest, keep, cx, first + 1, endLbl, eb.next, o);
      Lead([Goto(endLbl)], er.code, eb.next, er.next, g, o);
      Join(eb.code, [Goto(endLbl)] + er.code, n, eb.next, er.next, {}, g, g, o);
      NeatClauseHead(cs.pattern, first, eb.code + ([Goto(endLbl)] + er.code), n, er.next, g, o);
      assert Range(first, cs.Count()) == {first} + g;
    }
  }

  lemma NeatClauseHead(p: CatchPattern, first: nat, rest: Code, n: nat, k: nat, g: set<nat>, o: set<nat>)
    requires Neat(rest, n, k, g, o) && first !in g && first < n <= k && forall l :: l in g ==> l < n
    ensures Neat([Mark(first)] + (GenCaught(p) + rest), n, k, {first} + g, o)
  {
    hide Neat;
    Lead(GenCaught(p), rest, n, k, g, o);
    Place(first, n, o);
    Join([Mark(first)], GenCaught(p) + rest, n, n, k, {first}, g, {first} + g, o);
  }

  lemma NeatTry(s: Stmt, keep: bool, cx: Ctx, n: nat, o: set<nat>)
    requires s.Try? && LoopsIn(cx, o)
    ensures Neat(GenTry(s, keep, cx, n).code, n, GenTry(s, keep, cx, n).next, {}, o)
    decreases Rank(HasExit(s)), s, 2
  {
    hide Neat, GenRange, GenBlock, GenClauses, GenDispatch;
    var end := EndLbl(s, n);
    var g := if s.els.Some? then {n, n + 1, end} else {n, end};
    var o1 := o + g;
    var eb := TryBody(s, keep, cx, n);
    var tail := TryTail(s, keep, cx, n, eb.next);
    var next := GenTry(s, keep, cx, n).next;
    var rest := [EndTry, Mark(n)] + (GenDispatch(s.catches, eb.next) + tail);
    var head := [EnterTry(n, ElseLbl(s, n), end)];
    NeatBlock(s.body, keep && s.els.None?, cx.Open(TryHandler), end + 1, o1);
    NeatTryRest(s, keep, cx, n, eb.next, o1);
    Join(eb.code, rest, end + 1, eb.next, next, {}, g, g, o1);
    Lead(head, eb.code + rest, end + 1, next, g, o1);
    assert GenTry(s, keep, cx, n).code == head + (eb.code + rest);
    Absorb(head + (eb.code + rest), n, end + 1, next, g, {}, o1, o);
  }

  lemma NeatTryRest(s: Stmt, keep: bool, cx: Ctx, n: nat, k: nat, o: set<nat>)
    requires s.Try? && LoopsIn(cx, o) && EndLbl(s, n) in o && EndLbl(s, n) < k
    ensures var g := if s.els.Some? then {n, n + 1, EndLbl(s, n)} else {n, EndLbl(s, n)};
            var ec := TryClauses(s, keep, cx, n, k);
            Neat([EndTry, Mark(n)] + (GenDispatch(s.catches, k) + TryTail(s, keep, cx, n, k)), k,
                 GenElse(s.els, keep, false, cx, ec.next).next, g, o)
    decreases Rank(HasExit(s)), s, 1
  {
    hide Neat;
    var m := k + s.catches.Count();
    var r := Range(k, s.catches.Count());
    var o1 := o + r;
    var g := if s.els.Some? then {n + 1, EndLbl(s, n)} else {EndLbl(s, n)};
    var ec := TryClauses(s, keep, cx, n, k);
    var ee := GenElse(s.els, keep, false, cx, ec.next);
    var tail := TryTail(s, keep, cx, n, k);
    NeatTryTail(s, keep, cx, n, k, o1);
    NeatDispatch(s.catches, k, tail, m, ee.next, r + g, o1);
    JumpPlace(EndTry, n, m, o1);
    Join([EndTry, Mark(n)], GenDispatch(s.catches, k) + tail, m, m, ee.next, {n}, r + g, {n} + g + r, o1);
    Absorb([EndTry, Mark(n)] + (GenDispatch(s.catches, k) + tail), k, m, ee.next, {n} + g + r, {n} + g, o1, o);
    assert {n} + g == if s.els.Some? then {n, n + 1, EndLbl(s, n)} else {n, EndLbl(s, n)};
  }

  lemma NeatTryTail(s: Stmt, keep: bool, cx: Ctx, n: nat, k: nat, o: set<nat>)
    requires s.Try? && LoopsIn(cx, o) && EndLbl(s, n) in o && EndLbl(s, n) < k
    ensures var g := if s.els.Some? then {n + 1, EndLbl(s, n)} else {EndLbl(s, n)};
            var ec := TryClauses(s, keep, cx, n, k);
            Neat(TryTail(s, keep, cx, n, k), k + s.catches.Count(), GenElse(s.els, keep, false, cx, ec.next).next,
                 Range(k, s.catches.Count()) + g, o)
    decreases Rank(CatchesExit(s.catches) || (s.els.Some? && BlockExits(s.els.value))), s, 0
  {
    hide Neat;
    var end := EndLbl(s, n);
    var m := k + s.catches.Count();
    var ec := TryClauses(s, keep, cx, n, k);
    var ee := GenElse(s.els, keep, false, cx, ec.next);
    NeatClauses(s.catches, keep, cx, k, end, m, o);
    NeatElse(s.els, keep, false, cx, ec.next, o);
    Place(end, ee.next, o);
    Join(ee.code, [Mark(end)], ec.next, ee.next, ee.next, {}, {end}, {end}, o);
    var r := Range(k, s.catches.Count());
    if s.els.Some? {
      Place(n + 1, ec.next, o);
      Join([Mark(n + 1)], ee.code + [Mark(end)], ec.next, ec.next, ee.next, {n + 1}, {end}, {n + 1, end}, o);
      Join(ec.code, [Mark(n + 1)] + (ee.code + [Mark(end)]), m, ec.next, ee.next, r, {n + 1, end}, r + {n + 1, end}, o);
    } else {
      assert [] + (ee.code + [Mark(end)]) == ee.code + [Mark(end)];
      Join(ec.code, ee.code + [Mark(end)], m, ec.next, ee.next, r, {end}, r + {end}, o);
    }
  }

  // ----- with -----

  lemma NeatWith(s: Stmt, keep: bool, cx: Ctx, n: nat, o: set<nat>)
    requires s.With? && LoopsIn(cx, o)
    ensures Neat(GenWith(s, keep, cx, n).code, n, GenWith(s, keep, cx, n).next, {}, o)
    decreases Rank(HasExit(s)), s, 1
  {
    hide Neat, GenWith, GenExpr, GenBlock, GenWithEnter, GenWithLeave, GenAlias, BlockExits, LoopsIn;
    var ec := GenExpr(s.context, cx, n + 3);
    var k := ec.next;
    var g := {k, k + 1, k + 2, k + 3};
    var o1 := o + g;
    var eb := GenBlock(s.body, keep, cx.Open(WithHandler(n)), k + 4);
    var leave := GenWithLeave(n, k) + ((if keep then [Push(Unit)] else []) + [Mark(k + 3)]);
    WithParts(s, keep, cx, n);
    NeatExpr(s.context, cx, n + 3, o);
    WithLoops(cx, WithHandler(n), o, o1);
    NeatBlock(s.body, keep, cx.Open(WithHandler(n)), k + 4, o1);
    NeatWithLeave(n, k, keep, eb.next, o1);
    Join(eb.code, leave, k + 4, eb.next, eb.next, {}, g, g, o1);
    NeatWithEnter(s.alias, n, k, eb.code + leave, eb.next, o);
    Join(ec.code, GenWithEnter(n, k) + (GenAlias(s.alias, n) + (eb.code + leave)), n + 3, k, eb.next, {}, {}, {}, o);
    Absorb(GenWith(s, keep, cx, n).code, n, n + 3, eb.next, {}, {}, o, o);
  }

  lemma WithParts(s: Stmt, keep: bool, cx: Ctx, n: nat)
    requires s.With?
    ensures var ec := GenExpr(s.context, cx, n + 3);
            var k := ec.next;
            var eb := GenBlock(s.body, keep, cx.Open(WithHandler(n)), k + 4);
            var leave := GenWithLeave(n, k) + ((if keep then [Push(Unit)] else []) + [Mark(k + 3)]);
            GenWith(s, keep, cx, n) == Emit(ec.code + (GenWithEnter(n, k) + (GenAlias(s.alias, n) + (eb.code + leave))), eb.next)
    ensures HasExit(s) == BlockExits(s.body)
  {
    hide GenExpr, GenBlock, GenWithEnter, GenWithLeave, GenAlias, BlockExits;
  }

  lemma WithLoops(cx: Ctx, h: Handler, o: set<nat>, o1: set<nat>)
    requires LoopsIn(cx, o) && o <= o1
    ensures LoopsIn(cx.Open(h), o1)
  {
  }

  lemma NeatWithEnter(alias: Option<Name>, n: nat, k: nat, rest: Code, j: nat, o: set<nat>)
    requires Neat(rest, k + 4, j, {k, k + 1, k + 2, k + 3}, o + {k, k + 1, k + 2, k + 3}) && k + 4 <= j
    ensures Neat(GenWithEnter(n, k) + (GenAlias(alias, n) + rest), k, j, {}, o)
  {
    hide Neat;
    var g := {k, k + 1, k + 2, k + 3};
    var o1 := o + g;
    Lead(GenAlias(alias, n), rest, k + 4, j, g, o1);
    Lead(GenWithEnter(n, k), GenAlias(alias, n) + rest, k + 4, j, g, o1);
    Absorb(GenWithEnter(n, k) + (GenAlias(alias, n) + rest), k, k + 4, j, g, {}, o1, o);
  }

  lemma NeatWithLeave(n: nat, k: nat, keep: bool, j: nat, o: set<nat>)
    requires k + 2 in o && k + 3 in o && k + 4 <= j
    ensures Neat(GenWithLeave(n, k) + ((if keep then [Push(Unit)] else []) + [Mark(k + 3)]), j, j, {k, k + 1, k + 2, k + 3}, o)
  {
    hide Neat, GenWithLeave, LeavePlain, LeaveRaised;
    var c1, c3 := LeavePlain(n), LeaveRaised(n, k) + [Mark(k + 2)];
    NeatRaised(n, k, j, o);
    JumpPlace(Goto(k + 3), k, j, o);
    Join([Goto(k + 3), Mark(k)], c3, j, j, j, {k}, {k + 2}, {k, k + 2}, o);
    NeatQuietLeave(n, [Goto(k + 3), Mark(k)] + c3, j, {k, k + 2}, o);
    JumpPlace(EndTry, k + 1, j, o);
    Join([EndTry, Mark(k + 1)], c1 + ([Goto(k + 3), Mark(k)] + c3), j, j, j, {k + 1}, {k, k + 2}, {k, k + 1, k + 2}, o);
    LeaveShape(n, k);
    NeatWithEnd(GenWithLeave(n, k), k, keep, j, o);
  }

  function LeavePlain(n: nat): Code {
    [LoadFast(Temp(n)), Push(Unit), Load(WITH_EXIT), CallN(2), Pop]
  }

  function LeaveRaised(n: nat, k: nat): Code {
    [PushExc, StoreFast(Temp(n + 1)), PopTry, LoadFast(Temp(n)), LoadFast(Temp(n + 1)), Load(WITH_EXIT), CallN(2),
     GotoIf(k + 2), LoadFast(Temp(n + 1)), Raise]
  }

  lemma LeaveShape(n: nat, k: nat)
    ensures GenWithLeave(n, k) == [EndTry, Mark(k + 1)] + (LeavePlain(n) + ([Goto(k + 3), Mark(k)] + (LeaveRaised(n, k) + [Mark(k + 2)])))
  {
  }

  lemma NeatRaised(n: nat, k: nat, j: nat, o: set<nat>)
    requires k + 2 in o && k + 4 <= j
    ensures Neat(LeaveRaised(n, k) + [Mark(k + 2)], j, j, {k + 2}, o)
  {
    hide Neat;
    Place(k + 2, j, o);
    Lead(LeaveRaised(n, k), [Mark(k + 2)], j, j, {k + 2}, o);
  }

  lemma NeatQuietLeave(n: nat, rest: Code, j: nat, g: set<nat>, o: set<nat>)
    requires Neat(rest, j, j, g, o) && forall l :: l in g ==> l < j
    ensures Neat(LeavePlain(n) + rest, j, j, g, o)
  {
    hide Neat;
    Lead(LeavePlain(n), rest, j, j, g, o);
  }

  lemma NeatWithEnd(leave: Code, k: nat, keep: bool, j: nat, o: set<nat>)
    requires Neat(leave, j, j, {k, k + 1, k + 2}, o) && k + 4 <= j
    ensures Neat(leave + ((if keep then [Push(Unit)] else []) + [Mark(k + 3)]), j, j, {k, k + 1, k + 2, k + 3}, o)
  {
    hide Neat;
    Place(k + 3, j, o);
    Lead(if keep then [Push(Unit)] else [], [Mark(k + 3)], j, j, {k + 3}, o);
    Join(leave, (if keep then [Push(Unit)] else []) + [Mark(k + 3)], j, j, j, {k, k + 1, k + 2}, {k + 3}, {k, k + 1, k + 2, k + 3}, o);
  }

  // ----- match -----

  lemma NeatMatch(s: Stmt, keep: bool, cx: Ctx, n: nat, o: set<nat>)
    requires s.Match? && LoopsIn(cx, o)
    ensures Neat(GenMatch(s, keep, cx, n).code, n, GenMatch(s, keep, cx, n).next, {}, o)
    decreases Rank(HasExit(s)), s, 1
  {
    hide Neat;
    var es := GenExpr(s.subject, cx, n + 1);
    var k := es.next;
    var o1 := o + {k};
    var ec := GenCases(s.cases, n, keep, cx, k, k + 1, k + 2);
    var ee := GenElse(s.els, keep, keep, cx, ec.next);
    NeatExpr(s.subject, cx, n + 1, o);
    NeatCases(s.cases, n, keep, cx, k, k + 1, k + 2, o1);
    NeatElse(s.els, keep, keep, cx, ec.next, o1);
    Place(k, ee.next, o1);
    Join(ee.code, [Mark(k)], ec.next, ee.next, ee.next, {}, {k}, {k}, o1);
    NeatMatchCode(es.code, n, ec.code, ee.code + [Mark(k)], k, ec.next, ee.next, o);
  }

  lemma NeatMatchCode(a: Code, n: nat, b: Code, c: Code, k: nat, j: nat, i: nat, o: set<nat>)
    requires Neat(a, n + 1, k, {}, o) && Neat(b, k + 2, j, {k + 1}, o + {k}) && Neat(c, j, i, {k}, o + {k}) && n < k && k + 2 <= j <= i
    ensures Neat(a + ([StoreFast(Temp(n))] + (b + c)), n, i, {}, o)
  {
    hide Neat;
    Join(b, c, k + 2, j, i, {k + 1}, {k}, {k, k + 1}, o + {k});
    Absorb(b + c, k, k + 2, i, {k, k + 1}, {}, o + {k}, o);
    Lead([StoreFast(Temp(n))], b + c, k, i, {}, o);
    Join(a, [StoreFast(Temp(n))] + (b + c), n + 1, k, i, {}, {}, {}, o);
    Absorb(a + ([StoreFast(Temp(n))] + (b + c)), n, n + 1, i, {}, {}, o, o);
  }

  lemma {:induction false} NeatCases(cs: Cases, temp: nat, keep: bool, cx: Ctx, endLbl: nat, nextLbl: nat, n: nat, o: set<nat>)
    requires LoopsIn(cx, o) && endLbl in o && nextLbl < n
    ensures var e := GenCases(cs, temp, keep, cx, endLbl, nextLbl, n); Neat(e.code, n, e.next, {nextLbl}, o)
    decreases Rank(CasesExit(cs)), cs, 1
  {
    if cs.NoCase? { Place(nextLbl, n, o); }
    else if cs.pattern.Single? { NeatSingle(cs, temp, keep, cx, endLbl, nextLbl, n, o); }
    else { NeatOneOf(cs, temp, keep, cx, endLbl, nextLbl, n, o); }
  }

  lemma NeatSingle(cs: Cases, temp: nat, keep: bool, cx: Ctx, endLbl: nat, nextLbl: nat, n: nat, o: set<nat>)
    requires LoopsIn(cx, o) && endLbl in o && nextLbl < n && cs.Case? && cs.pattern.Single?
    ensures var e := GenCases(cs, temp, keep, cx, endLbl, nextLbl, n); Neat(e.code, n, e.next, {nextLbl}, o)
    decreases Rank(CasesExit(cs)), cs, 0
  {
    hide Neat;
    var o1 := o + {n, n + 1};
    var q := cs.pattern.p;
    var et := GenTest(q, temp, [], n, cx, n + 2);
    var eb := GenBlock(cs.body, keep, cx, et.next);
    var er := GenCases(cs.rest, temp, keep, cx, endLbl, n, eb.next);
    NeatTest(q, temp, [], n, cx, n + 2, o1);
    NeatBlock(cs.body, keep, cx, et.next, o1);
    NeatCases(cs.rest, temp, keep, cx, endLbl, n, eb.next, o1);
    BindInert(q, temp, []);
    NeatSingleCode(et.code, GenBind(q, temp, []), eb.code, er.code, endLbl, nextLbl, n, et.next, eb.next, er.next, o);
  }

  lemma NeatSingleCode(t: Code, bind: Code, body: Code, rest: Code, endLbl: nat, nextLbl: nat, n: nat, k: nat, j: nat, i: nat, o: set<nat>)
    requires nextLbl < n && n + 2 <= k <= j <= i && endLbl in o && Inert(bind)
    requires Neat(t, n + 2, k, {}, o + {n, n + 1}) && Neat(body, k, j, {}, o + {n, n + 1}) && Neat(rest, j, i, {n}, o + {n, n + 1})
    ensures Neat([Mark(nextLbl)] + (t + ([Goto(n + 1), Mark(n + 1)] + (bind + (body + ([Goto(endLbl)] + rest))))), n, i, {nextLbl}, o)
  {
    hide Neat;
    var o1 := o + {n, n + 1};
    var c1 := body + ([Goto(endLbl)] + rest);
    Lead([Goto(endLbl)], rest, j, i, {n}, o1);
    Join(body, [Goto(endLbl)] + rest, k, j, i, {}, {n}, {n}, o1);
    Lead(bind, c1, k, i, {n}, o1);
    JumpPlace(Goto(n + 1), n + 1, k, o1);
    Join([Goto(n + 1), Mark(n + 1)], bind + c1, k, k, i, {n + 1}, {n}, {n, n + 1}, o1);
    var c2 := [Goto(n + 1), Mark(n + 1)] + (bind + c1);
    Join(t, c2, n + 2, k, i, {}, {n, n + 1}, {n, n + 1}, o1);
    NeatCaseHead(t + c2, nextLbl, n, n + 2, i, {n, n + 1}, o1, o);
  }

  /** The mark before a case, in front of code whose own labels are `g`. */
  lemma NeatCaseHead(rest: Code, nextLbl: nat, n: nat, n1: nat, k: nat, g: set<nat>, o1: set<nat>, o: set<nat>)
    requires Neat(rest, n1, k, g, o1) && nextLbl < n <= n1 <= k && (forall l :: l in g ==> n <= l < k) && o1 <= o + g
    ensures Neat([Mark(nextLbl)] + rest, n, k, {nextLbl}, o)
  {
    hide Neat;
    Absorb(rest, n, n1, k, g, {}, o1, o);
    Place(nextLbl, n, o);
    Join([Mark(nextLbl)], rest, n, n, k, {nextLbl}, {}, {nextLbl}, o);
  }

  lemma NeatOneOf(cs: Cases, temp: nat, keep: bool, cx: Ctx, endLbl: nat, nextLbl: nat, n: nat, o: set<nat>)
    requires LoopsIn(cx, o) && endLbl in o && nextLbl < n && cs.Case? && cs.pattern.OneOf?
    ensures var e := GenCases(cs, temp, keep, cx, endLbl, nextLbl, n); Neat(e.code, n, e.next, {nextLbl}, o)
    decreases Rank(CasesExit(cs)), cs, 0
  {
    hide Neat;
    var (et, lbls) := GenAltTests(cs.pattern.alts, temp, cx, n + 1);
    var g := BodyLabels(lbls);
    var o1 := o + {n} + g;
    var eb := GenAltBodies(cs.pattern.alts, lbls, temp, cs.body, keep, cx, endLbl, et.next);
    var er := GenCases(cs.rest, temp, keep, cx, endLbl, n, eb.next);
    NeatAltTests(cs.pattern.alts, temp, cx, n + 1, o1);
    NeatAltBodies(cs.pattern.alts, lbls, temp, cs.body, keep, cx, endLbl, et.next, o1);
    NeatCases(cs.rest, temp, keep, cx, endLbl, n, eb.next, o1);
    NeatOneOfCode(et.code, lbls, eb.code, er.code, nextLbl, n, et.next, eb.next, er.next, o);
  }

  lemma NeatOneOfCode(t: Code, lbls: seq<nat>, bodies: Code, rest: Code, nextLbl: nat, n: nat, k: nat, j: nat, i: nat, o: set<nat>)
    requires nextLbl < n < k <= j <= i && Between(lbls, n + 1, k) && Avoids(t, lbls)
    requires var o1 := o + {n} + BodyLabels(lbls);
             Neat(t, n + 1, k, {}, o1) && Neat(bodies, k, j, BodyLabels(lbls), o1) && Neat(rest, j, i, {n}, o1)
    ensures Neat([Mark(nextLbl)] + (t + ([Goto(n)] + (bodies + rest))), n, i, {nextLbl}, o)
  {
    hide Neat;
    var g := BodyLabels(lbls);
    var o1 := o + {n} + g;
    Join(bodies, rest, k, j, i, g, {n}, g + {n}, o1);
    Lead([Goto(n)], bodies + rest, k, i, g + {n}, o1);
    JoinBodies(t, [Goto(n)] + (bodies + rest), n, k, i, lbls, o1);
    NeatCaseHead(t + ([Goto(n)] + (bodies + rest)), nextLbl, n, n + 1, i, g + {n}, o1, o);
  }

  /** The tests of alternatives, then code that marks the labels the tests left open. */
  lemma JoinBodies(t: Code, rest: Code, n: nat, k: nat, i: nat, lbls: seq<nat>, o: set<nat>)
    requires n < k <= i && Between(lbls, n + 1, k) && Avoids(t, lbls)
    requires Neat(t, n + 1, k, {}, o) && Neat(rest, k, i, BodyLabels(lbls) + {n}, o)
    ensures Neat(t + rest, n + 1, i, BodyLabels(lbls) + {n}, o)
  {
    var c := t + rest;
    forall l: nat ensures Has(c, l) == (Has(t, l) || Has(rest, l)) { HasInSum(t, rest, l); }
    forall x | 0 <= x < |c| ensures c[x] == if x < |t| then t[x] else rest[x - |t|] { }
  }

  lemma {:induction false} NeatAltBodies(alts: Patterns, lbls: seq<nat>, temp: nat, body: Block, keep: bool, cx: Ctx, endLbl: nat, n: nat, o: set<nat>)
    requires LoopsIn(cx, o) && endLbl in o && |lbls| == alts.Count() && Between(lbls, 0, n)
    ensures var e := GenAltBodies(alts, lbls, temp, body, keep, cx, endLbl, n); Neat(e.code, n, e.next, BodyLabels(lbls), o)
    decreases Rank(BlockExits(body)), body, 4, alts
  {
    hide Neat, GenBlock, GenRange;
    if alts.NoPat? {
      Unmarked([], n, o);
      assert BodyLabels(lbls) == {};
    } else {
      OpenAltBodies(alts, lbls, temp, body, keep, cx, endLbl, n);
      var eb := GenBlock(body, keep, cx, n);
      var er := GenAltBodies(alts.tail, lbls[1..], temp, body, keep, cx, endLbl, eb.next);
      NeatBlock(body, keep, cx, n, o);
      NeatAltBodies(alts.tail, lbls[1..], temp, body, keep, cx, endLbl, eb.next, o);
      BindInert(alts.head, temp, []);
      assert lbls == [lbls[0]] + lbls[1..];
      NeatAltBodyCode(lbls[0], GenBind(alts.head, temp, []), eb.code, endLbl, er.code, n, eb.next, er.next, BodyLabels(lbls[1..]), o);
      assert BodyLabels(lbls) == {lbls[0]} + BodyLabels(lbls[1..]);
    }
  }

  lemma NeatAltBodyCode(lbl: nat, bind: Code, body: Code, endLbl: nat, rest: Code, n: nat, k: nat, j: nat, g: set<nat>, o: set<nat>)
    requires Inert(bind) && endLbl in o && Neat(body, n, k, {}, o) && Neat(rest, k, j, g, o) && n <= k <= j
    requires lbl < n && lbl !in g && forall l :: l in g ==> l < n
    ensures Neat(AltBodyCode(lbl, bind, body, endLbl, rest), n, j, {lbl} + g, o)
  {
    hide Neat;
    Lead([Goto(endLbl)], rest, k, j, g, o);
    Join(body, [Goto(endLbl)] + rest, n, k, j, {}, g, g, o);
    Lead(bind, body + ([Goto(endLbl)] + rest), n, j, g, o);
    Place(lbl, n, o);
    Join([Mark(lbl)], bind + (body + ([Goto(endLbl)] + rest)), n, n, j, {lbl}, g, {lbl} + g, o);
  }

  // ----- blocks and exits -----

  lemma {:induction false} NeatBlock(b: Block, keep: bool, cx: Ctx, n: nat, o: set<nat>)
    requires LoopsIn(cx, o)
    ensures Neat(GenBlock(b, keep, cx, n).code, n, GenBlock(b, keep, cx, n).next, {}, o)
    decreases Rank(BlockExits(b)), b, 3
  {
    hide Neat;
    NeatRange(b, keep && BlockYields(b), cx, n, o);
    var er := GenRange(b, keep && BlockYields(b), cx, n);
    Tail(er.code, if keep && !BlockYields(b) then [Push(Unit)] else [], n, er.next, {}, o);
  }

  lemma {:induction false} NeatRange(b: Block, keep: bool, cx: Ctx, n: nat, o: set<nat>)
    requires LoopsIn(cx, o)
    ensures Neat(GenRange(b, keep, cx, n).code, n, GenRange(b, keep, cx, n).next, {}, o)
    decreases Rank(BlockExits(b)), b, 2
  {
    if b.Nil? {
      Unmarked([], n, o);
    } else if b.head.Defer? {
      NeatDefer(b, keep, cx, n, o);
    } else {
      hide Neat;
      var es := GenStmt(b.head, keep && b.tail.Nil?, cx, n);
      NeatStmt(b.head, keep && b.tail.Nil?, cx, n, o);
      NeatRange(b.tail, keep, cx, es.next, o);
      Join(es.code, GenRange(b.tail, keep, cx, es.next).code, n, es.next, GenRange(b, keep, cx, n).next, {}, {}, {}, o);
    }
  }

  lemma NeatDefer(b: Block, keep: bool, cx: Ctx, n: nat, o: set<nat>)
    requires LoopsIn(cx, o) && b.Cons? && b.head.Defer?
    ensures Neat(GenRange(b, keep, cx, n).code, n, GenRange(b, keep, cx, n).next, {}, o)
    decreases Rank(BlockExits(b)), b, 1
  {
    hide Neat;
    var o1 := o + {n, n + 1, n + 2};
    var cleanup := b.head.body;
    assert HasExit(b.head) == BlockExits(cleanup);
    var er := GenRange(b.tail, keep, cx.Open(DeferHandler(cleanup)), n + 3);
    var e1 := GenBlock(cleanup, false, cx, er.next);
    var e2 := GenBlock(cleanup, false, cx, e1.next);
    NeatRange(b.tail, keep, cx.Open(DeferHandler(cleanup)), n + 3, o1);
    NeatBlock(cleanup, false, cx, er.next, o1);
    NeatBlock(cleanup, false, cx, e1.next, o1);
    NeatDeferCode(er.code, e1.code, e2.code, n, er.next, e1.next, e2.next, o);
  }

  lemma NeatDeferCode(a: Code, b: Code, c: Code, n: nat, k: nat, j: nat, i: nat, o: set<nat>)
    requires n + 3 <= k <= j <= i
    requires var o1 := o + {n, n + 1, n + 2}; Neat(a, n + 3, k, {}, o1) && Neat(b, k, j, {}, o1) && Neat(c, j, i, {}, o1)
    ensures Neat([EnterTry(n, n + 1, n + 2)] + (a + ([EndTry, Mark(n + 1)] + (b + ([Goto(n + 2), Mark(n), PopTry] + (c + [Rethrow, Mark(n + 2)]))))),
                 n, i, {}, o)
  {
    hide Neat;
    var o1 := o + {n, n + 1, n + 2};
    var g := {n, n + 1, n + 2};
    JumpPlace(Rethrow, n + 2, i, o1);
    Join(c, [Rethrow, Mark(n + 2)], j, i, i, {}, {n + 2}, {n + 2}, o1);
    var c1 := c + [Rethrow, Mark(n + 2)];
    JumpPlace(Goto(n + 2), n, j, o1);
    Tail([Goto(n + 2), Mark(n)], [PopTry], j, j, {n}, o1);
    assert [Goto(n + 2), Mark(n), PopTry] == [Goto(n + 2), Mark(n)] + [PopTry];
    Join([Goto(n + 2), Mark(n), PopTry], c1, j, j, i, {n}, {n + 2}, {n, n + 2}, o1);
    var c2 := [Goto(n + 2), Mark(n), PopTry] + c1;
    Join(b, c2, k, j, i, {}, {n, n + 2}, {n, n + 2}, o1);
    JumpPlace(EndTry, n + 1, k, o1);
    Join([EndTry, Mark(n + 1)], b + c2, k, k, i, {n + 1}, {n, n + 2}, g, o1);
    Join(a, [EndTry, Mark(n + 1)] + (b + c2), n + 3, k, i, {}, g, g, o1);
    Lead([EnterTry(n, n + 1, n + 2)], a + ([EndTry, Mark(n + 1)] + (b + c2)), n + 3, i, g, o1);
    Absorb([EnterTry(n, n + 1, n + 2)] + (a + ([EndTry, Mark(n + 1)] + (b + c2))), n, n + 3, i, g, {}, o1, o);
  }

  lemma NeatCleanup(h: Handler, cx: Ctx, n: nat, o: set<nat>)
    requires LoopsIn(cx, o)
    ensures Neat(GenCleanup(h, cx, n).code, n, GenCleanup(h, cx, n).next, {}, o)
    decreases 1, 0, 0
  {
    if h.DeferHandler? && !BlockExits(h.body) {
      hide Neat;
      NeatBlock(h.body, false, cx, n, o);
      Lead([PopTry], GenBlock(h.body, false, cx, n).code, n, GenBlock(h.body, false, cx, n).next, {}, o);
    } else {
      Unmarked(GenCleanup(h, cx, n).code, n, o);
    }
  }

  lemma {:induction false} NeatCleanups(hs: seq<Handler>, cx: Ctx, n: nat, o: set<nat>)
    requires LoopsIn(cx, o)
    ensures Neat(GenCleanups(hs, cx, n).code, n, GenCleanups(hs, cx, n).next, {}, o)
    decreases 1, 1, |hs|
  {
    if hs == [] {
      Unmarked([], n, o);
    } else {
      hide Neat;
      var e1 := GenCleanup(hs[|hs| - 1], cx, n);
      NeatCleanup(hs[|hs| - 1], cx, n, o);
      NeatCleanups(hs[..|hs| - 1], cx, e1.next, o);
      Join(e1.code, GenCleanups(hs[..|hs| - 1], cx, e1.next).code, n, e1.next, GenCleanups(hs, cx, n).next, {}, {}, {}, o);
    }
  }

  lemma {:induction false} DiscardsInert(kinds: seq<LoopKind>)
    ensures Inert(Discards(kinds))
    decreases |kinds|
  {
    if kinds != [] { DiscardsInert(kinds[..|kinds| - 1]); }
  }

  lemma {:induction false} PopsInert(k: nat)
    ensures Inert(Pops(k))
    decreases k
  {
    if k > 0 { PopsInert(k - 1); }
  }

  lemma NeatLeave(x: Outcome, cx: Ctx, n: nat, o: set<nat>)
    requires LoopsIn(cx, o)
    ensures var e := GenLeave(x, cx.loops, [], n); e.next >= n && Neat(e.code, n, e.next, {}, o)
  {
    hide LoopIndex, Kinds;
    var e := GenLeave(x, cx.loops, [], n);
    if x.Broke? || x.Continued? {
      var i := LoopIndex(cx.loops, x.lbl);
      if i.Some? && i.value < |cx.loops| { DiscardsInert(Kinds(cx.loops[i.value + 1..]) + []); }
    } else {
      PopsInert(Counters(Kinds(cx.loops) + []));
    }
    Unmarked(e.code, n, o);
  }

  lemma NeatExit(x: Outcome, cx: Ctx, n: nat, o: set<nat>)
    requires LoopsIn(cx, o)
    ensures Neat(GenExit(x, cx, n).code, n, GenExit(x, cx, n).next, {}, o)
    decreases 1, 2, 0
  {
    hide Neat;
    var hs := cx.handlers[ExitDepth(x, cx)..];
    var ec := GenCleanups(hs, cx, n);
    var el := GenLeave(x, cx.loops, [], ec.next);
    NeatCleanups(hs, cx, n, o);
    NeatLeave(x, cx, ec.next, o);
    Join(ec.code, el.code, n, ec.next, el.next, {}, {}, {}, o);
  }
}
