/** Where the parts of each statement's code stand. */
module Layouts {
  import opened Wrappers
  import opened Syntax
  import opened Semantics
  import opened Machine
  import opened Codegen
  import opened Simulation
  import opened Exits

  function LoopOf(lbl: Label, brk: nat, cont: nat, cx: Ctx, kind: LoopKind): LoopInfo {
    LoopInfo(lbl, brk, cont, |cx.handlers|, kind)
  }

  lemma LayWhile(p: Program, s: Stmt, cx: Ctx, n: nat, pc: nat)
    requires s.While? && Here(p, pc, GenStmt(s, false, cx, n).code)
    ensures var ec := GenExpr(s.cond, cx, n + 2);
            var eb := GenBlock(s.body, false, cx.Enter(LoopOf(s.lbl, n + 1, n, cx, Plain)), ec.next);
            var pc1 := pc + 1 + |ec.code|;
            var pc2 := pc1 + 1 + |eb.code|;
            && Here(p, pc, [Mark(n)]) && Here(p, pc + 1, ec.code) && Here(p, pc1, [GotoIfNot(n + 1)])
            && Here(p, pc1 + 1, eb.code) && Here(p, pc2, [Goto(n), Mark(n + 1)])
            && pc + |GenStmt(s, false, cx, n).code| == pc2 + 2
  {
    var ec := GenExpr(s.cond, cx, n + 2);
    var eb := GenBlock(s.body, false, cx.Enter(LoopOf(s.lbl, n + 1, n, cx, Plain)), ec.next);
    var tail := [Goto(n), Mark(n + 1)];
    Parts4(p, pc, [Mark(n)], ec.code, [GotoIfNot(n + 1)], eb.code + tail);
    Split(p, pc + 2 + |ec.code|, eb.code, tail);
  }

  lemma LayLoop(p: Program, s: Stmt, cx: Ctx, n: nat, pc: nat)
    requires s.Loop? && s.count.None? && Here(p, pc, GenStmt(s, false, cx, n).code)
    ensures var eb := GenBlock(s.body, false, cx.Enter(LoopOf(s.lbl, n + 1, n, cx, Plain)), n + 2);
            && Here(p, pc, [Mark(n)]) && Here(p, pc + 1, eb.code)
            && Here(p, pc + 1 + |eb.code|, [Goto(n), Mark(n + 1)])
            && |GenStmt(s, false, cx, n).code| == |eb.code| + 3
  {
    var eb := GenBlock(s.body, false, cx.Enter(LoopOf(s.lbl, n + 1, n, cx, Plain)), n + 2);
    assert GenStmt(s, false, cx, n).code == [Mark(n)] + (eb.code + [Goto(n), Mark(n + 1)]);
    Split(p, pc, [Mark(n)], eb.code + [Goto(n), Mark(n + 1)]);
    Split(p, pc + 1, eb.code, [Goto(n), Mark(n + 1)]);
  }

  lemma LayCountdown(p: Program, lbl: Label, body: Block, cx: Ctx, start: nat, endLbl: nat, n: nat, pc: nat)
    requires Here(p, pc, GenCountdown(lbl, body, cx, start, endLbl, n).code)
    ensures var eb := GenBlock(body, false, cx.Enter(LoopOf(lbl, endLbl, start, cx, Counter)), n + 1);
            && Here(p, pc, [Mark(start), LoopCountdown(n)]) && Here(p, pc + 2, eb.code)
            && Here(p, pc + 2 + |eb.code|, [Goto(start), Mark(n), Mark(endLbl)])
            && |GenCountdown(lbl, body, cx, start, endLbl, n).code| == |eb.code| + 5
  {
    var eb := GenBlock(body, false, cx.Enter(LoopOf(lbl, endLbl, start, cx, Counter)), n + 1);
    Split(p, pc, [Mark(start), LoopCountdown(n)], eb.code + [Goto(start), Mark(n), Mark(endLbl)]);
    Split(p, pc + 2, eb.code, [Goto(start), Mark(n), Mark(endLbl)]);
  }

  lemma LayIteration(p: Program, lbl: Label, binder: Option<Name>, body: Block, cx: Ctx, n: nat, pc: nat)
    requires Here(p, pc, GenIteration(lbl, binder, body, cx, n).code)
    ensures var eb := GenBlock(body, false, cx.Enter(LoopOf(lbl, n + 2, n + 1, cx, Iterating)), n + 5);
            && Here(p, pc, [Mark(n), IterNext, GotoIfNot(n + 3), if binder.Some? then BindFast(binder.value) else Pop])
            && Here(p, pc + 4, eb.code)
            && Here(p, pc + 4 + |eb.code|, [Mark(n + 1), Goto(n), Mark(n + 2), IterEnd, Goto(n + 4), Mark(n + 3), IterEnd])
            && |GenIteration(lbl, binder, body, cx, n).code| == |eb.code| + 11
  {
    var eb := GenBlock(body, false, cx.Enter(LoopOf(lbl, n + 2, n + 1, cx, Iterating)), n + 5);
    var head := [Mark(n), IterNext, GotoIfNot(n + 3), if binder.Some? then BindFast(binder.value) else Pop];
    var tail := [Mark(n + 1), Goto(n), Mark(n + 2), IterEnd, Goto(n + 4), Mark(n + 3), IterEnd];
    Split(p, pc, head, eb.code + tail);
    Split(p, pc + 4, eb.code, tail);
  }

  /** Labels and positions of one arm: condition, branch, body, jump to the end, mark of the next arm. */
  lemma LayArm(p: Program, arms: Arms, keep: bool, cx: Ctx, endLbl: nat, nextLbl: nat, n: nat, pc: nat)
    requires Here(p, pc, GenArms(arms, keep, cx, endLbl, nextLbl, n).code)
    ensures var ec := GenExpr(arms.cond, cx, n);
            var eb := GenBlock(arms.body, keep, cx, ec.next);
            var pc1 := pc + |ec.code|;
            var pc2 := pc1 + 1 + |eb.code|;
            && Here(p, pc, ec.code) && Here(p, pc1, [GotoIfNot(nextLbl)]) && Here(p, pc1 + 1, eb.code)
            && Here(p, pc2, [Goto(endLbl)]) && Here(p, pc2 + 1, [Mark(nextLbl)])
            && (arms.Arm? ==> Here(p, pc2 + 2, GenArms(arms.rest, keep, cx, endLbl, eb.next, eb.next + 1).code))
            && |GenArms(arms, keep, cx, endLbl, nextLbl, n).code| ==
               pc2 + 2 - pc + if arms.Arm? then |GenArms(arms.rest, keep, cx, endLbl, eb.next, eb.next + 1).code| else 0
  {
    hide GenExpr, GenRange, GenBlock;
    var ec := GenExpr(arms.cond, cx, n);
    var eb := GenBlock(arms.body, keep, cx, ec.next);
    var tail := [Goto(endLbl), Mark(nextLbl)];
    var c1 := [GotoIfNot(nextLbl)] + (eb.code + tail);
    var head := ec.code + c1;
    if arms.Arm? {
      Split(p, pc, head, GenArms(arms.rest, keep, cx, endLbl, eb.next, eb.next + 1).code);
    }
    assert Here(p, pc, head);
    Split(p, pc, ec.code, c1);
    var pc1 := pc + |ec.code|;
    Split(p, pc1, [GotoIfNot(nextLbl)], eb.code + tail);
    Split(p, pc1 + 1, eb.code, tail);
    Nth(p, pc1 + 1 + |eb.code|, tail, 0);
    Nth(p, pc1 + 1 + |eb.code|, tail, 1);
  }

  lemma LayIf(p: Program, s: Stmt, keep: bool, cx: Ctx, n: nat, pc: nat)
    requires s.If? && Here(p, pc, GenStmt(s, keep, cx, n).code)
    ensures var ea := GenArms(s.arms, keep, cx, n, n + 1, n + 2);
            var ee := GenElse(s.els, keep, keep, cx, ea.next);
            && Here(p, pc, ea.code) && Here(p, pc + |ea.code|, ee.code) && Here(p, pc + |ea.code| + |ee.code|, [Mark(n)])
            && |GenStmt(s, keep, cx, n).code| == |ea.code| + |ee.code| + 1
  {
    var ea := GenArms(s.arms, keep, cx, n, n + 1, n + 2);
    var ee := GenElse(s.els, keep, keep, cx, ea.next);
    assert GenStmt(s, keep, cx, n).code == ea.code + (ee.code + [Mark(n)]);
    Split(p, pc, ea.code, ee.code + [Mark(n)]);
    Split(p, pc + |ea.code|, ee.code, [Mark(n)]);
  }

  lemma LayFor(p: Program, s: Stmt, cx: Ctx, n: nat, pc: nat)
    requires s.For? && Here(p, pc, GenStmt(s, false, cx, n).code)
    ensures var ei := GenExpr(s.iterable, cx, n);
            var el := GenIteration(s.lbl, s.binder, s.body, cx, ei.next);
            var ee := GenElse(s.els, false, false, cx, el.next);
            var pc1 := pc + |ei.code|;
            && Here(p, pc, ei.code) && Here(p, pc1, [IterNew]) && Here(p, pc1 + 1, el.code)
            && Here(p, pc1 + 1 + |el.code|, ee.code) && Here(p, pc1 + 1 + |el.code| + |ee.code|, [Mark(ei.next + 4)])
            && pc + |GenStmt(s, false, cx, n).code| == pc1 + 1 + |el.code| + |ee.code| + 1
  {
    hide GenExpr, GenIteration;
    var ei := GenExpr(s.iterable, cx, n);
    var el := GenIteration(s.lbl, s.binder, s.body, cx, ei.next);
    var ee := GenElse(s.els, false, false, cx, el.next);
    Parts5(p, pc, ei.code, [IterNew], el.code, ee.code, [Mark(ei.next + 4)]);
  }

  lemma LayDefer(p: Program, b: Block, keep: bool, cx: Ctx, n: nat, pc: nat)
    requires b.Cons? && b.head.Defer? && Here(p, pc, GenRange(b, keep, cx, n).code)
    ensures var cleanup := b.head.body;
            var er := GenRange(b.tail, keep, cx.Open(DeferHandler(cleanup)), n + 3);
            var e1 := GenBlock(cleanup, false, cx, er.next);
            var e2 := GenBlock(cleanup, false, cx, e1.next);
            var p2 := pc + 1 + |er.code|;
            var p4 := p2 + 2 + |e1.code|;
            var p6 := p4 + 3 + |e2.code|;
            && Here(p, pc, [EnterTry(n, n + 1, n + 2)]) && Here(p, pc + 1, er.code)
            && Here(p, p2, [EndTry, Mark(n + 1)]) && Here(p, p2 + 2, e1.code)
            && Here(p, p4, [Goto(n + 2), Mark(n), PopTry]) && Here(p, p4 + 3, e2.code)
            && Here(p, p6, [Rethrow, Mark(n + 2)]) && pc + |GenRange(b, keep, cx, n).code| == p6 + 2
  {
    hide GenStmt, Here;
    var cleanup := b.head.body;
    var er := GenRange(b.tail, keep, cx.Open(DeferHandler(cleanup)), n + 3);
    var e1 := GenBlock(cleanup, false, cx, er.next);
    var e2 := GenBlock(cleanup, false, cx, e1.next);
    Parts7(p, pc, [EnterTry(n, n + 1, n + 2)], er.code, [EndTry, Mark(n + 1)], e1.code,
           [Goto(n + 2), Mark(n), PopTry], e2.code, [Rethrow, Mark(n + 2)]);
  }

  /** The labels of a `try`: its `else` block (0 if it has none) and its end. */
  function ElseLbl(s: Stmt, n: nat): nat
    requires s.Try?
  {
    if s.els.Some? then n + 1 else 0
  }

  function EndLbl(s: Stmt, n: nat): nat
    requires s.Try?
  {
    if s.els.Some? then n + 2 else n + 1
  }

  function TryBody(s: Stmt, keep: bool, cx: Ctx, n: nat): Emit
    requires s.Try?
  {
    GenBlock(s.body, keep && s.els.None?, cx.Open(TryHandler), EndLbl(s, n) + 1)
  }

  function TryClauses(s: Stmt, keep: bool, cx: Ctx, n: nat, k: nat): Emit
    requires s.Try?
  {
    GenClauses(s.catches, keep, cx, k, EndLbl(s, n), k + s.catches.Count())
  }

  /** Everything after the dispatch on the exception; `k` labels the first clause. */
  function TryTail(s: Stmt, keep: bool, cx: Ctx, n: nat, k: nat): Code
    requires s.Try?
  {
    var ec := TryClauses(s, keep, cx, n, k);
    var ee := GenElse(s.els, keep, false, cx, ec.next);
    ec.code + ((if s.els.Some? then [Mark(ElseLbl(s, n))] else []) + (ee.code + [Mark(EndLbl(s, n))]))
  }

  /** The code after the body of a `try` is in its place. */
  ghost predicate TryHere(p: Program, s: Stmt, keep: bool, cx: Ctx, n: nat, k: nat, q: nat, end: nat)
    requires s.Try?
  {
    var ed := GenDispatch(s.catches, k);
    && Here(p, q, [EndTry, Mark(n)]) && Here(p, q + 2, ed) && Here(p, q + 2 + |ed|, TryTail(s, keep, cx, n, k))
    && end == q + 2 + |ed| + |TryTail(s, keep, cx, n, k)|
  }

  lemma LayTry(p: Program, s: Stmt, keep: bool, cx: Ctx, n: nat, pc: nat)
    requires s.Try? && Here(p, pc, GenTry(s, keep, cx, n).code)
    ensures var eb := TryBody(s, keep, cx, n);
            && Here(p, pc, [EnterTry(n, ElseLbl(s, n), EndLbl(s, n))]) && Here(p, pc + 1, eb.code)
            && TryHere(p, s, keep, cx, n, eb.next, pc + 1 + |eb.code|, pc + |GenTry(s, keep, cx, n).code|)
  {
    hide GenRange, GenBlock;
    var eb := TryBody(s, keep, cx, n);
    var ed := GenDispatch(s.catches, eb.next);
    var tail := TryTail(s, keep, cx, n, eb.next);
    var head := [EnterTry(n, ElseLbl(s, n), EndLbl(s, n))];
    assert GenTry(s, keep, cx, n).code == head + (eb.code + ([EndTry, Mark(n)] + (ed + tail)));
    Parts4(p, pc, head, eb.code, [EndTry, Mark(n)], ed + tail);
    Split(p, pc + 3 + |eb.code|, ed, tail);
  }

  lemma LayTryTail(p: Program, s: Stmt, keep: bool, cx: Ctx, n: nat, k: nat, pc: nat)
    requires s.Try? && Here(p, pc, TryTail(s, keep, cx, n, k))
    ensures var ec := TryClauses(s, keep, cx, n, k);
            var ee := GenElse(s.els, keep, false, cx, ec.next);
            var p4 := pc + |ec.code|;
            var p5 := p4 + if s.els.Some? then 1 else 0;
            && Here(p, pc, ec.code) && (s.els.Some? ==> Here(p, p4, [Mark(ElseLbl(s, n))])) && Here(p, p5, ee.code)
            && Here(p, p5 + |ee.code|, [Mark(EndLbl(s, n))]) && pc + |TryTail(s, keep, cx, n, k)| == p5 + |ee.code| + 1
  {
    var ec := TryClauses(s, keep, cx, n, k);
    var ee := GenElse(s.els, keep, false, cx, ec.next);
    var mark: Code := if s.els.Some? then [Mark(ElseLbl(s, n))] else [];
    Parts4(p, pc, ec.code, mark, ee.code, [Mark(EndLbl(s, n))]);
  }

  lemma LayClause(p: Program, cs: Catches, keep: bool, cx: Ctx, first: nat, endLbl: nat, n: nat, pc: nat)
    requires cs.Catch? && Here(p, pc, GenClauses(cs, keep, cx, first, endLbl, n).code)
    ensures var eb := GenBlock(cs.body, keep, cx, n);
            var q := pc + 1 + |GenCaught(cs.pattern)|;
            && Here(p, pc, [Mark(first)]) && Here(p, pc + 1, GenCaught(cs.pattern)) && Here(p, q, eb.code)
            && Here(p, q + |eb.code|, [Goto(endLbl)])
            && Here(p, q + |eb.code| + 1, GenClauses(cs.rest, keep, cx, first + 1, endLbl, eb.next).code)
  {
    var eb := GenBlock(cs.body, keep, cx, n);
    Parts5(p, pc, [Mark(first)], GenCaught(cs.pattern), eb.code, [Goto(endLbl)], GenClauses(cs.rest, keep, cx, first + 1, endLbl, eb.next).code);
  }

  /** The code after the context expression is in its place. */
  ghost predicate WithHere(p: Program, s: Stmt, keep: bool, cx: Ctx, n: nat, k: nat, pc: nat, end: nat)
    requires s.With?
  {
    var eb := GenBlock(s.body, keep, cx.Open(WithHandler(n)), k + 4);
    var p2 := pc + |GenAlias(s.alias, n)|;
    var p3 := p2 + |eb.code|;
    && Here(p, pc, GenAlias(s.alias, n)) && Here(p, p2, eb.code) && Here(p, p3, GenWithLeave(n, k))
    && end == p3 + (if keep then 22 else 21) && (keep ==> Here(p, p3 + 20, [Push(Unit)])) && Here(p, end - 1, [Mark(k + 3)])
  }

  lemma LayWith(p: Program, s: Stmt, keep: bool, cx: Ctx, n: nat, pc: nat)
    requires s.With? && Here(p, pc, GenWith(s, keep, cx, n).code)
    ensures var ec := GenExpr(s.context, cx, n + 3);
            var p1 := pc + |ec.code|;
            && Here(p, pc, ec.code) && Here(p, p1, GenWithEnter(n, ec.next))
            && WithHere(p, s, keep, cx, n, ec.next, p1 + 6, pc + |GenWith(s, keep, cx, n).code|)
  {
    hide GenBlock, GenExpr;
    var ec := GenExpr(s.context, cx, n + 3);
    var k := ec.next;
    var eb := GenBlock(s.body, keep, cx.Open(WithHandler(n)), k + 4);
    var unit: Code := if keep then [Push(Unit)] else [];
    var leave := GenWithLeave(n, k);
    assert |leave| == 20;
    Parts7(p, pc, ec.code, GenWithEnter(n, k), GenAlias(s.alias, n), eb.code, leave, unit, [Mark(k + 3)]);
  }

  /** The code after the subject has been kept is in its place. */
  ghost predicate MatchHere(p: Program, s: Stmt, keep: bool, cx: Ctx, n: nat, k: nat, pc: nat, end: nat)
    requires s.Match?
  {
    var ec := GenCases(s.cases, n, keep, cx, k, k + 1, k + 2);
    var ee := GenElse(s.els, keep, keep, cx, ec.next);
    && Here(p, pc, ec.code) && Here(p, pc + |ec.code|, ee.code) && Here(p, pc + |ec.code| + |ee.code|, [Mark(k)])
    && end == pc + |ec.code| + |ee.code| + 1
  }

  lemma LayMatch(p: Program, s: Stmt, keep: bool, cx: Ctx, n: nat, pc: nat)
    requires s.Match? && Here(p, pc, GenMatch(s, keep, cx, n).code)
    ensures var es := GenExpr(s.subject, cx, n + 1);
            && Here(p, pc, es.code) && Here(p, pc + |es.code|, [StoreFast(Temp(n))])
            && MatchHere(p, s, keep, cx, n, es.next, pc + |es.code| + 1, pc + |GenMatch(s, keep, cx, n).code|)
  {
    hide GenBlock, GenRange, ExecBlock, Here;
    var es := GenExpr(s.subject, cx, n + 1);
    var ec := GenCases(s.cases, n, keep, cx, es.next, es.next + 1, es.next + 2);
    var ee := GenElse(s.els, keep, keep, cx, ec.next);
    Parts5(p, pc, es.code, [StoreFast(Temp(n))], ec.code, ee.code, [Mark(es.next)]);
  }

  /** One case with a plain pattern: tests, bindings, body. */
  lemma LaySingle(p: Program, cs: Cases, temp: nat, keep: bool, cx: Ctx, endLbl: nat, nextLbl: nat, n: nat, pc: nat)
    requires cs.Case? && cs.pattern.Single? && Here(p, pc, GenCases(cs, temp, keep, cx, endLbl, nextLbl, n).code)
    ensures var q := cs.pattern.p;
            var et := GenTest(q, temp, [], n, cx, n + 2);
            var bind := GenBind(q, temp, []);
            var eb := GenBlock(cs.body, keep, cx, et.next);
            var p1 := pc + 1 + |et.code|;
            var p2 := p1 + 2 + |bind|;
            var p3 := p2 + |eb.code|;
            var er := GenCases(cs.rest, temp, keep, cx, endLbl, n, eb.next);
            && Here(p, pc, [Mark(nextLbl)]) && Here(p, pc + 1, et.code) && Here(p, p1, [Goto(n + 1), Mark(n + 1)])
            && Here(p, p1 + 2, bind) && Here(p, p2, eb.code) && Here(p, p3, [Goto(endLbl)]) && Here(p, p3 + 1, er.code)
            && pc + |GenCases(cs, temp, keep, cx, endLbl, nextLbl, n).code| == p3 + 1 + |er.code|
  {
    hide GenBlock, GenRange, ExecBlock, Here;
    var q := cs.pattern.p;
    var et := GenTest(q, temp, [], n, cx, n + 2);
    var eb := GenBlock(cs.body, keep, cx, et.next);
    var er := GenCases(cs.rest, temp, keep, cx, endLbl, n, eb.next);
    Parts7(p, pc, [Mark(nextLbl)], et.code, [Goto(n + 1), Mark(n + 1)], GenBind(q, temp, []), eb.code, [Goto(endLbl)], er.code);
  }

  /** One case with alternatives: all tests, then one body for each alternative. */
  lemma LayOneOf(p: Program, cs: Cases, temp: nat, keep: bool, cx: Ctx, endLbl: nat, nextLbl: nat, n: nat, pc: nat)
    requires cs.Case? && cs.pattern.OneOf? && Here(p, pc, GenCases(cs, temp, keep, cx, endLbl, nextLbl, n).code)
    ensures var (et, lbls) := GenAltTests(cs.pattern.alts, temp, cx, n + 1);
            var eb := GenAltBodies(cs.pattern.alts, lbls, temp, cs.body, keep, cx, endLbl, et.next);
            var p1 := pc + 1 + |et.code|;
            var er := GenCases(cs.rest, temp, keep, cx, endLbl, n, eb.next);
            && Here(p, pc, [Mark(nextLbl)]) && Here(p, pc + 1, et.code) && Here(p, p1, [Goto(n)])
            && Here(p, p1 + 1, eb.code) && Here(p, p1 + 1 + |eb.code|, er.code)
            && pc + |GenCases(cs, temp, keep, cx, endLbl, nextLbl, n).code| == p1 + 1 + |eb.code| + |er.code|
  {
    hide GenBlock, GenRange, ExecBlock, Here;
    var (et, lbls) := GenAltTests(cs.pattern.alts, temp, cx, n + 1);
    var eb := GenAltBodies(cs.pattern.alts, lbls, temp, cs.body, keep, cx, endLbl, et.next);
    var er := GenCases(cs.rest, temp, keep, cx, endLbl, n, eb.next);
    Parts5(p, pc, [Mark(nextLbl)], et.code, [Goto(n)], eb.code, er.code);
  }

  function AltBodyCode(lbl: nat, bind: Code, body: Code, endLbl: nat, rest: Code): Code {
    [Mark(lbl)] + (bind + (body + ([Goto(endLbl)] + rest)))
  }

  lemma OpenAltBodies(alts: Patterns, lbls: seq<nat>, temp: nat, body: Block, keep: bool, cx: Ctx, endLbl: nat, n: nat)
    requires alts.MorePat? && |lbls| == alts.Count()
    ensures var eb := GenBlock(body, keep, cx, n);
            GenAltBodies(alts, lbls, temp, body, keep, cx, endLbl, n).code
            == AltBodyCode(lbls[0], GenBind(alts.head, temp, []), eb.code, endLbl,
                           GenAltBodies(alts.tail, lbls[1..], temp, body, keep, cx, endLbl, eb.next).code)
  {
  }

  lemma LayAltBody(p: Program, lbl: nat, bind: Code, body: Code, endLbl: nat, rest: Code, pc: nat)
    requires Here(p, pc, AltBodyCode(lbl, bind, body, endLbl, rest))
    ensures var p2 := pc + 1 + |bind|;
            && Here(p, pc, [Mark(lbl)]) && Here(p, pc + 1, bind) && Here(p, p2, body)
            && Here(p, p2 + |body|, [Goto(endLbl)]) && Here(p, p2 + |body| + 1, rest)
  {
    Parts5(p, pc, [Mark(lbl)], bind, body, [Goto(endLbl)], rest);
  }

  /** The code of the remaining cases starts with the mark that a failed test jumps to. */
  lemma CasesStart(p: Program, cs: Cases, temp: nat, keep: bool, cx: Ctx, endLbl: nat, nextLbl: nat, n: nat, pc: nat)
    requires Linked(p) && Here(p, pc, GenCases(cs, temp, keep, cx, endLbl, nextLbl, n).code)
    ensures Target(p, nextLbl) == pc
  {
    Marked(p, pc, GenCases(cs, temp, keep, cx, endLbl, nextLbl, n).code, 0);
  }
}
