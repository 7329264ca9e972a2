/** The generator as it works: it walks the tree, appends to its code and keeps stacks of
    the open handlers and loops. Every method is tied to the code function of its construct. */
module Generator {
  import opened Wrappers
  import opened Syntax
  import opened Semantics
  import opened Machine
  import opened Codegen
  import opened CleanupFacts
  import opened Exits

  function KindOf(counter: bool, iterates: bool): LoopKind {
    if counter then Counter else if iterates then Iterating else Plain
  }

  /** The parallel stacks of the generator, read as one stack. */
  function LoopsOf(names: seq<Label>, brk: seq<nat>, cont: seq<nat>, depths: seq<nat>, counters: seq<bool>, iterates: seq<bool>)
    : (r: seq<LoopInfo>)
    requires |brk| == |names| && |cont| == |names| && |depths| == |names| && |counters| == |names| && |iterates| == |names|
    ensures |r| == |names|
    ensures forall i :: 0 <= i < |r| ==> r[i] == LoopInfo(names[i], brk[i], cont[i], depths[i], KindOf(counters[i], iterates[i]))
  {
    seq(|names|, i requires 0 <= i < |names| => LoopInfo(names[i], brk[i], cont[i], depths[i], KindOf(counters[i], iterates[i])))
  }

  /** Appending piece by piece is appending the whole. */
  lemma Cat(c: Code, a: Code, b: Code)
    ensures (c + a) + b == c + (a + b)
  {
  }

  // ----- one turn of each loop -----

  function ArmCode(arms: Arms, asValue: bool, cx: Ctx, end: nat, next: nat, n: nat): Emit {
    var ec := GenExpr(arms.cond, cx, n);
    var eb := GenBlock(arms.body, asValue, cx, ec.next);
    Emit(ec.code + ([GotoIfNot(next)] + (eb.code + [Goto(end), Mark(next)])), eb.next)
  }

  lemma ArmsStep(arms: Arms, asValue: bool, cx: Ctx, end: nat, next: nat, n: nat)
    ensures var head := ArmCode(arms, asValue, cx, end, next, n);
            GenArms(arms, asValue, cx, end, next, n)
            == if arms.LastArm? then head
               else var er := GenArms(arms.rest, asValue, cx, end, head.next, head.next + 1); Emit(head.code + er.code, er.next)
  {
  }

  function ClauseCode(catches: Catches, asValue: bool, cx: Ctx, lbl: nat, end: nat, n: nat): Emit
    requires catches.Catch?
  {
    var eb := GenBlock(catches.body, asValue, cx, n);
    Emit([Mark(lbl)] + (GenCaught(catches.pattern) + (eb.code + [Goto(end)])), eb.next)
  }

  lemma ClausesStep(catches: Catches, asValue: bool, cx: Ctx, lbl: nat, end: nat, n: nat)
    requires catches.Catch?
    ensures var head := ClauseCode(catches, asValue, cx, lbl, end, n);
            var er := GenClauses(catches.rest, asValue, cx, lbl + 1, end, head.next);
            GenClauses(catches, asValue, cx, lbl, end, n) == Emit(head.code + er.code, er.next)
  {
    var eb := GenBlock(catches.body, asValue, cx, n);
    var er := GenClauses(catches.rest, asValue, cx, lbl + 1, end, eb.next);
    Cat5([Mark(lbl)], GenCaught(catches.pattern), eb.code, [Goto(end)], er.code);
  }

  lemma Cat5(a: Code, b: Code, c: Code, d: Code, e: Code)
    ensures a + (b + (c + (d + e))) == (a + (b + (c + d))) + e
  {
    Cat(c, d, e);
    Cat(b, c + d, e);
    Cat(a, b + (c + d), e);
  }

  /** The same from left to right. */
  lemma CatFour(c: Code, a: Code, b: Code, d: Code, e: Code)
    ensures (((c + a) + b) + d) + e == c + (a + (b + (d + e)))
  {
    Cat((c + a) + b, d, e);
    Cat(c + a, b, d + e);
    Cat(c, a, b + (d + e));
  }

  function AltTestCode(alts: Patterns, temp: nat, cx: Ctx, n: nat): Emit
    requires alts.MorePat?
  {
    var e := GenTest(alts.head, temp, [], n + 1, cx, n + 2);
    Emit(e.code + [Goto(n), Mark(n + 1)], e.next)
  }

  lemma AltTestsStep(alts: Patterns, temp: nat, cx: Ctx, n: nat)
    requires alts.MorePat?
    ensures var head := AltTestCode(alts, temp, cx, n);
            var (er, lbls) := GenAltTests(alts.tail, temp, cx, head.next);
            GenAltTests(alts, temp, cx, n) == (Emit(head.code + er.code, er.next), [n] + lbls)
  {
    var e := GenTest(alts.head, temp, [], n + 1, cx, n + 2);
    Cat(e.code, [Goto(n), Mark(n + 1)], GenAltTests(alts.tail, temp, cx, e.next).0.code);
  }

  lemma NoAltTests(alts: Patterns, temp: nat, cx: Ctx, n: nat)
    requires alts.NoPat?
    ensures GenAltTests(alts, temp, cx, n) == (Emit([], n), [])
  {
  }

  function AltBody(p: Pattern, lbl: nat, temp: nat, body: Block, asValue: bool, cx: Ctx, end: nat, n: nat): Emit {
    var eb := GenBlock(body, asValue, cx, n);
    Emit([Mark(lbl)] + (GenBind(p, temp, []) + (eb.code + [Goto(end)])), eb.next)
  }

  lemma AltBodiesStep(alts: Patterns, lbls: seq<nat>, temp: nat, body: Block, asValue: bool, cx: Ctx, end: nat, n: nat)
    requires alts.MorePat? && |lbls| == alts.Count()
    ensures var head := AltBody(alts.head, lbls[0], temp, body, asValue, cx, end, n);
            var er := GenAltBodies(alts.tail, lbls[1..], temp, body, asValue, cx, end, head.next);
            GenAltBodies(alts, lbls, temp, body, asValue, cx, end, n) == Emit(head.code + er.code, er.next)
  {
    var eb := GenBlock(body, asValue, cx, n);
    var er := GenAltBodies(alts.tail, lbls[1..], temp, body, asValue, cx, end, eb.next);
    Cat5([Mark(lbls[0])], GenBind(alts.head, temp, []), eb.code, [Goto(end)], er.code);
  }

  /** The code of one case after its mark; `n` is its failure label. */
  function CaseCode(cases: Cases, temp: nat, asValue: bool, cx: Ctx, end: nat, n: nat): Emit
    requires cases.Case?
  {
    match cases.pattern
    case Single(p) =>
      var et := GenTest(p, temp, [], n, cx, n + 2);
      var eb := GenBlock(cases.body, asValue, cx, et.next);
      Emit(et.code + ([Goto(n + 1), Mark(n + 1)] + (GenBind(p, temp, []) + (eb.code + [Goto(end)]))), eb.next)
    case OneOf(alts) =>
      var (et, lbls) := GenAltTests(alts, temp, cx, n + 1);
      var eb := GenAltBodies(alts, lbls, temp, cases.body, asValue, cx, end, et.next);
      Emit(et.code + ([Goto(n)] + eb.code), eb.next)
  }

  lemma CasesStep(cases: Cases, temp: nat, asValue: bool, cx: Ctx, end: nat, next: nat, n: nat)
    requires cases.Case?
    ensures var head := CaseCode(cases, temp, asValue, cx, end, n);
            var er := GenCases(cases.rest, temp, asValue, cx, end, n, head.next);
            GenCases(cases, temp, asValue, cx, end, next, n) == Emit(([Mark(next)] + head.code) + er.code, er.next)
  {
    hide GenTest, GenBlock, GenBind, GenAltTests, GenAltBodies;
    var head := CaseCode(cases, temp, asValue, cx, end, n);
    var er := GenCases(cases.rest, temp, asValue, cx, end, n, head.next);
    match cases.pattern
    case Single(p) =>
      var et := GenTest(p, temp, [], n, cx, n + 2);
      var eb := GenBlock(cases.body, asValue, cx, et.next);
      Cat5([Goto(n + 1), Mark(n + 1)], GenBind(p, temp, []), eb.code, [Goto(end)], er.code);
      Cat(et.code, [Goto(n + 1), Mark(n + 1)] + (GenBind(p, temp, []) + (eb.code + [Goto(end)])), er.code);
      Cat([Mark(next)], head.code, er.code);
    case OneOf(alts) =>
      var (et, lbls) := GenAltTests(alts, temp, cx, n + 1);
      var eb := GenAltBodies(alts, lbls, temp, cases.body, asValue, cx, end, et.next);
      Cat([Goto(n)], eb.code, er.code);
      Cat(et.code, [Goto(n)] + eb.code, er.code);
      Cat([Mark(next)], head.code, er.code);
  }

  lemma RangeStep(b: Block, keep: bool, cx: Ctx, n: nat)
    requires b.Cons? && !b.head.Defer?
    ensures var es := GenStmt(b.head, keep && b.tail.Nil?, cx, n);
            var er := GenRange(b.tail, keep, cx, es.next);
            GenRange(b, keep, cx, n) == Emit(es.code + er.code, er.next)
  {
  }

  lemma NoPops()
    ensures Pops(0) == []
  {
  }

  function DiscardCode(kind: LoopKind): Code {
    match kind
    case Plain => []
    case Counter => [Pop]
    case Iterating => [IterEnd]
  }

  lemma DiscardStep(kinds: seq<LoopKind>, k: nat)
    requires 0 < k <= |kinds|
    ensures Discards(kinds[..k]) == DiscardCode(kinds[k - 1]) + Discards(kinds[..k - 1])
  {
    assert kinds[..k][..k - 1] == kinds[..k - 1];
  }

  /** What follows the end of a `try` body: dispatch, clauses, `else` block. */
  function TryTailCode(s: Stmt, asValue: bool, cx: Ctx, elseLabel: nat, end: nat, k: nat): Emit
    requires s.Try?
  {
    var ec := GenClauses(s.catches, asValue, cx, k, end, k + s.catches.Count());
    var ee := GenElse(s.els, asValue, false, cx, ec.next);
    Emit((GenDispatch(s.catches, k) + ec.code) + ((if elseLabel != 0 then [Mark(elseLabel)] else []) + (ee.code + [Mark(end)])), ee.next)
  }

  lemma TryStep(s: Stmt, asValue: bool, cx: Ctx, n: nat)
    requires s.Try?
    ensures var elseLabel := if s.els.Some? then n + 1 else 0;
            var end := if s.els.Some? then n + 2 else n + 1;
            var eb := GenBlock(s.body, asValue && s.els.None?, cx.Open(TryHandler), end + 1);
            var tail := TryTailCode(s, asValue, cx, elseLabel, end, eb.next);
            GenTry(s, asValue, cx, n) == Emit([EnterTry(n, elseLabel, end)] + (eb.code + ([EndTry, Mark(n)] + tail.code)), tail.next)
  {
    hide GenBlock, GenClauses, GenElse, GenDispatch;
    var elseLabel := if s.els.Some? then n + 1 else 0;
    var end := if s.els.Some? then n + 2 else n + 1;
    var eb := GenBlock(s.body, asValue && s.els.None?, cx.Open(TryHandler), end + 1);
    var ec := GenClauses(s.catches, asValue, cx, eb.next, end, eb.next + s.catches.Count());
    var ee := GenElse(s.els, asValue, false, cx, ec.next);
    Cat(GenDispatch(s.catches, eb.next), ec.code, (if elseLabel != 0 then [Mark(elseLabel)] else []) + (ee.code + [Mark(end)]));
  }

  /** What follows the region of a deferred body whose first label is `n`. */
  function DeferCleanups(cleanup: Block, cx: Ctx, n: nat, k: nat): Emit {
    var e1 := GenBlock(cleanup, false, cx, k);
    var e2 := GenBlock(cleanup, false, cx, e1.next);
    Emit([EndTry, Mark(n + 1)] + (e1.code + ([Goto(n + 2), Mark(n), PopTry] + (e2.code + [Rethrow, Mark(n + 2)]))), e2.next)
  }

  lemma DeferStep(b: Block, keep: bool, cx: Ctx, n: nat)
    requires b.Cons? && b.head.Defer?
    ensures var er := GenRange(b.tail, keep, cx.Open(DeferHandler(b.head.body)), n + 3);
            var ec := DeferCleanups(b.head.body, cx, n, er.next);
            GenRange(b, keep, cx, n) == Emit([EnterTry(n, n + 1, n + 2)] + (er.code + ec.code), ec.next)
  {
  }

  lemma NoClauses(catches: Catches, asValue: bool, cx: Ctx, lbl: nat, end: nat, n: nat)
    requires catches.NoCatch?
    ensures GenClauses(catches, asValue, cx, lbl, end, n) == Emit([], n)
  {
  }

  lemma NoCases(cases: Cases, temp: nat, asValue: bool, cx: Ctx, end: nat, next: nat, n: nat)
    requires cases.NoCase?
    ensures GenCases(cases, temp, asValue, cx, end, next, n) == Emit([Mark(next)], n)
  {
  }

  lemma NoAltBodies(alts: Patterns, lbls: seq<nat>, temp: nat, body: Block, asValue: bool, cx: Ctx, end: nat, n: nat)
    requires alts.NoPat? && |lbls| == alts.Count()
    ensures GenAltBodies(alts, lbls, temp, body, asValue, cx, end, n) == Emit([], n)
  {
  }

  lemma NoRange(b: Block, keep: bool, cx: Ctx, n: nat)
    requires b.Nil?
    ensures GenRange(b, keep, cx, n) == Emit([], n)
  {
  }

  /** The code, the condition for acceptance and the exits of `while`, without looking at other statements. */
  lemma WhileStep(s: Stmt, cx: Ctx, n: nat, loops: seq<Label>)
    requires s.While?
    ensures var ec := GenExpr(s.cond, cx, n + 2);
            var eb := GenBlock(s.body, false, cx.Enter(LoopInfo(s.lbl, n + 1, n, |cx.handlers|, Plain)), ec.next);
            GenStmt(s, false, cx, n) == Emit([Mark(n)] + (ec.code + ([GotoIfNot(n + 1)] + (eb.code + [Goto(n), Mark(n + 1)]))), eb.next)
    ensures (Compiles(s, loops) <==> BlockCompiles(s.body, loops + [s.lbl])) && HasExit(s) == BlockExits(s.body)
  {
    hide GenExpr, GenBlock, BlockCompiles, BlockExits;
  }

  lemma IfStep(s: Stmt, keep: bool, cx: Ctx, n: nat, loops: seq<Label>)
    requires s.If?
    ensures var ea := GenArms(s.arms, keep, cx, n, n + 1, n + 2);
            var ee := GenElse(s.els, keep, keep, cx, ea.next);
            GenStmt(s, keep, cx, n) == Emit(ea.code + (ee.code + [Mark(n)]), ee.next)
    ensures Compiles(s, loops) <==> ArmsCompile(s.arms, loops) && (s.els.Some? ==> BlockCompiles(s.els.value, loops))
    ensures HasExit(s) <==> ArmsExit(s.arms) || (s.els.Some? && BlockExits(s.els.value))
  {
    hide GenArms, GenElse, ArmsCompile, BlockCompiles, ArmsExit, BlockExits;
  }

  lemma ForStep(s: Stmt, cx: Ctx, n: nat, loops: seq<Label>)
    requires s.For?
    ensures var ei := GenExpr(s.iterable, cx, n);
            var el := GenIteration(s.lbl, s.binder, s.body, cx, ei.next);
            var ee := GenElse(s.els, false, false, cx, el.next);
            GenStmt(s, false, cx, n) == Emit(ei.code + ([IterNew] + (el.code + (ee.code + [Mark(ei.next + 4)]))), ee.next)
    ensures Compiles(s, loops) <==> BlockCompiles(s.body, loops + [s.lbl]) && (s.els.Some? ==> BlockCompiles(s.els.value, loops))
    ensures HasExit(s) <==> BlockExits(s.body) || (s.els.Some? && BlockExits(s.els.value))
  {
    hide GenExpr, GenIteration, GenElse, BlockCompiles, BlockExits;
  }

  lemma TryAccepted(s: Stmt, loops: seq<Label>)
    requires s.Try?
    ensures Compiles(s, loops) <==> BlockCompiles(s.body, loops) && CatchesCompile(s.catches, loops) && (s.els.Some? ==> BlockCompiles(s.els.value, loops))
    ensures HasExit(s) <==> BlockExits(s.body) || CatchesExit(s.catches) || (s.els.Some? && BlockExits(s.els.value))
  {
    hide BlockCompiles, CatchesCompile, BlockExits, CatchesExit;
  }

  /** The code of `with` after that of its context expression. */
  function WithRest(s: Stmt, keep: bool, cx: Ctx, n: nat, k: nat): Emit
    requires s.With?
  {
    var eb := GenBlock(s.body, keep, cx.Open(WithHandler(n)), k + 4);
    Emit((GenWithEnter(n, k) + GenAlias(s.alias, n)) + (eb.code + (GenWithLeave(n, k) + ((if keep then [Push(Unit)] else []) + [Mark(k + 3)]))), eb.next)
  }

  lemma WithStep(s: Stmt, keep: bool, cx: Ctx, n: nat)
    requires s.With?
    ensures var ec := GenExpr(s.context, cx, n + 3);
            GenWith(s, keep, cx, n) == Emit(ec.code + WithRest(s, keep, cx, n, ec.next).code, WithRest(s, keep, cx, n, ec.next).next)
  {
    hide GenExpr, GenBlock, GenWithEnter, GenWithLeave, GenAlias;
    var k := GenExpr(s.context, cx, n + 3).next;
    var eb := GenBlock(s.body, keep, cx.Open(WithHandler(n)), k + 4);
    Cat(GenWithEnter(n, k), GenAlias(s.alias, n), eb.code + (GenWithLeave(n, k) + ((if keep then [Push(Unit)] else []) + [Mark(k + 3)])));
  }

  lemma WithAccepted(s: Stmt, loops: seq<Label>)
    requires s.With?
    ensures (Compiles(s, loops) <==> BlockCompiles(s.body, loops)) && HasExit(s) == BlockExits(s.body)
  {
    hide BlockCompiles, BlockExits;
  }

  lemma DeferAccepted(b: Block, loops: seq<Label>)
    requires b.Cons? && b.head.Defer?
    ensures BlockCompiles(b, loops) <==> !BlockExits(b.head.body) && BlockCompiles(b.head.body, loops) && BlockCompiles(b.tail, loops)
    ensures BlockExits(b) <==> BlockExits(b.head.body) || BlockExits(b.tail)
  {
    assert Compiles(b.head, loops) <==> !BlockExits(b.head.body) && BlockCompiles(b.head.body, loops);
    assert HasExit(b.head) == BlockExits(b.head.body);
  }

  lemma IfElseStep(e: Expr, cx: Ctx, n: nat)
    requires e.IfElse?
    ensures var ec := GenExpr(e.cond, cx, n + 2);
            var et := GenExpr(e.thn, cx, ec.next);
            var ef := GenExpr(e.els, cx, et.next);
            GenPlain(e, cx, n) == Emit(ec.code + ([GotoIfNot(n)] + (et.code + ([Goto(n + 1), Mark(n)] + (ef.code + [Mark(n + 1)])))), ef.next)
  {
    hide GenExpr;
  }

  /** The same for a counted `loop`. */
  lemma CountedStep(s: Stmt, cx: Ctx, n: nat, loops: seq<Label>)
    requires s.Loop? && s.count.Some?
    ensures var ec := GenExpr(s.count.value, cx, n + 2);
            var eb := GenBlock(s.body, false, cx.Enter(LoopInfo(s.lbl, n + 1, n, |cx.handlers|, Counter)), ec.next + 1);
            GenStmt(s, false, cx, n) == Emit(ec.code + ([Mark(n), LoopCountdown(ec.next)] + (eb.code + [Goto(n), Mark(ec.next), Mark(n + 1)])), eb.next)
    ensures (Compiles(s, loops) <==> BlockCompiles(s.body, loops + [s.lbl])) && HasExit(s) == BlockExits(s.body)
  {
    hide GenExpr, GenBlock, BlockCompiles, BlockExits;
  }

  /** After a turn that wrote `head`, what is left to write is `rest`. */
  lemma Turn(c0: Code, whole: Code, before: Code, x: Code, after: Code, head: Code, rest: Code)
    requires before + x == c0 + whole && x == head + rest && after == before + head
    ensures after + rest == c0 + whole
  {
    Cat(before, head, rest);
  }

  class Generator {
    const sc: Scope
    const env: Env
    var code: Code
    var labelCounter: nat
    var handlerStack: seq<Handler>
    var loopBreakLabels: seq<nat>
    var loopContinueLabels: seq<nat>
    var loopNames: seq<Label>
    var loopHandlerDepths: seq<nat>
    var loopOwnsStackCounter: seq<bool>
    var loopOwnsIterator: seq<bool>

    /** The loop stacks grow and shrink together. */
    ghost predicate Valid()
      reads this`handlerStack, this`loopBreakLabels, this`loopContinueLabels, this`loopNames, this`loopHandlerDepths, this`loopOwnsStackCounter, this`loopOwnsIterator
    {
      && |loopBreakLabels| == |loopNames| && |loopContinueLabels| == |loopNames| && |loopHandlerDepths| == |loopNames|
      && |loopOwnsStackCounter| == |loopNames| && |loopOwnsIterator| == |loopNames|
      && (forall i :: 0 <= i < |loopHandlerDepths| ==> loopHandlerDepths[i] <= |handlerStack|)
      && (forall h :: h in handlerStack && h.DeferHandler? ==> !BlockExits(h.body))
    }

    ghost function Loops(): seq<LoopInfo>
      requires Valid()
      reads this`handlerStack, this`loopBreakLabels, this`loopContinueLabels, this`loopNames, this`loopHandlerDepths, this`loopOwnsStackCounter, this`loopOwnsIterator
    {
      LoopsOf(loopNames, loopBreakLabels, loopContinueLabels, loopHandlerDepths, loopOwnsStackCounter, loopOwnsIterator)
    }

    ghost function Context(): Ctx
      requires Valid()
      reads this`handlerStack
      reads this`loopBreakLabels, this`loopContinueLabels, this`loopNames, this`loopHandlerDepths, this`loopOwnsStackCounter, this`loopOwnsIterator
    {
      Ctx(sc, env, handlerStack, Loops())
    }

    constructor (sc: Scope, env: Env)
      ensures Valid() && this.sc == sc && this.env == env && code == [] && labelCounter == 0
      ensures Context() == Ctx(sc, env, [], [])
    {
      this.sc, this.env := sc, env;
      code, labelCounter := [], 0;
      handlerStack, loopBreakLabels, loopContinueLabels, loopNames := [], [], [], [];
      loopHandlerDepths, loopOwnsStackCounter, loopOwnsIterator := [], [], [];
    }

    /** What has been written since the code was `c0` is `x`. */
    ghost predicate Wrote(c0: Code, x: Emit)
      reads this`code, this`labelCounter
    {
      code == c0 + x.code && labelCounter == x.next
    }

    /** The stacks of handlers and loops are as they were. */
    twostate predicate Restored()
      requires old(Valid())
      reads this
    {
      unchanged(`handlerStack, `loopBreakLabels, `loopContinueLabels, `loopNames, `loopHandlerDepths, `loopOwnsStackCounter, `loopOwnsIterator) && Valid() && Context() == old(Context())
    }

    method Emit(i: Instr)
      modifies this`code
      ensures code == old(code) + [i]
    {
      code := code + [i];
    }

    /** Several instructions in a row. */
    method EmitAll(instructions: Code)
      modifies this`code
      ensures code == old(code) + instructions
    {
      code := code + instructions;
    }

    method FreshLabel() returns (id: nat)
      modifies this`labelCounter
      ensures id == old(labelCounter) && labelCounter == id + 1
    {
      id := labelCounter;
      labelCounter := labelCounter + 1;
    }

    // ----- expressions -----

    method GenExpr(e: Expr)
      requires Valid()
      modifies this`code, this`labelCounter
      ensures Wrote(old(code), Codegen.GenExpr(e, Context(), old(labelCounter)))
      decreases e, 2
    {
      var folded := TryEval(e, Ctx(sc, env, [], []));
      assert folded == TryEval(e, Context());
      if folded.Some? {
        Emit(Push(folded.value));
      } else {
        GenPlain(e);
      }
    }

    method GenPlain(e: Expr)
      requires Valid()
      modifies this`code, this`labelCounter
      ensures Wrote(old(code), Codegen.GenPlain(e, Context(), old(labelCounter)))
      decreases e, 1
    {
      match e
      case Const(v) => Emit(Push(v));
      case Var(x) => Emit(if x in sc.locals then LoadFast(Local(x)) else LoadGlobal(x));
      case Unary(op, a) =>
        GenExpr(a);
        Emit(UnaryOp(op));
      case Binary(op, l, r) =>
        GenExpr(l);
        GenExpr(r);
        Emit(BinaryOp(op));
      case And(_, _) => GenShortCut(e);
      case Or(_, _) => GenShortCut(e);
      case IfElse(_, _, _) => GenIfElse(e);
      case Tuple(es) =>
        GenExprs(es);
        Emit(TupleNew(es.Count()));
      case Member(o, field) =>
        GenExpr(o);
        Emit(GetAttr(field));
      case Call(f, args) =>
        GenExprs(args);
        GenExpr(f);
        Emit(CallN(args.Count()));
    }

    method GenShortCut(e: Expr)
      requires Valid() && (e.And? || e.Or?)
      modifies this`code, this`labelCounter
      ensures Wrote(old(code), Codegen.GenPlain(e, Context(), old(labelCounter)))
      decreases e, 0
    {
      hide Codegen.GenExpr;
      ghost var c0, n := code, labelCounter;
      ghost var el := Codegen.GenExpr(e.left, Context(), n + 3);
      ghost var er := Codegen.GenExpr(e.right, Context(), el.next);
      var end := FreshLabel();
      var rest := FreshLabel();
      var temp := FreshLabel();
      GenExpr(e.left);
      var test := [StoreFast(Temp(temp)), LoadFast(Temp(temp)), if e.And? then GotoIfNot(end) else GotoIf(end)];
      EmitAll(test);
      GenExpr(e.right);
      var tail := [Goto(rest), Mark(end), LoadFast(Temp(temp)), Mark(rest)];
      EmitAll(tail);
      CatFour(c0, el.code, test, er.code, tail);
    }

    method GenIfElse(e: Expr)
      requires Valid() && e.IfElse?
      modifies this`code, this`labelCounter
      ensures Wrote(old(code), Codegen.GenPlain(e, Context(), old(labelCounter)))
      decreases e, 0
    {
      hide Codegen.GenExpr, Codegen.GenPlain, Valid, Context;
      ghost var c0, n := code, labelCounter;
      ghost var cx := Context();
      IfElseStep(e, cx, n);
      var elseLabel := FreshLabel();
      var end := FreshLabel();
      GenExpr(e.cond);
      Emit(GotoIfNot(elseLabel));
      GenExpr(e.thn);
      EmitAll([Goto(end), Mark(elseLabel)]);
      GenExpr(e.els);
      Emit(Mark(end));
      ghost var ec := Codegen.GenExpr(e.cond, cx, n + 2);
      ghost var et := Codegen.GenExpr(e.thn, cx, ec.next);
      ghost var ef := Codegen.GenExpr(e.els, cx, et.next);
      CatFour(c0 + ec.code, [GotoIfNot(n)], et.code, [Goto(n + 1), Mark(n)], ef.code + [Mark(n + 1)]);
      Cat(((((c0 + ec.code) + [GotoIfNot(n)]) + et.code) + [Goto(n + 1), Mark(n)]), ef.code, [Mark(n + 1)]);
      Cat(c0, ec.code, [GotoIfNot(n)] + (et.code + ([Goto(n + 1), Mark(n)] + (ef.code + [Mark(n + 1)]))));
    }

    method GenExprs(es: Exprs)
      requires Valid()
      modifies this`code, this`labelCounter
      ensures Wrote(old(code), Codegen.GenExprs(es, Context(), old(labelCounter)))
      decreases es
    {
      var rest := es;
      while rest.MoreExpr?
        invariant rest == es || rest < es
        invariant var x := Codegen.GenExprs(rest, Context(), labelCounter);
                  var whole := Codegen.GenExprs(es, Context(), old(labelCounter));
                  code + x.code == old(code) + whole.code && x.next == whole.next
        decreases rest
      {
        GenExpr(rest.head);
        rest := rest.tail;
      }
    }
 
    // ----- patterns -----

    method LoadAt(temp: nat, path: Path)
      modifies this`code
      ensures code == old(code) + Codegen.LoadAt(temp, path)
    {
      Emit(LoadFast(Temp(temp)));
      var i := 0;
      while i < |path|
        invariant 0 <= i <= |path| && code == old(code) + [LoadFast(Temp(temp))] + LoadPath(path[..i])
      {
        assert path[..i + 1][..i] == path[..i];
        Emit(Push(Num(path[i] as real)));
        Emit(Index);
        i := i + 1;
      }
      assert path[..i] == path;
    }

    method GenTest(p: Pattern, temp: nat, path: Path, fail: nat)
      requires Valid()
      modifies this`code, this`labelCounter
      ensures Wrote(old(code), Codegen.GenTest(p, temp, path, fail, Context(), old(labelCounter)))
      decreases p, 1
    {
      match p
      case BindPat(_) =>
      case ValuePat(e) =>
        LoadAt(temp, path);
        GenExpr(e);
        Emit(MatchEq);
        Emit(GotoIfNot(fail));
      case SeqPat(ps) => GenSeqTest(ps, temp, path, fail);
    }

    method GenSeqTest(ps: Patterns, temp: nat, path: Path, fail: nat)
      requires Valid()
      modifies this`code, this`labelCounter
      ensures Wrote(old(code), Codegen.GenTest(SeqPat(ps), temp, path, fail, Context(), old(labelCounter)))
      decreases SeqPat(ps), 0
    {
      hide Codegen.GenItemTests, Codegen.LoadAt;
      ghost var c0, n := code, labelCounter;
      LoadAt(temp, path);
      EmitAll([IsList, GotoIfNot(fail)]);
      LoadAt(temp, path);
      EmitAll([ListLen, Push(Num(ps.Count() as real)), BinaryOp(Eq), GotoIfNot(fail)]);
      GenItemTests(ps, temp, path, fail);
      ghost var load := Codegen.LoadAt(temp, path);
      ghost var items := Codegen.GenItemTests(ps, temp, path, 0, fail, Context(), n);
      assert code == c0 + (load + ([IsList, GotoIfNot(fail)]
             + (load + ([ListLen, Push(Num(ps.Count() as real)), BinaryOp(Eq), GotoIfNot(fail)] + items.code))));
    }

    method GenItemTests(ps: Patterns, temp: nat, path: Path, fail: nat)
      requires Valid()
      modifies this`code, this`labelCounter
      ensures Wrote(old(code), Codegen.GenItemTests(ps, temp, path, 0, fail, Context(), old(labelCounter)))
      decreases ps
    {
      hide Valid, Compiles;
      var rest, i := ps, 0;
      while rest.MorePat?
        invariant rest == ps || rest < ps
        invariant var x := Codegen.GenItemTests(rest, temp, path, i, fail, Context(), labelCounter);
                  var whole := Codegen.GenItemTests(ps, temp, path, 0, fail, Context(), old(labelCounter));
                  code + x.code == old(code) + whole.code && x.next == whole.next
        decreases rest
      {
        GenTest(rest.head, temp, path + [i], fail);
        rest, i := rest.tail, i + 1;
      }
    }

    method GenBind(p: Pattern, temp: nat, path: Path)
      modifies this`code
      ensures code == old(code) + Codegen.GenBind(p, temp, path)
      decreases p
    {
      match p
      case BindPat(x) =>
        LoadAt(temp, path);
        Emit(BindFast(x));
      case ValuePat(_) =>
      case SeqPat(ps) =>
        var rest, i := ps, 0;
        while rest.MorePat?
          invariant rest == ps || rest < ps
          invariant code + GenItemBinds(rest, temp, path, i) == old(code) + GenItemBinds(ps, temp, path, 0)
          decreases rest
        {
          GenBind(rest.head, temp, path + [i]);
          rest, i := rest.tail, i + 1;
        }
    }
 
    /** Tests of all alternatives; the labels of their bodies are placed later. */
    method GenAltTests(alts: Patterns, temp: nat) returns (labels: seq<nat>)
      requires Valid()
      modifies this`code, this`labelCounter
      ensures var (x, lbls) := Codegen.GenAltTests(alts, temp, Context(), old(labelCounter)); Wrote(old(code), x) && labels == lbls
      decreases alts
    {
      hide Codegen.GenTest, Codegen.GenAltTests, Valid, Context;
      labels := [];
      var rest := alts;
      while rest.MorePat?
        invariant rest == alts || rest < alts
        invariant var (x, lbls) := Codegen.GenAltTests(rest, temp, Context(), labelCounter);
                  var (whole, all) := Codegen.GenAltTests(alts, temp, Context(), old(labelCounter));
                  code + x.code == old(code) + whole.code && x.next == whole.next && labels + lbls == all
        decreases rest
      {
        ghost var before, n := code, labelCounter;
        AltTestsStep(rest, temp, Context(), n);
        var body := GenAltTest(rest, temp);
        ghost var (x, lbls) := Codegen.GenAltTests(rest, temp, Context(), n);
        ghost var (y, more) := Codegen.GenAltTests(rest.tail, temp, Context(), labelCounter);
        Turn(old(code), Codegen.GenAltTests(alts, temp, Context(), old(labelCounter)).0.code, before, x.code, code,
             AltTestCode(rest, temp, Context(), n).code, y.code);
        assert labels + lbls == (labels + [body]) + more;
        labels := labels + [body];
        rest := rest.tail;
      }
      NoAltTests(rest, temp, Context(), labelCounter);
    }

    method GenAltTest(alts: Patterns, temp: nat) returns (body: nat)
      requires Valid() && alts.MorePat?
      modifies this`code, this`labelCounter
      ensures body == old(labelCounter) && Wrote(old(code), AltTestCode(alts, temp, Context(), old(labelCounter)))
      decreases alts, 0
    {
      hide Codegen.GenTest;
      body := FreshLabel();
      var fail := FreshLabel();
      GenTest(alts.head, temp, [], fail);
      EmitAll([Goto(body), Mark(fail)]);
    }

    // ----- statements -----

    method GenStmt(s: Stmt, topLevel: bool) returns (ok: bool)
      requires Valid() && !s.Defer?
      modifies this
      ensures ok <==> Compiles(s, old(loopNames))
      ensures ok ==> Wrote(old(code), Codegen.GenStmt(s, topLevel, old(Context()), old(labelCounter)))
      ensures ok ==> Restored()
      decreases Rank(HasExit(s)), s, 5
    {
      hide Codegen.GenTry, Codegen.GenWith, Codegen.GenMatch, Codegen.GenBlock, Codegen.GenArms, Codegen.GenElse,
           Codegen.GenExpr, Codegen.GenIteration, Codegen.GenCountdown, GenExit, BlockCompiles, ArmsCompile,
           CatchesCompile, CasesCompile, Valid, Context;
      ok := true;
      match s
      case Eval(_) => GenSimple(s, topLevel);
      case Let(_, _) => GenSimple(s, topLevel);
      case Assign(_, _) => GenSimple(s, topLevel);
      case Throw(_) => GenSimple(s, topLevel);
      case If(_, _) => ok := GenIf(s, topLevel);
      case While(_, _, _) => ok := GenWhile(s);
      case Loop(_, count, _) => if count.Some? { ok := GenCounted(s); } else { ok := GenLoop(s); }
      case For(_, _, _, _, _) => ok := GenFor(s);
      case Try(_, _, _) => ok := GenTry(s, topLevel);
      case With(_, _, _) => ok := GenWith(s, topLevel);
      case Match(_, _, _) => ok := GenMatch(s, topLevel);
      case Break(lbl) => ok := GenJump(Broke(lbl));
      case Continue(lbl) => ok := GenJump(Continued(lbl));
      case Return(result) => GenReturn(result);
    }

    method GenSimple(s: Stmt, topLevel: bool)
      requires Valid() && (s.Eval? || s.Let? || s.Assign? || s.Throw?)
      modifies this
      ensures Wrote(old(code), Codegen.GenStmt(s, topLevel, old(Context()), old(labelCounter))) && Restored()
    {
      hide Codegen.GenExpr;
      GenExpr(s.e);
      match s
      case Eval(_) => if !topLevel { Emit(Pop); }
      case Let(x, _) => Emit(BindFast(x));
      case Assign(x, _) => Emit(StoreFast(Local(x)));
      case Throw(_) => Emit(Raise);
    }

    method EnterLoop(lbl: Label, brk: nat, cont: nat, counter: bool, iterates: bool)
      requires Valid()
      modifies `loopBreakLabels, `loopContinueLabels, `loopNames, `loopHandlerDepths, `loopOwnsStackCounter, `loopOwnsIterator
      ensures Valid() && Context() == old(Context()).Enter(LoopInfo(lbl, brk, cont, |handlerStack|, KindOf(counter, iterates)))
      ensures loopNames == old(loopNames) + [lbl]
      ensures loopBreakLabels == old(loopBreakLabels) + [brk] && loopContinueLabels == old(loopContinueLabels) + [cont]
      ensures loopHandlerDepths == old(loopHandlerDepths) + [|handlerStack|]
      ensures loopOwnsStackCounter == old(loopOwnsStackCounter) + [counter] && loopOwnsIterator == old(loopOwnsIterator) + [iterates]
    {
      loopBreakLabels := loopBreakLabels + [brk];
      loopContinueLabels := loopContinueLabels + [cont];
      loopNames := loopNames + [lbl];
      loopHandlerDepths := loopHandlerDepths + [|handlerStack|];
      loopOwnsStackCounter := loopOwnsStackCounter + [counter];
      loopOwnsIterator := loopOwnsIterator + [iterates];
      assert Loops() == old(Loops()) + [LoopInfo(lbl, brk, cont, |handlerStack|, KindOf(counter, iterates))];
    }

    method LeaveLoop()
      requires Valid() && |loopNames| > 0
      modifies `loopBreakLabels, `loopContinueLabels, `loopNames, `loopHandlerDepths, `loopOwnsStackCounter, `loopOwnsIterator
      ensures var n := old(|loopNames|) - 1;
              && loopBreakLabels == old(loopBreakLabels)[..n] && loopContinueLabels == old(loopContinueLabels)[..n]
              && loopNames == old(loopNames)[..n] && loopHandlerDepths == old(loopHandlerDepths)[..n]
              && loopOwnsStackCounter == old(loopOwnsStackCounter)[..n] && loopOwnsIterator == old(loopOwnsIterator)[..n]
    {
      var n := |loopNames| - 1;
      loopBreakLabels, loopContinueLabels, loopNames := loopBreakLabels[..n], loopContinueLabels[..n], loopNames[..n];
      loopHandlerDepths, loopOwnsStackCounter, loopOwnsIterator := loopHandlerDepths[..n], loopOwnsStackCounter[..n], loopOwnsIterator[..n];
    }

    /** The body of a loop, compiled with the loop on the stacks. */
    method GenLoopBody(body: Block, lbl: Label, brk: nat, cont: nat, counter: bool, iterates: bool) returns (ok: bool)
      requires Valid()
      modifies this
      ensures ok <==> BlockCompiles(body, old(loopNames) + [lbl])
      ensures ok ==> Wrote(old(code), Codegen.GenBlock(body, false,
                old(Context()).Enter(LoopInfo(lbl, brk, cont, old(|handlerStack|), KindOf(counter, iterates))), old(labelCounter)))
      ensures ok ==> Restored()
      decreases Rank(BlockExits(body)), body, 4
    {
      EnterLoop(lbl, brk, cont, counter, iterates);
      ok := GenBlock(body, false);
      if ok {
        LeaveLoop();
      }
    }

    method GenWhile(s: Stmt) returns (ok: bool)
      requires Valid() && s.While?
      modifies this
      ensures ok <==> Compiles(s, old(loopNames))
      ensures ok ==> Wrote(old(code), Codegen.GenStmt(s, false, old(Context()), old(labelCounter)))
      ensures ok ==> Restored()
      decreases Rank(HasExit(s)), s, 4
    {
      hide Codegen.GenStmt, Codegen.GenExpr, Codegen.GenBlock, Compiles, BlockCompiles, HasExit, BlockExits, Valid,
           Loops, Rank;
      ghost var c0, n, cx := code, labelCounter, Context();
      WhileStep(s, cx, n, loopNames);
      ghost var ec := Codegen.GenExpr(s.cond, cx, n + 2);
      ghost var eb := Codegen.GenBlock(s.body, false, cx.Enter(LoopInfo(s.lbl, n + 1, n, |cx.handlers|, Plain)), ec.next);
      var start := FreshLabel();
      var end := FreshLabel();
      Emit(Mark(start));
      GenExpr(s.cond);
      Emit(GotoIfNot(end));
      ok := GenLoopBody(s.body, s.lbl, end, start, false, false);
      if ok {
        EmitAll([Goto(start), Mark(end)]);
        CatFour(c0 + [Mark(n)], ec.code, [GotoIfNot(n + 1)], eb.code, [Goto(n), Mark(n + 1)]);
        Cat(c0, [Mark(n)], ec.code + ([GotoIfNot(n + 1)] + (eb.code + [Goto(n), Mark(n + 1)])));
      }
    }

    method GenLoop(s: Stmt) returns (ok: bool)
      requires Valid() && s.Loop? && s.count.None?
      modifies this
      ensures ok <==> Compiles(s, old(loopNames))
      ensures ok ==> Wrote(old(code), Codegen.GenStmt(s, false, old(Context()), old(labelCounter)))
      ensures ok ==> Restored()
      decreases Rank(HasExit(s)), s, 4
    {
      hide Codegen.GenBlock, BlockCompiles;
      ghost var c0, n, cx := code, labelCounter, Context();
      ghost var eb := Codegen.GenBlock(s.body, false, cx.Enter(LoopInfo(s.lbl, n + 1, n, |cx.handlers|, Plain)), n + 2);
      var start := FreshLabel();
      var end := FreshLabel();
      Emit(Mark(start));
      ok := GenLoopBody(s.body, s.lbl, end, start, false, false);
      if ok {
        EmitAll([Goto(start), Mark(end)]);
        assert code == c0 + ([Mark(n)] + (eb.code + [Goto(n), Mark(n + 1)]));
      }
    }

    method GenCounted(s: Stmt) returns (ok: bool)
      requires Valid() && s.Loop? && s.count.Some?
      modifies this
      ensures ok <==> Compiles(s, old(loopNames))
      ensures ok ==> Wrote(old(code), Codegen.GenStmt(s, false, old(Context()), old(labelCounter)))
      ensures ok ==> Restored()
      decreases Rank(HasExit(s)), s, 4
    {
      hide Codegen.GenStmt, Codegen.GenExpr, Codegen.GenBlock, Compiles, BlockCompiles, HasExit, BlockExits, Valid,
           Loops, Rank;
      ghost var c0, n, cx := code, labelCounter, Context();
      CountedStep(s, cx, n, loopNames);
      ghost var ec := Codegen.GenExpr(s.count.value, cx, n + 2);
      ghost var eb := Codegen.GenBlock(s.body, false, cx.Enter(LoopInfo(s.lbl, n + 1, n, |cx.handlers|, Counter)), ec.next + 1);
      var start := FreshLabel();
      var end := FreshLabel();
      GenExpr(s.count.value);
      var done := FreshLabel();
      EmitAll([Mark(start), LoopCountdown(done)]);
      ok := GenLoopBody(s.body, s.lbl, end, start, true, false);
      if ok {
        EmitAll([Goto(start), Mark(done), Mark(end)]);
        CatFour(c0, ec.code, [Mark(n), LoopCountdown(ec.next)], eb.code, [Goto(n), Mark(ec.next), Mark(n + 1)]);
      }
    }

    method GenFor(s: Stmt) returns (ok: bool)
      requires Valid() && s.For?
      modifies this
      ensures ok <==> Compiles(s, old(loopNames))
      ensures ok ==> Wrote(old(code), Codegen.GenStmt(s, false, old(Context()), old(labelCounter)))
      ensures ok ==> Restored()
      decreases Rank(HasExit(s)), s, 4
    {
      hide Codegen.GenStmt, Codegen.GenExpr, Codegen.GenIteration, Codegen.GenElse, Compiles, BlockCompiles, HasExit,
           BlockExits, Valid, Context;
      ghost var c0, n, cx := code, labelCounter, Context();
      ForStep(s, cx, n, loopNames);
      GenExpr(s.iterable);
      Emit(IterNew);
      ghost var k := labelCounter;
      var end;
      ok, end := GenIteration(s.lbl, s.binder, s.body);
      if ok {
        ok := GenElse(s.els, false, false);
        if ok {
          Emit(Mark(end));
          ghost var ei := Codegen.GenExpr(s.iterable, cx, n);
          ghost var el := Codegen.GenIteration(s.lbl, s.binder, s.body, cx, k);
          ghost var ee := Codegen.GenElse(s.els, false, false, cx, el.next);
          CatFour(c0 + ei.code, [IterNew], el.code, ee.code, [Mark(k + 4)]);
          Cat(c0, ei.code, [IterNew] + (el.code + (ee.code + [Mark(k + 4)])));
        }
      }
    }

    method GenIteration(lbl: Label, binder: Option<Name>, body: Block) returns (ok: bool, end: nat)
      requires Valid()
      modifies this
      ensures ok <==> BlockCompiles(body, old(loopNames) + [lbl])
      ensures ok ==> end == old(labelCounter) + 4
                     && Wrote(old(code), Codegen.GenIteration(lbl, binder, body, old(Context()), old(labelCounter)))
      ensures ok ==> Restored()
      decreases Rank(BlockExits(body)), body, 5
    {
      hide Codegen.GenBlock, BlockCompiles;
      ghost var c0, n, cx := code, labelCounter, Context();
      ghost var eb := Codegen.GenBlock(body, false, cx.Enter(LoopInfo(lbl, n + 2, n + 1, |cx.handlers|, Iterating)), n + 5);
      var start := labelCounter;
      end := start + 4;
      labelCounter := start + 5;
      var head := [Mark(start), IterNext, GotoIfNot(start + 3), if binder.Some? then BindFast(binder.value) else Pop];
      EmitAll(head);
      ok := GenLoopBody(body, lbl, start + 2, start + 1, false, true);
      if ok {
        var tail := [Mark(start + 1), Goto(start), Mark(start + 2), IterEnd, Goto(end), Mark(start + 3), IterEnd];
        EmitAll(tail);
        assert code == c0 + (head + (eb.code + tail));
      }
    }

    method GenElse(els: Option<Block>, keep: bool, unit: bool) returns (ok: bool)
      requires Valid()
      modifies this
      ensures ok <==> (els.Some? ==> BlockCompiles(els.value, old(loopNames)))
      ensures ok ==> Wrote(old(code), Codegen.GenElse(els, keep, unit, old(Context()), old(labelCounter)))
      ensures ok ==> Restored()
      decreases Rank(els.Some? && BlockExits(els.value)), els, 3
    {
      ok := true;
      if els.Some? {
        ok := GenBlock(els.value, keep);
      } else if unit {
        Emit(Push(Unit));
      }
    }

    method GenIf(s: Stmt, asValue: bool) returns (ok: bool)
      requires Valid() && s.If?
      modifies this
      ensures ok <==> Compiles(s, old(loopNames))
      ensures ok ==> Wrote(old(code), Codegen.GenStmt(s, asValue, old(Context()), old(labelCounter)))
      ensures ok ==> Restored()
      decreases Rank(HasExit(s)), s, 4
    {
      hide Codegen.GenStmt, Codegen.GenArms, Codegen.GenElse, Compiles, ArmsCompile, BlockCompiles, HasExit, ArmsExit,
           BlockExits, Valid, Context;
      ghost var c0, n, cx := code, labelCounter, Context();
      IfStep(s, asValue, cx, n, loopNames);
      var end := FreshLabel();
      var next := FreshLabel();
      ok := GenArms(s.arms, asValue, end, next);
      if ok {
        ok := GenElse(s.els, asValue, asValue);
        if ok {
          Emit(Mark(end));
          ghost var ea := Codegen.GenArms(s.arms, asValue, cx, n, n + 1, n + 2);
          ghost var ee := Codegen.GenElse(s.els, asValue, asValue, cx, ea.next);
          Cat(c0 + ea.code, ee.code, [Mark(n)]);
          Cat(c0, ea.code, ee.code + [Mark(n)]);
        }
      }
    }

    /** The `if` arm and all `elif` arms. */
    method GenArms(arms: Arms, asValue: bool, end: nat, first: nat) returns (ok: bool)
      requires Valid()
      modifies this
      ensures ok <==> ArmsCompile(arms, old(loopNames))
      ensures ok ==> Wrote(old(code), Codegen.GenArms(arms, asValue, old(Context()), end, first, old(labelCounter)))
      ensures ok ==> Restored()
      decreases Rank(ArmsExit(arms)), arms, 1
    {
      hide Codegen.GenArms, ArmCode, BlockCompiles, BlockExits, Context, Valid;
      ghost var cx, names := Context(), loopNames;
      ghost var whole := Codegen.GenArms(arms, asValue, cx, end, first, labelCounter);
      ArmsStep(arms, asValue, cx, end, first, labelCounter);
      var rest := arms;
      ok := GenArm(arms, asValue, end, first);
      while ok && rest.Arm?
        invariant rest == arms || rest < arms
        invariant ArmsExit(rest) ==> ArmsExit(arms)
        invariant !ok ==> !ArmsCompile(arms, names)
        invariant ok ==> Restored() && (ArmsCompile(arms, names) <==> (rest.Arm? ==> ArmsCompile(rest.rest, names)))
        invariant ok ==> if rest.LastArm? then Wrote(old(code), whole) else
          var x := Codegen.GenArms(rest.rest, asValue, cx, end, labelCounter, labelCounter + 1);
          code + x.code == old(code) + whole.code && x.next == whole.next
        decreases rest
      {
        assert ArmsExit(rest.rest) ==> ArmsExit(rest);
        rest := rest.rest;
        assert BlockExits(rest.body) ==> ArmsExit(rest);
        var next := FreshLabel();
        ghost var before, n := code, labelCounter;
        ArmsStep(rest, asValue, cx, end, next, n);
        ok := GenArm(rest, asValue, end, next);
        if ok && rest.Arm? {
          Turn(old(code), whole.code, before, Codegen.GenArms(rest, asValue, cx, end, next, n).code, code,
               ArmCode(rest, asValue, cx, end, next, n).code, Codegen.GenArms(rest.rest, asValue, cx, end, labelCounter, labelCounter + 1).code);
        }
      }
    }

    /** One arm, up to the mark of the next. */
    method GenArm(arms: Arms, asValue: bool, end: nat, next: nat) returns (ok: bool)
      requires Valid()
      modifies this
      ensures ok <==> BlockCompiles(arms.body, old(loopNames))
      ensures ok ==> Wrote(old(code), ArmCode(arms, asValue, old(Context()), end, next, old(labelCounter)))
      ensures ok ==> Restored()
      decreases Rank(BlockExits(arms.body)), arms, 0
    {
      hide Codegen.GenExpr, Codegen.GenBlock, BlockCompiles, BlockExits, Context;
      GenExpr(arms.cond);
      Emit(GotoIfNot(next));
      ok := GenBlock(arms.body, asValue);
      if ok {
        EmitAll([Goto(end), Mark(next)]);
      }
    }

    // ----- regions -----

    method OpenHandler(h: Handler)
      requires Valid() && (h.DeferHandler? ==> !BlockExits(h.body))
      modifies `handlerStack
      ensures Valid() && handlerStack == old(handlerStack) + [h] && Context() == old(Context()).Open(h)
    {
      handlerStack := handlerStack + [h];
    }

    method CloseHandler()
      requires Valid() && |handlerStack| > 0 && forall i :: 0 <= i < |loopHandlerDepths| ==> loopHandlerDepths[i] < |handlerStack|
      modifies `handlerStack
      ensures Valid() && handlerStack == old(handlerStack)[..old(|handlerStack|) - 1]
    {
      handlerStack := handlerStack[..|handlerStack| - 1];
    }

    /** A block compiled inside an open handler. */
    method GenRegion(b: Block, keep: bool, h: Handler) returns (ok: bool)
      requires Valid() && !h.DeferHandler?
      modifies this
      ensures ok <==> BlockCompiles(b, old(loopNames))
      ensures ok ==> Wrote(old(code), Codegen.GenBlock(b, keep, old(Context()).Open(h), old(labelCounter)))
      ensures ok ==> Restored()
      decreases Rank(BlockExits(b)), b, 4
    {
      OpenHandler(h);
      ok := GenBlock(b, keep);
      if ok {
        CloseHandler();
      }
    }

    method GenTry(s: Stmt, asValue: bool) returns (ok: bool)
      requires Valid() && s.Try?
      modifies this
      ensures ok <==> Compiles(s, old(loopNames))
      ensures ok ==> Wrote(old(code), Codegen.GenTry(s, asValue, old(Context()), old(labelCounter)))
      ensures ok ==> Restored()
      decreases Rank(HasExit(s)), s, 4
    {
      hide Codegen.GenBlock, Compiles, BlockCompiles, CatchesCompile, Codegen.GenTry, TryTailCode, HasExit,
           BlockExits, CatchesExit, Context, Valid;
      ghost var c0, n, cx := code, labelCounter, Context();
      TryAccepted(s, loopNames);
      var catchDispatch := FreshLabel();
      var elseLabel := 0;
      if s.els.Some? {
        elseLabel := FreshLabel();
      }
      var end := FreshLabel();
      Emit(EnterTry(catchDispatch, elseLabel, end));
      ok := GenRegion(s.body, asValue && s.els.None?, TryHandler);
      if ok {
        ghost var eb := Codegen.GenBlock(s.body, asValue && s.els.None?, cx.Open(TryHandler), end + 1);
        ghost var c1 := [EndTry, Mark(n)];
        EmitAll([EndTry, Mark(catchDispatch)]);
        ok := GenTryTail(s, asValue, elseLabel, end);
        if ok {
          ghost var tail := TryTailCode(s, asValue, cx, elseLabel, end, eb.next);
          Cat((c0 + [EnterTry(n, elseLabel, end)]) + eb.code, c1, tail.code);
          Cat(c0 + [EnterTry(n, elseLabel, end)], eb.code, c1 + tail.code);
          Cat(c0, [EnterTry(n, elseLabel, end)], eb.code + (c1 + tail.code));
          TryStep(s, asValue, cx, n);
        }
      }
    }

    method GenTryTail(s: Stmt, asValue: bool, elseLabel: nat, end: nat) returns (ok: bool)
      requires Valid() && s.Try? && (elseLabel != 0 <==> s.els.Some?)
      modifies this
      ensures ok <==> CatchesCompile(s.catches, old(loopNames)) && (s.els.Some? ==> BlockCompiles(s.els.value, old(loopNames)))
      ensures ok ==> Wrote(old(code), TryTailCode(s, asValue, old(Context()), elseLabel, end, old(labelCounter)))
      ensures ok ==> Restored()
      decreases Rank(HasExit(s)), s, 3
    {
      hide BlockCompiles, CatchesCompile, Codegen.GenDispatch, Codegen.GenClauses, Codegen.GenElse, HasExit,
           BlockExits, CatchesExit, Valid, Context;
      TryAccepted(s, loopNames);
      ok := GenCatches(s.catches, asValue, end);
      if ok {
        if elseLabel != 0 {
          Emit(Mark(elseLabel));
        }
        ok := GenElse(s.els, asValue, false);
        if ok {
          Emit(Mark(end));
        }
      }
    }

    /** The dispatch on the exception, with a fresh label for each clause, then the clauses. */
    method GenCatches(catches: Catches, asValue: bool, end: nat) returns (ok: bool)
      requires Valid()
      modifies this
      ensures ok <==> CatchesCompile(catches, old(loopNames))
      ensures ok ==> var k := old(labelCounter);
                     var ec := Codegen.GenClauses(catches, asValue, old(Context()), k, end, k + catches.Count());
                     code == old(code) + (Codegen.GenDispatch(catches, k) + ec.code) && labelCounter == ec.next
      ensures ok ==> Restored()
      decreases Rank(CatchesExit(catches)), catches, 2
    {
      hide Codegen.GenBlock, BlockCompiles, CatchesCompile, Codegen.GenTypeTests, Codegen.GenClauses, SelectUntyped;
      var k := labelCounter;
      var wildcard := GenTypeTests(catches);
      Emit(if wildcard.Some? then Goto(wildcard.value) else Rethrow);
      ok := GenClauses(catches, asValue, k, end);
    }

    method GenTypeTests(catches: Catches) returns (wildcard: Option<nat>)
      modifies `code, `labelCounter
      ensures wildcard == SelectUntyped(catches, old(labelCounter))
      ensures code == old(code) + Codegen.GenTypeTests(catches, old(labelCounter))
      ensures labelCounter == old(labelCounter) + catches.Count()
    {
      wildcard := None;
      var rest := catches;
      while rest.Catch?
        invariant labelCounter + rest.Count() == old(labelCounter) + catches.Count()
        invariant code + Codegen.GenTypeTests(rest, labelCounter) == old(code) + Codegen.GenTypeTests(catches, old(labelCounter))
        invariant (if wildcard.Some? then wildcard else SelectUntyped(rest, labelCounter)) == SelectUntyped(catches, old(labelCounter))
        decreases rest
      {
        var body := FreshLabel();
        if rest.pattern.BindExc? && rest.pattern.typeName.Some? {
          EmitAll([ExcMatch(rest.pattern.typeName.value), GotoIf(body)]);
        } else if wildcard.None? {
          wildcard := Some(body);
        }
        rest := rest.rest;
      }
    }

    method GenClauses(catches: Catches, asValue: bool, first: nat, end: nat) returns (ok: bool)
      requires Valid()
      modifies this
      ensures ok <==> CatchesCompile(catches, old(loopNames))
      ensures ok ==> Wrote(old(code), Codegen.GenClauses(catches, asValue, old(Context()), first, end, old(labelCounter)))
      ensures ok ==> Restored()
      decreases Rank(CatchesExit(catches)), catches, 1
    {
      hide Codegen.GenClauses, BlockCompiles;
      ghost var cx, names := Context(), loopNames;
      ghost var whole := Codegen.GenClauses(catches, asValue, cx, first, end, labelCounter);
      var rest, lbl := catches, first;
      ok := true;
      while ok && rest.Catch?
        invariant rest == catches || rest < catches
        invariant CatchesExit(rest) ==> CatchesExit(catches)
        invariant !ok ==> !CatchesCompile(catches, names)
        invariant ok ==> Restored() && (CatchesCompile(catches, names) <==> CatchesCompile(rest, names))
        invariant ok ==> var x := Codegen.GenClauses(rest, asValue, cx, lbl, end, labelCounter);
                         code + x.code == old(code) + whole.code && x.next == whole.next
        decreases rest, ok
      {
        ghost var before, n := code, labelCounter;
        ClausesStep(rest, asValue, cx, lbl, end, n);
        ok := GenClause(rest, asValue, lbl, end);
        if ok {
          Turn(old(code), whole.code, before, Codegen.GenClauses(rest, asValue, cx, lbl, end, n).code, code,
               ClauseCode(rest, asValue, cx, lbl, end, n).code, Codegen.GenClauses(rest.rest, asValue, cx, lbl + 1, end, labelCounter).code);
          rest, lbl := rest.rest, lbl + 1;
        }
      }
      if ok { NoClauses(rest, asValue, cx, lbl, end, labelCounter); }
    }

    method GenClause(catches: Catches, asValue: bool, lbl: nat, end: nat) returns (ok: bool)
      requires Valid() && catches.Catch?
      modifies this
      ensures ok <==> BlockCompiles(catches.body, old(loopNames))
      ensures ok ==> Wrote(old(code), ClauseCode(catches, asValue, old(Context()), lbl, end, old(labelCounter)))
      ensures ok ==> Restored()
      decreases Rank(BlockExits(catches.body)), catches, 0
    {
      hide Codegen.GenBlock, BlockCompiles, Context, BlockExits, Valid, HasExit;
      Emit(Mark(lbl));
      if catches.pattern.BindExc? {
        EmitAll([PushExc, BindFast(catches.pattern.x)]);
      }
      Emit(PopTry);
      ok := GenBlock(catches.body, asValue);
      if ok {
        Emit(Goto(end));
      }
    }

    method GenWith(s: Stmt, asValue: bool) returns (ok: bool)
      requires Valid() && s.With?
      modifies this
      ensures ok <==> Compiles(s, old(loopNames))
      ensures ok ==> Wrote(old(code), Codegen.GenWith(s, asValue, old(Context()), old(labelCounter)))
      ensures ok ==> Restored()
      decreases Rank(HasExit(s)), s, 4
    {
      hide Codegen.GenWith, Codegen.GenExpr, Codegen.GenBlock, Compiles, BlockCompiles, HasExit, BlockExits,
           GenWithEnter, GenWithLeave, GenAlias, Context, Valid, Rank, GenRange;
      ghost var c0, n, cx := code, labelCounter, Context();
      WithAccepted(s, loopNames);
      var ctx := FreshLabel();
      var exc := FreshLabel();
      var entered := FreshLabel();
      GenExpr(s.context);
      ghost var ec := Codegen.GenExpr(s.context, cx, n + 3);
      ghost var k := ec.next;
      var first := EnterWith(ctx, entered, s.alias);
      ok := GenRegion(s.body, asValue, WithHandler(ctx));
      if ok {
        LeaveWith(ctx, exc, first, asValue);
        ghost var eb := Codegen.GenBlock(s.body, asValue, cx.Open(WithHandler(n)), k + 4);
        ghost var leave := GenWithLeave(n, k) + ((if asValue then [Push(Unit)] else []) + [Mark(k + 3)]);
        CatFour(c0, ec.code, GenWithEnter(n, k) + GenAlias(s.alias, n), eb.code, leave);
        WithStep(s, asValue, cx, n);
      }
    }

    /** Keep the context, call `__enter__`, open the region, bind the result; returns the first of
        the four labels. */
    method EnterWith(ctx: nat, entered: nat, alias: Option<Name>) returns (catchDispatch: nat)
      requires entered == ctx + 2
      modifies `code, `labelCounter
      ensures catchDispatch == old(labelCounter) && labelCounter == catchDispatch + 4
      ensures code == old(code) + (GenWithEnter(ctx, catchDispatch) + GenAlias(alias, ctx))
    {
      EmitAll([StoreFast(Temp(ctx)), LoadFast(Temp(ctx)), GetAttr(WITH_ENTER), CallN(0), StoreFast(Temp(entered))]);
      catchDispatch := FreshLabel();
      var successCleanup := FreshLabel();
      var suppressed := FreshLabel();
      var tryEnd := FreshLabel();
      Emit(EnterTry(catchDispatch, successCleanup, tryEnd));
      if alias.Some? {
        EmitAll([LoadFast(Temp(entered)), BindFast(alias.value)]);
      }
    }

    /** The cleanup after the body: without an exception, and with one. */
    method LeaveWith(ctx: nat, exc: nat, catchDispatch: nat, asValue: bool)
      requires exc == ctx + 1
      modifies `code
      ensures code == old(code) + (GenWithLeave(ctx, catchDispatch) + ((if asValue then [Push(Unit)] else []) + [Mark(catchDispatch + 3)]))
    {
      EmitAll([EndTry, Mark(catchDispatch + 1), LoadFast(Temp(ctx)), Push(Unit)] + CALL_EXIT + [Pop, Goto(catchDispatch + 3),
               Mark(catchDispatch), PushExc, StoreFast(Temp(exc)), PopTry, LoadFast(Temp(ctx)), LoadFast(Temp(exc))] + CALL_EXIT
              + [GotoIf(catchDispatch + 2), LoadFast(Temp(exc)), Raise, Mark(catchDispatch + 2)]);
      if asValue {
        Emit(Push(Unit));
      }
      Emit(Mark(catchDispatch + 3));
    }

    // ----- match -----

    method GenMatch(s: Stmt, asValue: bool) returns (ok: bool)
      requires Valid() && s.Match?
      modifies this
      ensures ok <==> Compiles(s, old(loopNames))
      ensures ok ==> Wrote(old(code), Codegen.GenMatch(s, asValue, old(Context()), old(labelCounter)))
      ensures ok ==> Restored()
      decreases Rank(HasExit(s)), s, 4
    {
      hide Codegen.GenExpr, Codegen.GenCases, Codegen.GenElse, BlockCompiles, CasesCompile;
      ghost var c0, n, cx := code, labelCounter, Context();
      var temp := FreshLabel();
      GenExpr(s.subject);
      Emit(StoreFast(Temp(temp)));
      ghost var es := Codegen.GenExpr(s.subject, cx, n + 1);
      ok := GenMatchBody(s, temp, asValue);
      if ok {
        ghost var ec := Codegen.GenCases(s.cases, n, asValue, cx, es.next, es.next + 1, es.next + 2);
        ghost var ee := Codegen.GenElse(s.els, asValue, asValue, cx, ec.next);
        Cat(c0 + es.code, [StoreFast(Temp(n))], ec.code + (ee.code + [Mark(es.next)]));
        Cat(c0, es.code, [StoreFast(Temp(n))] + (ec.code + (ee.code + [Mark(es.next)])));
      }
    }

    method GenMatchBody(s: Stmt, temp: nat, asValue: bool) returns (ok: bool)
      requires Valid() && s.Match?
      modifies this
      ensures ok <==> Compiles(s, old(loopNames))
      ensures ok ==> var end := old(labelCounter);
                     var ec := Codegen.GenCases(s.cases, temp, asValue, old(Context()), end, end + 1, end + 2);
                     var ee := Codegen.GenElse(s.els, asValue, asValue, old(Context()), ec.next);
                     code == old(code) + (ec.code + (ee.code + [Mark(end)])) && labelCounter == ee.next
      ensures ok ==> Restored()
      decreases Rank(HasExit(s)), s, 3
    {
      hide Codegen.GenCases, Codegen.GenElse, BlockCompiles, CasesCompile;
      var end := FreshLabel();
      var next := FreshLabel();
      ok := GenCases(s.cases, temp, asValue, end, next);
      if ok {
        ok := GenElse(s.els, asValue, asValue);
        if ok {
          Emit(Mark(end));
        }
      }
    }

    method GenCases(cases: Cases, temp: nat, asValue: bool, end: nat, first: nat) returns (ok: bool)
      requires Valid()
      modifies this
      ensures ok <==> CasesCompile(cases, old(loopNames))
      ensures ok ==> Wrote(old(code), Codegen.GenCases(cases, temp, asValue, old(Context()), end, first, old(labelCounter)))
      ensures ok ==> Restored()
      decreases Rank(CasesExit(cases)), cases, 2
    {
      hide Codegen.GenCases, BlockCompiles;
      ghost var cx, names := Context(), loopNames;
      ghost var whole := Codegen.GenCases(cases, temp, asValue, cx, end, first, labelCounter);
      var rest, next := cases, first;
      ok := true;
      while ok && rest.Case?
        invariant rest == cases || rest < cases
        invariant CasesExit(rest) ==> CasesExit(cases)
        invariant !ok ==> !CasesCompile(cases, names)
        invariant ok ==> Restored() && (CasesCompile(cases, names) <==> CasesCompile(rest, names))
        invariant ok ==> var x := Codegen.GenCases(rest, temp, asValue, cx, end, next, labelCounter);
                         code + x.code == old(code) + whole.code && x.next == whole.next
        decreases rest, ok
      {
        ghost var before, n, was := code, labelCounter, next;
        CasesStep(rest, temp, asValue, cx, end, next, n);
        ok, next := GenCase(rest, temp, asValue, next, end);
        if ok {
          Turn(old(code), whole.code, before, Codegen.GenCases(rest, temp, asValue, cx, end, was, n).code, code,
               [Mark(was)] + CaseCode(rest, temp, asValue, cx, end, n).code,
               Codegen.GenCases(rest.rest, temp, asValue, cx, end, n, labelCounter).code);
          rest := rest.rest;
        }
      }
      if ok {
        NoCases(rest, temp, asValue, cx, end, next, labelCounter);
        Emit(Mark(next));
      }
    }

    /** One case with the mark before it; `fail` is the label of the next. */
    method GenCase(cases: Cases, temp: nat, asValue: bool, lbl: nat, end: nat) returns (ok: bool, fail: nat)
      requires Valid() && cases.Case?
      modifies this
      ensures fail == old(labelCounter)
      ensures ok <==> cases.pattern == OneOf(NoPat) || BlockCompiles(cases.body, old(loopNames))
      ensures ok ==> var x := CaseCode(cases, temp, asValue, old(Context()), end, fail);
                     code == old(code) + ([Mark(lbl)] + x.code) && labelCounter == x.next
      ensures ok ==> Restored()
      decreases Rank(BlockExits(cases.body)), cases, 1
    {
      hide CaseCode, BlockCompiles;
      Emit(Mark(lbl));
      fail := FreshLabel();
      if cases.pattern.Single? {
        ok := GenSingle(cases, temp, asValue, fail, end);
      } else {
        ok := GenOneOf(cases, temp, asValue, fail, end);
      }
    }

    method GenSingle(cases: Cases, temp: nat, asValue: bool, fail: nat, end: nat) returns (ok: bool)
      requires Valid() && cases.Case? && cases.pattern.Single? && labelCounter == fail + 1
      modifies this
      ensures ok <==> BlockCompiles(cases.body, old(loopNames))
      ensures ok ==> Wrote(old(code), CaseCode(cases, temp, asValue, old(Context()), end, fail))
      ensures ok ==> Restored()
      decreases Rank(BlockExits(cases.body)), cases, 0
    {
      hide Codegen.GenTest, Codegen.GenBind, Codegen.GenBlock, BlockCompiles;
      ghost var c0, cx := code, Context();
      ghost var et := Codegen.GenTest(cases.pattern.p, temp, [], fail, cx, fail + 2);
      ghost var eb := Codegen.GenBlock(cases.body, asValue, cx, et.next);
      var body := FreshLabel();
      GenTest(cases.pattern.p, temp, [], fail);
      EmitAll([Goto(body), Mark(body)]);
      GenBind(cases.pattern.p, temp, []);
      ok := GenBlock(cases.body, asValue);
      if ok {
        Emit(Goto(end));
        assert code == c0 + (et.code + ([Goto(fail + 1), Mark(fail + 1)] + (Codegen.GenBind(cases.pattern.p, temp, []) + (eb.code + [Goto(end)]))));
      }
    }

    method GenOneOf(cases: Cases, temp: nat, asValue: bool, fail: nat, end: nat) returns (ok: bool)
      requires Valid() && cases.Case? && cases.pattern.OneOf? && labelCounter == fail + 1
      modifies this
      ensures ok <==> cases.pattern.alts.NoPat? || BlockCompiles(cases.body, old(loopNames))
      ensures ok ==> Wrote(old(code), CaseCode(cases, temp, asValue, old(Context()), end, fail))
      ensures ok ==> Restored()
      decreases Rank(BlockExits(cases.body)), cases, 0
    {
      hide Codegen.GenAltTests, Codegen.GenAltBodies, BlockCompiles;
      var labels := GenAltTests(cases.pattern.alts, temp);
      Emit(Goto(fail));
      ok := GenAltBodies(cases.pattern.alts, labels, temp, cases.body, asValue, end);
    }

    method GenAltBodies(alts: Patterns, labels: seq<nat>, temp: nat, body: Block, asValue: bool, end: nat) returns (ok: bool)
      requires Valid() && |labels| == alts.Count()
      modifies this
      ensures ok <==> alts.NoPat? || BlockCompiles(body, old(loopNames))
      ensures ok ==> Wrote(old(code), Codegen.GenAltBodies(alts, labels, temp, body, asValue, old(Context()), end, old(labelCounter)))
      ensures ok ==> Restored()
      decreases Rank(BlockExits(body)), body, 4
    {
      hide Codegen.GenAltBodies, BlockCompiles;
      ghost var cx, names := Context(), loopNames;
      ghost var whole := Codegen.GenAltBodies(alts, labels, temp, body, asValue, cx, end, labelCounter);
      var rest, lbls := alts, labels;
      ok := true;
      while ok && rest.MorePat?
        invariant |lbls| == rest.Count()
        invariant !ok ==> alts.MorePat? && !BlockCompiles(body, names)
        invariant ok ==> Restored() && (rest == alts || BlockCompiles(body, names))
        invariant ok ==> var x := Codegen.GenAltBodies(rest, lbls, temp, body, asValue, cx, end, labelCounter);
                         code + x.code == old(code) + whole.code && x.next == whole.next
        decreases rest, ok
      {
        ghost var before, n := code, labelCounter;
        AltBodiesStep(rest, lbls, temp, body, asValue, cx, end, n);
        ok := GenAltBody(rest.head, lbls[0], temp, body, asValue, end);
        if ok {
          Turn(old(code), whole.code, before, Codegen.GenAltBodies(rest, lbls, temp, body, asValue, cx, end, n).code, code,
               AltBody(rest.head, lbls[0], temp, body, asValue, cx, end, n).code,
               Codegen.GenAltBodies(rest.tail, lbls[1..], temp, body, asValue, cx, end, labelCounter).code);
          rest, lbls := rest.tail, lbls[1..];
        }
      }
      if ok { NoAltBodies(rest, lbls, temp, body, asValue, cx, end, labelCounter); }
    }

    method GenAltBody(p: Pattern, lbl: nat, temp: nat, body: Block, asValue: bool, end: nat) returns (ok: bool)
      requires Valid()
      modifies this
      ensures ok <==> BlockCompiles(body, old(loopNames))
      ensures ok ==> Wrote(old(code), AltBody(p, lbl, temp, body, asValue, old(Context()), end, old(labelCounter)))
      ensures ok ==> Restored()
      decreases Rank(BlockExits(body)), body, 3
    {
      hide Codegen.GenBind, Codegen.GenBlock, BlockCompiles;
      Emit(Mark(lbl));
      GenBind(p, temp, []);
      ok := GenBlock(body, asValue);
      if ok {
        Emit(Goto(end));
      }
    }

    // ----- blocks -----

    method GenBlock(b: Block, keep: bool) returns (ok: bool)
      requires Valid()
      modifies this
      ensures ok <==> BlockCompiles(b, old(loopNames))
      ensures ok ==> Wrote(old(code), Codegen.GenBlock(b, keep, old(Context()), old(labelCounter)))
      ensures ok ==> Restored()
      decreases Rank(BlockExits(b)), b, 2
    {
      hide BlockCompiles, Codegen.GenRange;
      ok := GenBlockRange(b, keep && BlockYields(b));
      if ok && keep && !BlockYields(b) {
        Emit(Push(Unit));
      }
    }

    /** The statements in order; a `defer` hands the rest of the block to its region. */
    method GenBlockRange(b: Block, keep: bool) returns (ok: bool)
      requires Valid()
      modifies this
      ensures ok <==> BlockCompiles(b, old(loopNames))
      ensures ok ==> Wrote(old(code), Codegen.GenRange(b, keep, old(Context()), old(labelCounter)))
      ensures ok ==> Restored()
      decreases Rank(BlockExits(b)), b, 1
    {
      hide Codegen.GenRange, Compiles;
      ghost var cx, names := Context(), loopNames;
      ghost var whole := Codegen.GenRange(b, keep, cx, labelCounter);
      var rest := b;
      ok := true;
      while ok && rest.Cons? && !rest.head.Defer?
        invariant rest == b || rest < b
        invariant BlockExits(rest) ==> BlockExits(b)
        invariant !ok ==> !BlockCompiles(b, names)
        invariant ok ==> Restored() && (BlockCompiles(b, names) <==> BlockCompiles(rest, names))
        invariant ok ==> var x := Codegen.GenRange(rest, keep, cx, labelCounter);
                         code + x.code == old(code) + whole.code && x.next == whole.next
        decreases rest, ok
      {
        ghost var before, n := code, labelCounter;
        RangeStep(rest, keep, cx, n);
        ok := GenStmt(rest.head, keep && rest.tail.Nil?);
        if ok {
          Turn(old(code), whole.code, before, Codegen.GenRange(rest, keep, cx, n).code, code,
               Codegen.GenStmt(rest.head, keep && rest.tail.Nil?, cx, n).code, Codegen.GenRange(rest.tail, keep, cx, labelCounter).code);
          rest := rest.tail;
        }
      }
      if ok && rest.Cons? {
        ok := GenDefer(rest, keep);
      } else if ok {
        NoRange(rest, keep, cx, labelCounter);
      }
    }

    /** A deferred body around the rest of the block: the region, then the cleanup for both of its ends. */
    method GenDefer(b: Block, keep: bool) returns (ok: bool)
      requires Valid() && b.Cons? && b.head.Defer?
      modifies this
      ensures ok <==> BlockCompiles(b, old(loopNames))
      ensures ok ==> Wrote(old(code), Codegen.GenRange(b, keep, old(Context()), old(labelCounter)))
      ensures ok ==> Restored()
      decreases Rank(BlockExits(b)), b, 0
    {
      hide Codegen.GenRange, Codegen.GenBlock, BlockCompiles, BlockExits, DeferCleanups, Context;
      DeferAccepted(b, loopNames);
      ok := !BlockExits(b.head.body);
      if ok {
        ghost var c0, n, cx := code, labelCounter, Context();
        BlockAnywhere(b.head.body, loopNames);
        var catchLabel := FreshLabel();
        var success := FreshLabel();
        var end := FreshLabel();
        Emit(EnterTry(catchLabel, success, end));
        ok := GenDeferRegion(b.tail, keep, b.head.body);
        if ok {
          GenDeferCleanups(b.head.body, catchLabel, success, end);
          DeferStep(b, keep, cx, n);
          var er := Codegen.GenRange(b.tail, keep, cx.Open(DeferHandler(b.head.body)), n + 3);
          Cat(c0 + [EnterTry(n, n + 1, n + 2)], er.code, DeferCleanups(b.head.body, cx, n, er.next).code);
          Cat(c0, [EnterTry(n, n + 1, n + 2)], er.code + DeferCleanups(b.head.body, cx, n, er.next).code);
        }
      }
    }

    method GenDeferRegion(rest: Block, keep: bool, cleanup: Block) returns (ok: bool)
      requires Valid() && !BlockExits(cleanup)
      modifies this
      ensures ok <==> BlockCompiles(rest, old(loopNames))
      ensures ok ==> Wrote(old(code), Codegen.GenRange(rest, keep, old(Context()).Open(DeferHandler(cleanup)), old(labelCounter)))
      ensures ok ==> Restored()
      decreases Rank(BlockExits(rest)), rest, 2
    {
      hide Codegen.GenRange, BlockCompiles, BlockExits;
      OpenHandler(DeferHandler(cleanup));
      ok := GenBlockRange(rest, keep);
      if ok {
        CloseHandler();
      }
    }

    method GenDeferCleanups(cleanup: Block, catchLabel: nat, success: nat, end: nat)
      requires Valid() && !BlockExits(cleanup) && success == catchLabel + 1 && end == catchLabel + 2
      modifies this
      ensures Wrote(old(code), DeferCleanups(cleanup, old(Context()), catchLabel, old(labelCounter)))
      ensures Restored()
      decreases 0, cleanup, 3
    {
      hide Codegen.GenBlock, BlockCompiles, BlockExits, Context, Compiles, Valid, HasExit;
      BlockAnywhere(cleanup, loopNames);
      EmitAll([EndTry, Mark(success)]);
      var ok := GenBlock(cleanup, false);
      EmitAll([Goto(end), Mark(catchLabel), PopTry]);
      ok := GenBlock(cleanup, false);
      EmitAll([Rethrow, Mark(end)]);
    }

    // ----- exits -----

    /** The cleanups of the open handlers above `downTo`, innermost first; the handlers stay open. */
    method EmitHandlerExitCleanups(downTo: nat)
      requires Valid() && downTo <= |handlerStack|
      modifies this
      ensures Restored()
      ensures Wrote(old(code), GenCleanups(old(handlerStack)[downTo..], old(Context()), old(labelCounter)))
      decreases 1, 1, |handlerStack|
    {
      hide Codegen.GenCleanup;
      ghost var hs, cx := handlerStack, Context();
      ghost var whole := GenCleanups(hs[downTo..], cx, labelCounter);
      var i := |handlerStack|;
      assert hs[downTo..i] == hs[downTo..];
      while i > downTo
        invariant Restored() && downTo <= i <= |hs|
        invariant var x := GenCleanups(hs[downTo..i], cx, labelCounter);
                  code + x.code == old(code) + whole.code && x.next == whole.next
      {
        i := i - 1;
        assert hs[downTo..i + 1][..i - downTo] == hs[downTo..i];
        GenCleanup(handlerStack[i]);
      }
      assert hs[downTo..i] == [];
    }

    method GenCleanup(h: Handler)
      requires Valid() && (h.DeferHandler? ==> !BlockExits(h.body))
      modifies this
      ensures Wrote(old(code), Codegen.GenCleanup(h, old(Context()), old(labelCounter)))
      ensures Restored()
      decreases 1, 0, 0
    {
      Emit(PopTry);
      match h
      case TryHandler =>
      case WithHandler(ctx) => EmitAll([LoadFast(Temp(ctx)), Push(Unit)] + CALL_EXIT + [Pop]);
      case DeferHandler(body) =>
        BlockAnywhere(body, loopNames);
        var ok := GenBlock(body, false);
    }

    /** The innermost loop with the label, or the innermost loop of all. */
    method LoopIndex(lbl: Label) returns (index: Option<nat>)
      requires Valid()
      ensures index == Codegen.LoopIndex(Loops(), lbl)
      ensures index.Some? <==> exists i :: 0 <= i < |loopNames| && Hits(lbl, loopNames[i])
      ensures index.Some? ==> index.value < |loopNames|
    {
      var i := |loopNames|;
      assert Loops()[..i] == Loops();
      while i > 0
        invariant 0 <= i <= |loopNames| && Codegen.LoopIndex(Loops()[..i], lbl) == Codegen.LoopIndex(Loops(), lbl)
        invariant forall j :: i <= j < |loopNames| ==> !Hits(lbl, loopNames[j])
      {
        i := i - 1;
        assert Loops()[..i + 1][..i] == Loops()[..i];
        if Hits(lbl, loopNames[i]) {
          return Some(i);
        }
      }
      return None;
    }

    /** Drop what the loops inside loop `index` keep, from the innermost out. */
    method DiscardInner(index: nat)
      requires Valid() && index < |loopNames|
      modifies `code
      ensures code == old(code) + Discards(Kinds(Loops()[index + 1..]))
    {
      ghost var kinds := Kinds(Loops()[index + 1..]);
      var nested := |loopNames|;
      assert kinds[..nested - index - 1] == kinds;
      while nested > index + 1
        invariant index + 1 <= nested <= |loopNames|
        invariant code + Discards(kinds[..nested - index - 1]) == old(code) + Discards(kinds)
      {
        ghost var before, k := code, nested - index - 1;
        nested := nested - 1;
        assert kinds[k - 1] == KindOf(loopOwnsStackCounter[nested], loopOwnsIterator[nested]);
        if loopOwnsStackCounter[nested] {
          Emit(Pop);
        } else if loopOwnsIterator[nested] {
          Emit(IterEnd);
        }
        DiscardStep(kinds, k);
        Turn(old(code), Discards(kinds), before, Discards(kinds[..k]), code, DiscardCode(kinds[k - 1]), Discards(kinds[..k - 1]));
      }
      assert kinds[..nested - index - 1] == [];
    }

    /** `break` and `continue`. */
    method GenJump(o: Outcome) returns (ok: bool)
      requires Valid() && (o.Broke? || o.Continued?)
      modifies this
      ensures ok <==> exists i :: 0 <= i < |old(loopNames)| && Hits(o.lbl, old(loopNames)[i])
      ensures ok ==> Wrote(old(code), GenExit(o, old(Context()), old(labelCounter)))
      ensures ok ==> Restored()
      decreases 1, 2, 0
    {
      hide GenCleanups, GenLeave, Codegen.LoopIndex;
      ghost var cx := Context();
      var index := LoopIndex(o.lbl);
      ok := index.Some?;
      if ok {
        assert cx.loops[index.value].depth == loopHandlerDepths[index.value];
        EmitHandlerExitCleanups(loopHandlerDepths[index.value]);
        LeaveFor(o, index.value);
      }
    }

    /** Leave the loops inside loop `index` and jump. */
    method LeaveFor(o: Outcome, index: nat)
      requires Valid() && (o.Broke? || o.Continued?) && index < |loopNames| && Codegen.LoopIndex(Loops(), o.lbl) == Some(index)
      modifies `code
      ensures Wrote(old(code), GenLeave(o, Loops(), [], labelCounter))
    {
      hide Discards, Codegen.LoopIndex;
      ghost var loops := Loops();
      assert Kinds(loops[index + 1..]) + [] == Kinds(loops[index + 1..]);
      DiscardInner(index);
      if o.Broke? && loopOwnsStackCounter[index] {
        Emit(Pop);
      }
      Emit(Goto(if o.Broke? then loopBreakLabels[index] else loopContinueLabels[index]));
    }

    /** Drop the counters that loops keep on the operand stack; a returned value is set aside first. */
    method DiscardLoopStackCounters(keepTos: bool)
      requires Valid()
      modifies `code, `labelCounter
      ensures var k := Counters(Kinds(Loops()));
              if k == 0 then code == old(code) && labelCounter == old(labelCounter)
              else if keepTos then
                code == old(code) + [StoreFast(Temp(old(labelCounter)))] + Pops(k) + [LoadFast(Temp(old(labelCounter)))]
                && labelCounter == old(labelCounter) + 1
              else code == old(code) + Pops(k) && labelCounter == old(labelCounter)
    {
      var n := CountCounters();
      if n == 0 {
        return;
      }
      var temp := 0;
      if keepTos {
        temp := FreshLabel();
        Emit(StoreFast(Temp(temp)));
      }
      ghost var c0 := code;
      var i := n;
      while i > 0
        invariant 0 <= i <= n && code + Pops(i) == c0 + Pops(n) && labelCounter == old(labelCounter) + if keepTos then 1 else 0
      {
        Emit(Pop);
        i := i - 1;
      }
      assert code == c0 + Pops(n) by { assert code + [] == code; }
      if keepTos {
        Emit(LoadFast(Temp(temp)));
      }
    }

    method CountCounters() returns (n: nat)
      requires Valid()
      ensures n == Counters(Kinds(Loops()))
    {
      n := 0;
      var i := 0;
      while i < |loopOwnsStackCounter|
        invariant 0 <= i <= |loopOwnsStackCounter| && n == Counters(Kinds(Loops())[..i])
      {
        assert Kinds(Loops())[..i + 1][..i] == Kinds(Loops())[..i];
        if loopOwnsStackCounter[i] {
          n := n + 1;
        }
        i := i + 1;
      }
      assert Kinds(Loops())[..i] == Kinds(Loops());
    }

    method GenReturn(result: Option<Expr>)
      requires Valid()
      modifies this
      ensures Wrote(old(code), Codegen.GenStmt(Return(result), false, old(Context()), old(labelCounter)))
      ensures Restored()
      decreases 1, 3, 0
    {
      hide GenExit, Codegen.GenExpr;
      if result.Some? && result.value.Var? && result.value.x in sc.locals {
        GenReturnVar(result.value.x);
      } else {
        if result.Some? {
          GenExpr(result.value);
        } else {
          Emit(Push(Unit));
        }
        GenReturnFromTos();
      }
    }

    /** `return x` for a local: the slot is read after the cleanups. */
    method GenReturnVar(x: Name)
      requires Valid()
      modifies this
      ensures Wrote(old(code), GenExit(ReturnedVar(x, 0), old(Context()), old(labelCounter)))
      ensures Restored()
      decreases 1, 2, 0
    {
      hide GenCleanups, Pops, Counters;
      ghost var cx := Context();
      assert cx.handlers[0..] == handlerStack[0..] && Kinds(cx.loops) + [] == Kinds(cx.loops);
      EmitHandlerExitCleanups(0);
      DiscardLoopStackCounters(false);
      assert Counters(Kinds(cx.loops)) == 0 ==> Pops(Counters(Kinds(cx.loops))) == [] by { NoPops(); }
      Emit(RetFast(Local(x)));
    }

    method GenReturnFromTos()
      requires Valid()
      modifies this
      ensures Wrote(old(code), GenExit(Returned(Unit, 0), old(Context()), old(labelCounter)))
      ensures Restored()
      decreases 1, 2, 0
    {
      hide GenCleanups, Pops, Counters;
      ghost var cx := Context();
      assert cx.handlers[0..] == handlerStack[0..] && Kinds(cx.loops) + [] == Kinds(cx.loops);
      EmitHandlerExitCleanups(0);
      DiscardLoopStackCounters(true);
      Emit(RetTop);
    }

    /** A whole function body: a value left at its end is returned. */
    method Compile(b: Block) returns (ok: bool)
      requires Valid() && Context() == Ctx(sc, env, [], []) && code == [] && labelCounter == 0
      modifies this
      ensures ok <==> BlockCompiles(b, [])
      ensures ok ==> code == GenBody(b, sc, env)
    {
      ok := GenBlock(b, true);
      if ok {
        Emit(RetTop);
      }
    }
  }
}
