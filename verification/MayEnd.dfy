/** Which ends a body can have, whatever its calls answer: an analysis of the syntax that no run
    escapes. */
module MayEnd {
  import opened Wrappers
  import opened Syntax
  import opened Semantics

  /** How a statement ends, without the values. `inFor`: the `return` stood inside a `for`. */
  datatype End = Falls | Breaks(lbl: Label) | Continues(lbl: Label) | Returns(inFor: bool) | Throws

  /** Running out of fuel is no end. */
  function EndOf(o: Outcome): End
    requires !o.Timeout?
  {
    match o
    case Normal(_) => Falls
    case Broke(lbl) => Breaks(lbl)
    case Continued(lbl) => Continues(lbl)
    case Returned(_, fors) => Returns(fors > 0)
    case ReturnedVar(_, fors) => Returns(fors > 0)
    case Threw(_) => Throws
  }

  // ----- expressions -----

  /** Constants and locals are always there; a global, an operator, a call or an attribute may fail. */
  predicate CanFail(e: Expr, sc: Scope) {
    match e
    case Const(_) => false
    case Var(x) => x !in sc.consts && x !in sc.locals
    case Unary(op, a) => op != TruthyNot || CanFail(a, sc)
    case And(a, b) => CanFail(a, sc) || CanFail(b, sc)
    case Or(a, b) => CanFail(a, sc) || CanFail(b, sc)
    case IfElse(c, a, b) => CanFail(c, sc) || CanFail(a, sc) || CanFail(b, sc)
    case Tuple(es) => AnyFails(es, sc)
    case _ => true
  }

  predicate AnyFails(es: Exprs, sc: Scope) {
    es.MoreExpr? && (CanFail(es.head, sc) || AnyFails(es.tail, sc))
  }

  predicate PatternFails(p: Pattern, sc: Scope) {
    match p
    case BindPat(_) => false
    case ValuePat(e) => CanFail(e, sc)
    case SeqPat(ps) => PatternsFail(ps, sc)
  }

  predicate PatternsFail(ps: Patterns, sc: Scope) {
    ps.MorePat? && (PatternFails(ps.head, sc) || PatternsFail(ps.tail, sc))
  }

  predicate CaseCanFail(p: CasePattern, sc: Scope) {
    match p
    case Single(q) => PatternFails(q, sc)
    case OneOf(alts) => PatternsFail(alts, sc)
  }

  // ----- statements -----

  /** A `break` that ends this loop. */
  predicate MayBreak(body: Block, lbl: Label, sc: Scope)
    decreases body, 1
  {
    MayBlock(body, Breaks(None), sc) || MayBlock(body, Breaks(lbl), sc)
  }

  /** An end of the body that the loop does not take for itself. */
  predicate Passes(k: End, lbl: Label) {
    match k
    case Falls => false
    case Breaks(l) => !Hits(l, lbl)
    case Continues(l) => !Hits(l, lbl)
    case _ => true
  }

  predicate May(s: Stmt, k: End, sc: Scope)
    decreases s, 0
  {
    match s
    case Eval(e) => k.Falls? || (k.Throws? && CanFail(e, sc))
    case Let(_, e) => k.Falls? || (k.Throws? && CanFail(e, sc))
    case Assign(_, e) => k.Falls? || (k.Throws? && CanFail(e, sc))
    case Throw(_) => k.Throws?
    case If(arms, els) => MayArms(arms, k, sc) || MayElse(els, k, sc)
    case While(lbl, c, body) =>
      k.Falls? || (k.Throws? && CanFail(c, sc)) || (Passes(k, lbl) && MayBlock(body, k, sc))
    case Loop(lbl, count, body) =>
      if count.Some? then k.Falls? || k.Throws? || (Passes(k, lbl) && MayBlock(body, k, sc))
      else (k.Falls? && MayBreak(body, lbl, sc)) || (Passes(k, lbl) && MayBlock(body, k, sc))
    case For(lbl, _, _, body, els) =>
      k.Throws? || MayElse(els, k, sc) || MayIterate(lbl, body, k, sc)
    case Try(body, catches, els) =>
      || (MayBlock(body, Falls, sc) && MayElse(els, k, sc))
      || (MayBlock(body, Throws, sc) && ((k.Throws? && SelectUntyped(catches, 0).None?) || MayCatch(catches, k, sc)))
      || (!k.Falls? && !k.Throws? && MayBlock(body, k, sc))
    case With(_, _, body) =>
      k.Throws? || (k.Falls? && MayBlock(body, Throws, sc)) || MayBlock(body, k, sc)
    case Match(subject, cases, els) =>
      (k.Throws? && CanFail(subject, sc)) || MayCases(cases, k, sc) || MayElse(els, k, sc)
    case Defer(_) => k.Falls?
    case Break(lbl) => k == Breaks(lbl)
    case Continue(lbl) => k == Continues(lbl)
    case Return(result) =>
      k == Returns(false) || (k.Throws? && result.Some? && CanFail(result.value, sc))
  }

  /** A `for` before its items are exhausted. */
  predicate MayIterate(lbl: Label, body: Block, k: End, sc: Scope)
    decreases body, 2
  {
    match k
    case Falls => MayBreak(body, lbl, sc)
    case Throws => true
    case Returns(inFor) => inFor && (MayBlock(body, Returns(false), sc) || MayBlock(body, Returns(true), sc))
    case _ => Passes(k, lbl) && MayBlock(body, k, sc)
  }

  predicate MayElse(els: Option<Block>, k: End, sc: Scope)
    decreases els, 0
  {
    if els.Some? then MayBlock(els.value, k, sc) else k.Falls?
  }

  predicate MayArms(arms: Arms, k: End, sc: Scope)
    decreases arms, 0
  {
    (k.Throws? && CanFail(arms.cond, sc)) || MayBlock(arms.body, k, sc) || (arms.Arm? && MayArms(arms.rest, k, sc))
  }

  predicate MayCatch(cs: Catches, k: End, sc: Scope)
    decreases cs, 0
  {
    cs.Catch? && (MayBlock(cs.body, k, sc) || MayCatch(cs.rest, k, sc))
  }

  predicate MayCases(cs: Cases, k: End, sc: Scope)
    decreases cs, 0
  {
    cs.Case? && ((k.Throws? && CaseCanFail(cs.pattern, sc)) || MayBlock(cs.body, k, sc) || MayCases(cs.rest, k, sc))
  }

  /** What follows a statement that cannot end normally is never reached. */
  predicate MayBlock(b: Block, k: End, sc: Scope)
    decreases b, 0
  {
    match b
    case Nil => k.Falls?
    case Cons(Defer(cleanup), rest) =>
      (MayBlock(rest, k, sc) && MayBlock(cleanup, Falls, sc)) || (!k.Falls? && MayBlock(cleanup, k, sc))
    case Cons(s, rest) => (!k.Falls? && May(s, k, sc)) || (May(s, Falls, sc) && MayBlock(rest, k, sc))
  }

  // ----- no run escapes the analysis -----

  lemma {:induction false} ExprFails(e: Expr, sc: Scope, env: Env, w: World)
    requires !CanFail(e, sc)
    ensures EvalExpr(e, sc, env, w).0.Ret?
    decreases e
  {
    match e
    case Unary(_, a) => ExprFails(a, sc, env, w);
    case And(a, b) => ExprFails(a, sc, env, w); ExprFails(b, sc, env, EvalExpr(a, sc, env, w).1);
    case Or(a, b) => ExprFails(a, sc, env, w); ExprFails(b, sc, env, EvalExpr(a, sc, env, w).1);
    case IfElse(c, a, b) =>
      ExprFails(c, sc, env, w);
      ExprFails(a, sc, env, EvalExpr(c, sc, env, w).1);
      ExprFails(b, sc, env, EvalExpr(c, sc, env, w).1);
    case Tuple(es) => ExprsFail(es, sc, env, w);
    case _ =>
  }

  lemma {:induction false} ExprsFail(es: Exprs, sc: Scope, env: Env, w: World)
    requires !AnyFails(es, sc)
    ensures EvalExprs(es, sc, env, w).0.Values?
    decreases es
  {
    if es.MoreExpr? {
      ExprFails(es.head, sc, env, w);
      ExprsFail(es.tail, sc, env, EvalExpr(es.head, sc, env, w).1);
    }
  }

  lemma {:induction false} PatternEnds(p: Pattern, v: Value, sc: Scope, env: Env, w: World)
    requires !PatternFails(p, sc)
    ensures !MatchPattern(p, v, sc, env, w).0.MatchFails?
    decreases p
  {
    match p
    case BindPat(_) =>
    case ValuePat(e) => ExprFails(e, sc, env, w);
    case SeqPat(ps) => if v.Seq? && |v.items| == ps.Count() { ItemsEnd(ps, v.items, 0, sc, env, w); }
  }

  lemma {:induction false} ItemsEnd(ps: Patterns, items: seq<Value>, i: nat, sc: Scope, env: Env, w: World)
    requires |items| == i + ps.Count() && !PatternsFail(ps, sc)
    ensures !MatchItems(ps, items, i, sc, env, w).0.MatchFails?
    decreases ps
  {
    if ps.MorePat? {
      PatternEnds(ps.head, items[i], sc, env, w);
      ItemsEnd(ps.tail, items, i + 1, sc, env, MatchPattern(ps.head, items[i], sc, env, w).1);
    }
  }

  lemma {:induction false} AltsEnd(alts: Patterns, v: Value, t: Setting, w: World)
    requires !PatternsFail(alts, t.sc)
    ensures !MatchAlts(alts, v, t, w).0.CaseFails?
    decreases alts
  {
    if alts.MorePat? {
      PatternEnds(alts.head, v, t.sc, t.env, w);
      AltsEnd(alts.tail, v, t, MatchPattern(alts.head, v, t.sc, t.env, w).1);
    }
  }

  lemma CaseEnds(p: CasePattern, v: Value, t: Setting, w: World)
    requires !CaseCanFail(p, t.sc)
    ensures !MatchCase(p, v, t, w).0.CaseFails?
  {
    match p
    case Single(q) => PatternEnds(q, v, t.sc, t.env, w);
    case OneOf(alts) => AltsEnd(alts, v, t, w);
  }

  lemma MayFail(e: Expr, t: Setting, w: World)
    ensures EvalExpr(e, t.sc, t.env, w).0.Fail? ==> CanFail(e, t.sc)
  {
    if !CanFail(e, t.sc) { ExprFails(e, t.sc, t.env, w); }
  }

  /** However a statement ends, the analysis has seen it coming. */
  lemma {:induction false} StmtEnds(s: Stmt, t: Setting, w: World, fuel: nat)
    ensures var o := ExecStmt(s, t, w, fuel).0; o.Timeout? || May(s, EndOf(o), t.sc)
    decreases fuel, s, 1
  {
    hide ExecBlock, MayBlock;
    match s
    case Eval(e) => MayFail(e, t, w);
    case Let(_, e) => MayFail(e, t, w);
    case Assign(_, e) => MayFail(e, t, w);
    case If(arms, els) =>
      ArmsEnd(arms, t, w, fuel);
      ElseEnds(els, t, ExecArms(arms, t, w, fuel).1, fuel);
    case While(lbl, c, body) =>
      MayFail(c, t, w);
      if fuel > 0 {
        var w1 := EvalExpr(c, t.sc, t.env, w).1;
        BlockEnds(body, t, w1, fuel - 1);
        StmtEnds(s, t, ExecBlock(body, t, w1, fuel - 1).1, fuel - 1);
      }
    case Loop(lbl, count, body) =>
      if count.Some? {
        var (r, w1) := EvalExpr(count.value, t.sc, t.env, w);
        if r.Ret? { CountedEnds(r.value, lbl, body, t, w1, fuel); }
      } else if fuel > 0 {
        BlockEnds(body, t, w, fuel - 1);
        StmtEnds(s, t, ExecBlock(body, t, w, fuel - 1).1, fuel - 1);
      }
    case For(lbl, binder, iterable, body, els) =>
      var (r, w1) := EvalExpr(iterable, t.sc, t.env, w);
      if r.Ret? {
        var it := t.env.iter(w1.trace, r.value);
        var w2 := w1.Log(IterMade(r.value));
        if it.Ret? {
          ForEnds(it.value, lbl, binder, body, t, w2, fuel);
          ElseEnds(els, t, ExecFor(it.value, lbl, binder, body, t, w2, fuel).1, fuel);
        }
      }
    case Try(_, _, _) => TryEnds(s, t, w, fuel);
    case With(_, _, _) => WithEnds(s, t, w, fuel);
    case Match(subject, cases, els) =>
      MayFail(subject, t, w);
      var (r, w1) := EvalExpr(subject, t.sc, t.env, w);
      if r.Ret? {
        CasesEnd(cases, r.value, t, w1, fuel);
        ElseEnds(els, t, ExecCases(cases, r.value, t, w1, fuel).1, fuel);
      }
    case Return(result) => if result.Some? { MayFail(result.value, t, w); }
    case _ =>
  }

  lemma TryEnds(s: Stmt, t: Setting, w: World, fuel: nat)
    requires s.Try?
    ensures var o := ExecTry(s, t, w, fuel).0; o.Timeout? || May(s, EndOf(o), t.sc)
    decreases fuel, s, 0
  {
    hide ExecBlock, MayBlock;
    BlockEnds(s.body, t, w, fuel);
    var (o, w1) := ExecBlock(s.body, t, w, fuel);
    ElseEnds(s.els, t, w1, fuel);
    if o.Threw? && Select(s.catches, o.exc, t.env).Some? {
      var i := Select(s.catches, o.exc, t.env).value;
      SelectInRange(s.catches, o.exc, t.env);
      CatchEnds(s.catches, i, o.exc, t, w1, fuel);
    }
  }

  lemma SelectInRange(cs: Catches, exc: Value, env: Env)
    ensures var i := Select(cs, exc, env); i.Some? ==> i.value < cs.Count()
  {
    TypedInRange(cs, exc, env, 0);
    UntypedInRange(cs, 0);
  }

  lemma {:induction false} TypedInRange(cs: Catches, exc: Value, env: Env, i: nat)
    ensures var r := SelectTyped(cs, exc, env, i); r.Some? ==> i <= r.value < i + cs.Count()
    decreases cs
  {
    if cs.Catch? { TypedInRange(cs.rest, exc, env, i + 1); }
  }

  lemma {:induction false} UntypedInRange(cs: Catches, i: nat)
    ensures var r := SelectUntyped(cs, i); r.Some? ==> i <= r.value < i + cs.Count()
    decreases cs
  {
    if cs.Catch? { UntypedInRange(cs.rest, i + 1); }
  }

  lemma WithEnds(s: Stmt, t: Setting, w: World, fuel: nat)
    requires s.With?
    ensures var o := ExecWith(s, t, w, fuel).0; o.Timeout? || May(s, EndOf(o), t.sc)
    decreases fuel, s, 0
  {
    hide ExecBlock, MayBlock;
    var (r, w1) := EvalExpr(s.context, t.sc, t.env, w);
    if r.Ret? {
      var (enter, w2) := ReadAttr(r.value, WITH_ENTER, t.env, w1);
      if enter.Ret? {
        var (entered, w3) := CallValue(enter.value, [], t.env, w2);
        if entered.Ret? {
          BlockEnds(s.body, t, if s.alias.Some? then w3.Set(s.alias.value, entered.value) else w3, fuel);
        }
      }
    }
  }

  lemma ElseEnds(els: Option<Block>, t: Setting, w: World, fuel: nat)
    ensures var o := ExecElse(els, t, w, fuel).0; o.Timeout? || MayElse(els, EndOf(o), t.sc)
    decreases fuel, els, 0
  {
    if els.Some? { BlockEnds(els.value, t, w, fuel); }
  }

  lemma {:induction false} ArmsEnd(arms: Arms, t: Setting, w: World, fuel: nat)
    ensures var o := ExecArms(arms, t, w, fuel).0; o.None? || o.value.Timeout? || MayArms(arms, EndOf(o.value), t.sc)
    decreases fuel, arms, 0
  {
    MayFail(arms.cond, t, w);
    var w1 := EvalExpr(arms.cond, t.sc, t.env, w).1;
    BlockEnds(arms.body, t, w1, fuel);
    if arms.Arm? { ArmsEnd(arms.rest, t, w1, fuel); }
  }

  lemma {:induction false} CountedEnds(count: Value, lbl: Label, body: Block, t: Setting, w: World, fuel: nat)
    ensures var o := ExecCounted(count, lbl, body, t, w, fuel).0;
            o.Timeout? || o.Normal? || o.Threw? || (Passes(EndOf(o), lbl) && MayBlock(body, EndOf(o), t.sc))
    decreases fuel, body, 1
  {
    if count.Num? && fuel > 0 {
      BlockEnds(body, t, w, fuel - 1);
      CountedEnds(Num(count.r - 1.0), lbl, body, t, ExecBlock(body, t, w, fuel - 1).1, fuel - 1);
    }
  }

  lemma {:induction false} ForEnds(it: Value, lbl: Label, binder: Option<Name>, body: Block, t: Setting, w: World, fuel: nat)
    ensures var o := ExecFor(it, lbl, binder, body, t, w, fuel).0;
            o.None? || o.value.Timeout? || MayIterate(lbl, body, EndOf(o.value), t.sc)
    decreases fuel, body, 1
  {
    hide ExecBlock, MayBlock;
    var item := t.env.next(w.trace, it);
    if item.Item? && fuel > 0 {
      var w1 := w.Log(IterAdvanced(it));
      var w2 := if binder.Some? then w1.Set(binder.value, item.value) else w1;
      BlockEnds(body, t, w2, fuel - 1);
      ForEnds(it, lbl, binder, body, t, ExecBlock(body, t, w2, fuel - 1).1, fuel - 1);
    }
  }

  lemma {:induction false} CatchEnds(cs: Catches, i: nat, exc: Value, t: Setting, w: World, fuel: nat)
    requires i < cs.Count()
    ensures var o := ExecCatch(cs, i, exc, t, w, fuel).0; o.Timeout? || MayCatch(cs, EndOf(o), t.sc)
    decreases fuel, cs, 0
  {
    if i == 0 { BlockEnds(cs.body, t, BindCaught(cs.pattern, exc, w), fuel); }
    else { CatchEnds(cs.rest, i - 1, exc, t, w, fuel); }
  }

  lemma {:induction false} CasesEnd(cs: Cases, v: Value, t: Setting, w: World, fuel: nat)
    ensures var o := ExecCases(cs, v, t, w, fuel).0; o.None? || o.value.Timeout? || MayCases(cs, EndOf(o.value), t.sc)
    decreases fuel, cs, 0
  {
    if cs.Case? {
      var (m, w1) := MatchCase(cs.pattern, v, t, w);
      if m.Taken? { BlockEnds(cs.body, t, BindPattern(m.alt, v, w1), fuel); }
      else if m.Missed? { CasesEnd(cs.rest, v, t, w1, fuel); }
      else if !CaseCanFail(cs.pattern, t.sc) { CaseEnds(cs.pattern, v, t, w); }
    }
  }

  /** However a block ends, in any world and with any fuel, the analysis has seen it coming. */
  lemma {:induction false} BlockEnds(b: Block, t: Setting, w: World, fuel: nat)
    ensures var o := ExecBlock(b, t, w, fuel).0; o.Timeout? || MayBlock(b, EndOf(o), t.sc)
    decreases fuel, b, 0
  {
    if b.Cons? {
      if b.head.Defer? {
        BlockEnds(b.tail, t, w, fuel);
        BlockEnds(b.head.body, t, ExecBlock(b.tail, t, w, fuel).1, fuel);
      } else {
        StmtEnds(b.head, t, w, fuel);
        if !b.tail.Nil? { BlockEnds(b.tail, t, ExecStmt(b.head, t, w, fuel).1, fuel); }
      }
    }
  }
}
