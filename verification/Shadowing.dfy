/** Locals that have the name of a constant: where a body may read one, and why a body that reads
    none means the same as if its locals hid the constants. */
module Shadowing {
  import opened Wrappers
  import opened Syntax
  import opened Semantics
  import opened MayEnd

  /** The locals that folding does not see. */
  function Shadowed(sc: Scope): set<Name> {
    sc.locals * sc.consts.Keys
  }

  // ----- where a name is read -----

  predicate Reads(e: Expr, names: set<Name>) {
    match e
    case Const(_) => false
    case Var(x) => x in names
    case Unary(_, a) => Reads(a, names)
    case Binary(_, a, b) => Reads(a, names) || Reads(b, names)
    case And(a, b) => Reads(a, names) || Reads(b, names)
    case Or(a, b) => Reads(a, names) || Reads(b, names)
    case IfElse(c, a, b) => Reads(c, names) || Reads(a, names) || Reads(b, names)
    case Tuple(es) => AnyReads(es, names)
    case Member(o, _) => Reads(o, names)
    case Call(f, args) => AnyReads(args, names) || Reads(f, names)
  }

  predicate AnyReads(es: Exprs, names: set<Name>) {
    es.MoreExpr? && (Reads(es.head, names) || AnyReads(es.tail, names))
  }

  predicate PatternReads(p: Pattern, names: set<Name>) {
    match p
    case BindPat(_) => false
    case ValuePat(e) => Reads(e, names)
    case SeqPat(ps) => PatternsRead(ps, names)
  }

  predicate PatternsRead(ps: Patterns, names: set<Name>) {
    ps.MorePat? && (PatternReads(ps.head, names) || PatternsRead(ps.tail, names))
  }

  predicate CaseReads(p: CasePattern, names: set<Name>) {
    match p
    case Single(q) => PatternReads(q, names)
    case OneOf(alts) => PatternsRead(alts, names)
  }

  /** The statement can come to read one of the names. A plain `return x` reads the slot of `x`, never
      a constant. */
  predicate MayRead(s: Stmt, names: set<Name>, sc: Scope)
    decreases s, 0
  {
    match s
    case Eval(e) => Reads(e, names)
    case Let(_, e) => Reads(e, names)
    case Assign(_, e) => Reads(e, names)
    case Throw(e) => Reads(e, names)
    case If(arms, els) => ArmsMayRead(arms, names, sc) || ElseMayRead(els, names, sc)
    case While(_, c, body) => Reads(c, names) || BlockMayRead(body, names, sc)
    case Loop(_, count, body) => (count.Some? && Reads(count.value, names)) || BlockMayRead(body, names, sc)
    case For(_, _, iterable, body, els) =>
      Reads(iterable, names) || BlockMayRead(body, names, sc) || ElseMayRead(els, names, sc)
    case Try(body, catches, els) =>
      || BlockMayRead(body, names, sc)
      || (MayBlock(body, Falls, sc) && ElseMayRead(els, names, sc))
      || (MayBlock(body, Throws, sc) && CatchesMayRead(catches, names, sc))
    case With(context, _, body) => Reads(context, names) || BlockMayRead(body, names, sc)
    case Match(subject, cases, els) =>
      Reads(subject, names) || CasesMayRead(cases, names, sc) || ElseMayRead(els, names, sc)
    case Return(result) =>
      result.Some? && !(result.value.Var? && result.value.x in sc.locals) && Reads(result.value, names)
    case _ => false
  }

  predicate ElseMayRead(els: Option<Block>, names: set<Name>, sc: Scope)
    decreases els, 0
  {
    els.Some? && BlockMayRead(els.value, names, sc)
  }

  predicate ArmsMayRead(arms: Arms, names: set<Name>, sc: Scope)
    decreases arms, 0
  {
    Reads(arms.cond, names) || BlockMayRead(arms.body, names, sc) || (arms.Arm? && ArmsMayRead(arms.rest, names, sc))
  }

  predicate CatchesMayRead(cs: Catches, names: set<Name>, sc: Scope)
    decreases cs, 0
  {
    cs.Catch? && (BlockMayRead(cs.body, names, sc) || CatchesMayRead(cs.rest, names, sc))
  }

  predicate CasesMayRead(cs: Cases, names: set<Name>, sc: Scope)
    decreases cs, 0
  {
    cs.Case? && (CaseReads(cs.pattern, names) || BlockMayRead(cs.body, names, sc) || CasesMayRead(cs.rest, names, sc))
  }

  predicate BlockMayRead(b: Block, names: set<Name>, sc: Scope)
    decreases b, 0
  {
    match b
    case Nil => false
    case Cons(Defer(cleanup), rest) => BlockMayRead(rest, names, sc) || BlockMayRead(cleanup, names, sc)
    case Cons(s, rest) => MayRead(s, names, sc) || (May(s, Falls, sc) && BlockMayRead(rest, names, sc))
  }

  // ----- without such a read it does not matter who hides whom -----

  lemma {:induction false} ExprAlike(e: Expr, sc: Scope, env: Env, w: World)
    requires !Reads(e, Shadowed(sc))
    ensures EvalExpr(e, sc, env, w) == EvalExpr(e, sc.Visible(), env, w)
    decreases e
  {
    match e
    case Unary(_, a) => ExprAlike(a, sc, env, w);
    case Binary(_, a, b) => ExprAlike(a, sc, env, w); ExprAlike(b, sc, env, EvalExpr(a, sc, env, w).1);
    case And(a, b) => ExprAlike(a, sc, env, w); ExprAlike(b, sc, env, EvalExpr(a, sc, env, w).1);
    case Or(a, b) => ExprAlike(a, sc, env, w); ExprAlike(b, sc, env, EvalExpr(a, sc, env, w).1);
    case IfElse(c, a, b) =>
      ExprAlike(c, sc, env, w);
      ExprAlike(a, sc, env, EvalExpr(c, sc, env, w).1);
      ExprAlike(b, sc, env, EvalExpr(c, sc, env, w).1);
    case Tuple(es) => ExprsAlike(es, sc, env, w);
    case Member(o, _) => ExprAlike(o, sc, env, w);
    case Call(f, args) => ExprsAlike(args, sc, env, w); ExprAlike(f, sc, env, EvalExprs(args, sc, env, w).1);
    case _ =>
  }

  lemma {:induction false} ExprsAlike(es: Exprs, sc: Scope, env: Env, w: World)
    requires !AnyReads(es, Shadowed(sc))
    ensures EvalExprs(es, sc, env, w) == EvalExprs(es, sc.Visible(), env, w)
    decreases es
  {
    if es.MoreExpr? {
      ExprAlike(es.head, sc, env, w);
      ExprsAlike(es.tail, sc, env, EvalExpr(es.head, sc, env, w).1);
    }
  }

  lemma {:induction false} PatternAlike(p: Pattern, v: Value, sc: Scope, env: Env, w: World)
    requires !PatternReads(p, Shadowed(sc))
    ensures MatchPattern(p, v, sc, env, w) == MatchPattern(p, v, sc.Visible(), env, w)
    decreases p
  {
    match p
    case BindPat(_) =>
    case ValuePat(e) => ExprAlike(e, sc, env, w);
    case SeqPat(ps) => if v.Seq? && |v.items| == ps.Count() { ItemsAlike(ps, v.items, 0, sc, env, w); }
  }

  lemma {:induction false} ItemsAlike(ps: Patterns, items: seq<Value>, i: nat, sc: Scope, env: Env, w: World)
    requires |items| == i + ps.Count() && !PatternsRead(ps, Shadowed(sc))
    ensures MatchItems(ps, items, i, sc, env, w) == MatchItems(ps, items, i, sc.Visible(), env, w)
    decreases ps
  {
    if ps.MorePat? {
      PatternAlike(ps.head, items[i], sc, env, w);
      ItemsAlike(ps.tail, items, i + 1, sc, env, MatchPattern(ps.head, items[i], sc, env, w).1);
    }
  }

  function Hiding(t: Setting): Setting {
    t.(sc := t.sc.Visible())
  }

  lemma {:induction false} AltsAlike(alts: Patterns, v: Value, t: Setting, w: World)
    requires !PatternsRead(alts, Shadowed(t.sc))
    ensures MatchAlts(alts, v, t, w) == MatchAlts(alts, v, Hiding(t), w)
    decreases alts
  {
    if alts.MorePat? {
      PatternAlike(alts.head, v, t.sc, t.env, w);
      AltsAlike(alts.tail, v, t, MatchPattern(alts.head, v, t.sc, t.env, w).1);
    }
  }

  lemma CaseAlike(p: CasePattern, v: Value, t: Setting, w: World)
    requires !CaseReads(p, Shadowed(t.sc))
    ensures MatchCase(p, v, t, w) == MatchCase(p, v, Hiding(t), w)
  {
    match p
    case Single(q) => PatternAlike(q, v, t.sc, t.env, w);
    case OneOf(alts) => AltsAlike(alts, v, t, w);
  }

  lemma {:induction false} StmtAlike(s: Stmt, t: Setting, w: World, fuel: nat)
    requires !MayRead(s, Shadowed(t.sc), t.sc)
    ensures ExecStmt(s, t, w, fuel) == ExecStmt(s, Hiding(t), w, fuel)
    decreases fuel, s, 1
  {
    hide ExecBlock, BlockMayRead, MayBlock, Shadowed;
    match s
    case Eval(e) => ExprAlike(e, t.sc, t.env, w);
    case Let(_, e) => ExprAlike(e, t.sc, t.env, w);
    case Assign(_, e) => ExprAlike(e, t.sc, t.env, w);
    case Throw(e) => ExprAlike(e, t.sc, t.env, w);
    case If(arms, els) =>
      ArmsAlike(arms, t, w, fuel);
      ElseAlike(els, t, ExecArms(arms, t, w, fuel).1, fuel);
    case While(lbl, c, body) =>
      ExprAlike(c, t.sc, t.env, w);
      if fuel > 0 {
        var w1 := EvalExpr(c, t.sc, t.env, w).1;
        BlockAlike(body, t, w1, fuel - 1);
        StmtAlike(s, t, ExecBlock(body, t, w1, fuel - 1).1, fuel - 1);
      }
    case Loop(lbl, count, body) =>
      if count.Some? {
        ExprAlike(count.value, t.sc, t.env, w);
        var (r, w1) := EvalExpr(count.value, t.sc, t.env, w);
        if r.Ret? { CountedAlike(r.value, lbl, body, t, w1, fuel); }
      } else if fuel > 0 {
        BlockAlike(body, t, w, fuel - 1);
        StmtAlike(s, t, ExecBlock(body, t, w, fuel - 1).1, fuel - 1);
      }
    case For(lbl, binder, iterable, body, els) =>
      ExprAlike(iterable, t.sc, t.env, w);
      var (r, w1) := EvalExpr(iterable, t.sc, t.env, w);
      if r.Ret? {
        var it := t.env.iter(w1.trace, r.value);
        var w2 := w1.Log(IterMade(r.value));
        if it.Ret? {
          ForAlike(it.value, lbl, binder, body, t, w2, fuel);
          ElseAlike(els, t, ExecFor(it.value, lbl, binder, body, t, w2, fuel).1, fuel);
        }
      }
    case Try(_, _, _) => TryAlike(s, t, w, fuel);
    case With(_, _, _) => WithAlike(s, t, w, fuel);
    case Match(subject, cases, els) =>
      ExprAlike(subject, t.sc, t.env, w);
      var (r, w1) := EvalExpr(subject, t.sc, t.env, w);
      if r.Ret? {
        CasesAlike(cases, r.value, t, w1, fuel);
        ElseAlike(els, t, ExecCases(cases, r.value, t, w1, fuel).1, fuel);
      }
    case Return(result) =>
      if result.Some? && !(result.value.Var? && result.value.x in t.sc.locals) { ExprAlike(result.value, t.sc, t.env, w); }
    case _ =>
  }

  lemma TryAlike(s: Stmt, t: Setting, w: World, fuel: nat)
    requires s.Try? && !MayRead(s, Shadowed(t.sc), t.sc)
    ensures ExecTry(s, t, w, fuel) == ExecTry(s, Hiding(t), w, fuel)
    decreases fuel, s, 0
  {
    hide ExecBlock, BlockMayRead, MayBlock, Shadowed;
    BlockAlike(s.body, t, w, fuel);
    BlockEnds(s.body, t, w, fuel);
    var (o, w1) := ExecBlock(s.body, t, w, fuel);
    if o.Normal? { ElseAlike(s.els, t, w1, fuel); }
    if o.Threw? && Select(s.catches, o.exc, t.env).Some? {
      CatchAlike(s.catches, Select(s.catches, o.exc, t.env).value, o.exc, t, w1, fuel);
    }
  }

  lemma WithAlike(s: Stmt, t: Setting, w: World, fuel: nat)
    requires s.With? && !MayRead(s, Shadowed(t.sc), t.sc)
    ensures ExecWith(s, t, w, fuel) == ExecWith(s, Hiding(t), w, fuel)
    decreases fuel, s, 0
  {
    hide ExecBlock, BlockMayRead, MayBlock, Shadowed;
    ExprAlike(s.context, t.sc, t.env, w);
    var (r, w1) := EvalExpr(s.context, t.sc, t.env, w);
    if r.Ret? {
      var (enter, w2) := ReadAttr(r.value, WITH_ENTER, t.env, w1);
      if enter.Ret? {
        var (entered, w3) := CallValue(enter.value, [], t.env, w2);
        if entered.Ret? {
          BlockAlike(s.body, t, if s.alias.Some? then w3.Set(s.alias.value, entered.value) else w3, fuel);
        }
      }
    }
  }

  lemma ElseAlike(els: Option<Block>, t: Setting, w: World, fuel: nat)
    requires !ElseMayRead(els, Shadowed(t.sc), t.sc)
    ensures ExecElse(els, t, w, fuel) == ExecElse(els, Hiding(t), w, fuel)
    ensures els.Some? ==> ExecBlock(els.value, t, w, fuel) == ExecBlock(els.value, Hiding(t), w, fuel)
    decreases fuel, els, 0
  {
    if els.Some? { BlockAlike(els.value, t, w, fuel); }
  }

  lemma {:induction false} ArmsAlike(arms: Arms, t: Setting, w: World, fuel: nat)
    requires !ArmsMayRead(arms, Shadowed(t.sc), t.sc)
    ensures ExecArms(arms, t, w, fuel) == ExecArms(arms, Hiding(t), w, fuel)
    decreases fuel, arms, 0
  {
    ExprAlike(arms.cond, t.sc, t.env, w);
    var w1 := EvalExpr(arms.cond, t.sc, t.env, w).1;
    BlockAlike(arms.body, t, w1, fuel);
    if arms.Arm? { ArmsAlike(arms.rest, t, w1, fuel); }
  }

  lemma {:induction false} CountedAlike(count: Value, lbl: Label, body: Block, t: Setting, w: World, fuel: nat)
    requires !BlockMayRead(body, Shadowed(t.sc), t.sc)
    ensures ExecCounted(count, lbl, body, t, w, fuel) == ExecCounted(count, lbl, body, Hiding(t), w, fuel)
    decreases fuel, body, 1
  {
    if count.Num? && fuel > 0 {
      BlockAlike(body, t, w, fuel - 1);
      CountedAlike(Num(count.r - 1.0), lbl, body, t, ExecBlock(body, t, w, fuel - 1).1, fuel - 1);
    }
  }

  lemma {:induction false} ForAlike(it: Value, lbl: Label, binder: Option<Name>, body: Block, t: Setting, w: World, fuel: nat)
    requires !BlockMayRead(body, Shadowed(t.sc), t.sc)
    ensures ExecFor(it, lbl, binder, body, t, w, fuel) == ExecFor(it, lbl, binder, body, Hiding(t), w, fuel)
    decreases fuel, body, 1
  {
    var item := t.env.next(w.trace, it);
    if item.Item? && fuel > 0 {
      var w1 := w.Log(IterAdvanced(it));
      var w2 := if binder.Some? then w1.Set(binder.value, item.value) else w1;
      BlockAlike(body, t, w2, fuel - 1);
      ForAlike(it, lbl, binder, body, t, ExecBlock(body, t, w2, fuel - 1).1, fuel - 1);
    }
  }

  lemma {:induction false} CatchAlike(cs: Catches, i: nat, exc: Value, t: Setting, w: World, fuel: nat)
    requires !CatchesMayRead(cs, Shadowed(t.sc), t.sc)
    ensures ExecCatch(cs, i, exc, t, w, fuel) == ExecCatch(cs, i, exc, Hiding(t), w, fuel)
    decreases fuel, cs, 0
  {
    if cs.Catch? {
      if i == 0 { BlockAlike(cs.body, t, BindCaught(cs.pattern, exc, w), fuel); }
      else { CatchAlike(cs.rest, i - 1, exc, t, w, fuel); }
    }
  }

  lemma {:induction false} CasesAlike(cs: Cases, v: Value, t: Setting, w: World, fuel: nat)
    requires !CasesMayRead(cs, Shadowed(t.sc), t.sc)
    ensures ExecCases(cs, v, t, w, fuel) == ExecCases(cs, v, Hiding(t), w, fuel)
    decreases fuel, cs, 0
  {
    if cs.Case? {
      CaseAlike(cs.pattern, v, t, w);
      var (m, w1) := MatchCase(cs.pattern, v, t, w);
      if m.Taken? { BlockAlike(cs.body, t, BindPattern(m.alt, v, w1), fuel); }
      else if m.Missed? { CasesAlike(cs.rest, v, t, w1, fuel); }
    }
  }

  /** A block that cannot come to read a shadowed local means the same under both readings. */
  lemma {:induction false} BlockAlike(b: Block, t: Setting, w: World, fuel: nat)
    requires !BlockMayRead(b, Shadowed(t.sc), t.sc)
    ensures ExecBlock(b, t, w, fuel) == ExecBlock(b, Hiding(t), w, fuel)
    decreases fuel, b, 0
  {
    hide Shadowed;
    if b.Cons? {
      if b.head.Defer? {
        BlockAlike(b.tail, t, w, fuel);
        BlockAlike(b.head.body, t, ExecBlock(b.tail, t, w, fuel).1, fuel);
      } else {
        StmtAlike(b.head, t, w, fuel);
        StmtEnds(b.head, t, w, fuel);
        var r := ExecStmt(b.head, t, w, fuel);
        if !b.tail.Nil? && r.0.Normal? { BlockAlike(b.tail, t, r.1, fuel); }
      }
    }
  }
}
