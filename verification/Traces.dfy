/** Events are only added: what has happened is in the trace of every later world. */
module Traces {
  import opened Wrappers
  import opened Syntax
  import opened Semantics

  /** Everything that had happened in `w` has happened in `w1`. */
  ghost predicate Later(w: World, w1: World) {
    |w.trace| <= |w1.trace| && forall i {:trigger w1.trace[i]} :: 0 <= i < |w.trace| ==> w1.trace[i] == w.trace[i]
  }

  /** Some event is another one in the two runs. */
  ghost predicate Differ(w: World, v: World) {
    exists i :: 0 <= i < |w.trace| && i < |v.trace| && w.trace[i] != v.trace[i]
  }

  /** Such an event is never undone. */
  lemma StillDiffer(w: World, v: World, w1: World, v1: World)
    requires Differ(w, v) && Later(w, w1) && Later(v, v1)
    ensures Differ(w1, v1)
  {
    var i :| 0 <= i < |w.trace| && i < |v.trace| && w.trace[i] != v.trace[i];
    assert w1.trace[i] == w.trace[i] && v1.trace[i] == v.trace[i];
  }

  lemma {:induction false} BindLater(p: Pattern, v: Value, w: World)
    ensures BindPattern(p, v, w).trace == w.trace
    decreases p
  {
    if p.SeqPat? && v.Seq? && |v.items| == p.elems.Count() { BindItemsLater(p.elems, v.items, 0, w); }
  }

  lemma {:induction false} BindItemsLater(ps: Patterns, items: seq<Value>, i: nat, w: World)
    requires |items| == i + ps.Count()
    ensures BindItems(ps, items, i, w).trace == w.trace
    decreases ps
  {
    if ps.MorePat? {
      BindLater(ps.head, items[i], w);
      BindItemsLater(ps.tail, items, i + 1, BindPattern(ps.head, items[i], w));
    }
  }

  lemma {:induction false} ExprLater(e: Expr, sc: Scope, env: Env, w: World)
    ensures Later(w, EvalExpr(e, sc, env, w).1)
    decreases e
  {
    match e
    case Const(_) =>
    case Var(_) =>
    case Unary(_, a) => ExprLater(a, sc, env, w);
    case Binary(_, a, b) => ExprLater(a, sc, env, w); ExprLater(b, sc, env, EvalExpr(a, sc, env, w).1);
    case And(a, b) => ExprLater(a, sc, env, w); ExprLater(b, sc, env, EvalExpr(a, sc, env, w).1);
    case Or(a, b) => ExprLater(a, sc, env, w); ExprLater(b, sc, env, EvalExpr(a, sc, env, w).1);
    case IfElse(c, a, b) =>
      ExprLater(c, sc, env, w);
      ExprLater(a, sc, env, EvalExpr(c, sc, env, w).1);
      ExprLater(b, sc, env, EvalExpr(c, sc, env, w).1);
    case Tuple(es) => ExprsLater(es, sc, env, w);
    case Member(o, _) => ExprLater(o, sc, env, w);
    case Call(f, args) => ExprsLater(args, sc, env, w); ExprLater(f, sc, env, EvalExprs(args, sc, env, w).1);
  }

  lemma {:induction false} ExprsLater(es: Exprs, sc: Scope, env: Env, w: World)
    ensures Later(w, EvalExprs(es, sc, env, w).1)
    decreases es
  {
    if es.MoreExpr? {
      ExprLater(es.head, sc, env, w);
      ExprsLater(es.tail, sc, env, EvalExpr(es.head, sc, env, w).1);
    }
  }

  lemma {:induction false} PatternLater(p: Pattern, v: Value, sc: Scope, env: Env, w: World)
    ensures Later(w, MatchPattern(p, v, sc, env, w).1)
    decreases p
  {
    match p
    case BindPat(_) =>
    case ValuePat(e) => ExprLater(e, sc, env, w);
    case SeqPat(ps) => if v.Seq? && |v.items| == ps.Count() { ItemsLater(ps, v.items, 0, sc, env, w); }
  }

  lemma {:induction false} ItemsLater(ps: Patterns, items: seq<Value>, i: nat, sc: Scope, env: Env, w: World)
    requires |items| == i + ps.Count()
    ensures Later(w, MatchItems(ps, items, i, sc, env, w).1)
    decreases ps
  {
    if ps.MorePat? {
      PatternLater(ps.head, items[i], sc, env, w);
      ItemsLater(ps.tail, items, i + 1, sc, env, MatchPattern(ps.head, items[i], sc, env, w).1);
    }
  }

  lemma {:induction false} AltsLater(alts: Patterns, v: Value, t: Setting, w: World)
    ensures Later(w, MatchAlts(alts, v, t, w).1)
    decreases alts
  {
    if alts.MorePat? {
      PatternLater(alts.head, v, t.sc, t.env, w);
      AltsLater(alts.tail, v, t, MatchPattern(alts.head, v, t.sc, t.env, w).1);
    }
  }

  lemma {:induction false} StmtLater(s: Stmt, t: Setting, w: World, fuel: nat)
    ensures Later(w, ExecStmt(s, t, w, fuel).1)
    decreases fuel, s, 1
  {
    hide ExecBlock, EvalExpr, ExecArms, ExecCases, ExecTry, ExecFor, MatchPattern;
    match s
    case Eval(e) => ExprLater(e, t.sc, t.env, w);
    case Let(_, e) => ExprLater(e, t.sc, t.env, w);
    case Assign(_, e) => ExprLater(e, t.sc, t.env, w);
    case Throw(e) => ExprLater(e, t.sc, t.env, w);
    case If(arms, els) =>
      ArmsLater(arms, t, w, fuel);
      ElseLater(els, t, ExecArms(arms, t, w, fuel).1, fuel);
    case While(lbl, c, body) =>
      ExprLater(c, t.sc, t.env, w);
      if fuel > 0 {
        var w1 := EvalExpr(c, t.sc, t.env, w).1;
        BlockLater(body, t, w1, fuel - 1);
        StmtLater(s, t, ExecBlock(body, t, w1, fuel - 1).1, fuel - 1);
      }
    case Loop(lbl, count, body) =>
      if count.Some? {
        ExprLater(count.value, t.sc, t.env, w);
        var (r, w1) := EvalExpr(count.value, t.sc, t.env, w);
        if r.Ret? { CountedLater(r.value, lbl, body, t, w1, fuel); }
      } else if fuel > 0 {
        BlockLater(body, t, w, fuel - 1);
        StmtLater(s, t, ExecBlock(body, t, w, fuel - 1).1, fuel - 1);
      }
    case For(lbl, binder, iterable, body, els) =>
      ExprLater(iterable, t.sc, t.env, w);
      var (r, w1) := EvalExpr(iterable, t.sc, t.env, w);
      if r.Ret? {
        var it := t.env.iter(w1.trace, r.value);
        var w2 := w1.Log(IterMade(r.value));
        if it.Ret? {
          ForLater(it.value, lbl, binder, body, t, w2, fuel);
          ElseLater(els, t, ExecFor(it.value, lbl, binder, body, t, w2, fuel).1, fuel);
        }
      }
    case Try(_, _, _) => TryLater(s, t, w, fuel);
    case With(_, _, _) => WithLater(s, t, w, fuel);
    case Match(subject, cases, els) =>
      ExprLater(subject, t.sc, t.env, w);
      var (r, w1) := EvalExpr(subject, t.sc, t.env, w);
      if r.Ret? {
        CasesLater(cases, r.value, t, w1, fuel);
        ElseLater(els, t, ExecCases(cases, r.value, t, w1, fuel).1, fuel);
      }
    case Return(result) => if result.Some? { ExprLater(result.value, t.sc, t.env, w); }
    case _ =>
  }

  lemma TryLater(s: Stmt, t: Setting, w: World, fuel: nat)
    requires s.Try?
    ensures Later(w, ExecTry(s, t, w, fuel).1)
    decreases fuel, s, 0
  {
    BlockLater(s.body, t, w, fuel);
    var (o, w1) := ExecBlock(s.body, t, w, fuel);
    ElseLater(s.els, t, w1, fuel);
    if o.Threw? && Select(s.catches, o.exc, t.env).Some? {
      CatchLater(s.catches, Select(s.catches, o.exc, t.env).value, o.exc, t, w1, fuel);
    }
  }

  lemma WithLater(s: Stmt, t: Setting, w: World, fuel: nat)
    requires s.With?
    ensures Later(w, ExecWith(s, t, w, fuel).1)
    decreases fuel, s, 0
  {
    ExprLater(s.context, t.sc, t.env, w);
    var (r, w1) := EvalExpr(s.context, t.sc, t.env, w);
    if r.Ret? {
      var (enter, w2) := ReadAttr(r.value, WITH_ENTER, t.env, w1);
      if enter.Ret? {
        var (entered, w3) := CallValue(enter.value, [], t.env, w2);
        if entered.Ret? {
          BlockLater(s.body, t, if s.alias.Some? then w3.Set(s.alias.value, entered.value) else w3, fuel);
        }
      }
    }
  }

  lemma ElseLater(els: Option<Block>, t: Setting, w: World, fuel: nat)
    ensures Later(w, ExecElse(els, t, w, fuel).1)
    decreases fuel, els, 0
  {
    if els.Some? { BlockLater(els.value, t, w, fuel); }
  }

  lemma {:induction false} ArmsLater(arms: Arms, t: Setting, w: World, fuel: nat)
    ensures Later(w, ExecArms(arms, t, w, fuel).1)
    decreases fuel, arms, 0
  {
    ExprLater(arms.cond, t.sc, t.env, w);
    var w1 := EvalExpr(arms.cond, t.sc, t.env, w).1;
    BlockLater(arms.body, t, w1, fuel);
    if arms.Arm? { ArmsLater(arms.rest, t, w1, fuel); }
  }

  lemma {:induction false} CountedLater(count: Value, lbl: Label, body: Block, t: Setting, w: World, fuel: nat)
    ensures Later(w, ExecCounted(count, lbl, body, t, w, fuel).1)
    decreases fuel, body, 1
  {
    if count.Num? && fuel > 0 {
      BlockLater(body, t, w, fuel - 1);
      CountedLater(Num(count.r - 1.0), lbl, body, t, ExecBlock(body, t, w, fuel - 1).1, fuel - 1);
    }
  }

  lemma {:induction false} ForLater(it: Value, lbl: Label, binder: Option<Name>, body: Block, t: Setting, w: World, fuel: nat)
    ensures Later(w, ExecFor(it, lbl, binder, body, t, w, fuel).1)
    decreases fuel, body, 1
  {
    var item := t.env.next(w.trace, it);
    if item.Item? && fuel > 0 {
      var w1 := w.Log(IterAdvanced(it));
      var w2 := if binder.Some? then w1.Set(binder.value, item.value) else w1;
      BlockLater(body, t, w2, fuel - 1);
      ForLater(it, lbl, binder, body, t, ExecBlock(body, t, w2, fuel - 1).1, fuel - 1);
    }
  }

  lemma {:induction false} CatchLater(cs: Catches, i: nat, exc: Value, t: Setting, w: World, fuel: nat)
    ensures Later(w, ExecCatch(cs, i, exc, t, w, fuel).1)
    decreases fuel, cs, 0
  {
    if cs.Catch? {
      if i == 0 { BlockLater(cs.body, t, BindCaught(cs.pattern, exc, w), fuel); }
      else { CatchLater(cs.rest, i - 1, exc, t, w, fuel); }
    }
  }

  lemma {:induction false} CasesLater(cs: Cases, v: Value, t: Setting, w: World, fuel: nat)
    ensures Later(w, ExecCases(cs, v, t, w, fuel).1)
    decreases fuel, cs, 0
  {
    if cs.Case? {
      if cs.pattern.Single? { PatternLater(cs.pattern.p, v, t.sc, t.env, w); } else { AltsLater(cs.pattern.alts, v, t, w); }
      var (m, w1) := MatchCase(cs.pattern, v, t, w);
      if m.Taken? {
        BindLater(m.alt, v, w1);
        BlockLater(cs.body, t, BindPattern(m.alt, v, w1), fuel);
      } else if m.Missed? {
        CasesLater(cs.rest, v, t, w1, fuel);
      }
    }
  }

  /** What has happened before a block has happened after it. */
  lemma {:induction false} BlockLater(b: Block, t: Setting, w: World, fuel: nat)
    ensures Later(w, ExecBlock(b, t, w, fuel).1)
    decreases fuel, b, 0
  {
    if b.Cons? {
      if b.head.Defer? {
        BlockLater(b.tail, t, w, fuel);
        BlockLater(b.head.body, t, ExecBlock(b.tail, t, w, fuel).1, fuel);
      } else {
        StmtLater(b.head, t, w, fuel);
        if !b.tail.Nil? { BlockLater(b.tail, t, ExecStmt(b.head, t, w, fuel).1, fuel); }
      }
    }
  }

  // ----- what has happened in a part has happened in the whole -----

  lemma WhileHasBody(s: Stmt, t: Setting, w: World, fuel: nat)
    requires s.While? && fuel > 0 && EvalExpr(s.cond, t.sc, t.env, w).0.Ret? && Truthy(t.env, EvalExpr(s.cond, t.sc, t.env, w).0.value)
    ensures Later(ExecBlock(s.body, t, EvalExpr(s.cond, t.sc, t.env, w).1, fuel - 1).1, ExecStmt(s, t, w, fuel).1)
  {
    hide ExecBlock, EvalExpr;
    StmtLater(s, t, ExecBlock(s.body, t, EvalExpr(s.cond, t.sc, t.env, w).1, fuel - 1).1, fuel - 1);
  }

  lemma LoopHasBody(s: Stmt, t: Setting, w: World, fuel: nat)
    requires s.Loop? && s.count.None? && fuel > 0
    ensures Later(ExecBlock(s.body, t, w, fuel - 1).1, ExecStmt(s, t, w, fuel).1)
  {
    hide ExecBlock;
    StmtLater(s, t, ExecBlock(s.body, t, w, fuel - 1).1, fuel - 1);
  }

  lemma CountedHasBody(r: real, lbl: Label, body: Block, t: Setting, w: World, fuel: nat)
    requires r > 0.0 && fuel > 0
    ensures Later(ExecBlock(body, t, w, fuel - 1).1, ExecCounted(Num(r), lbl, body, t, w, fuel).1)
  {
    hide ExecBlock;
    CountedLater(Num(r - 1.0), lbl, body, t, ExecBlock(body, t, w, fuel - 1).1, fuel - 1);
  }

  lemma ForHasBody(it: Value, lbl: Label, binder: Option<Name>, body: Block, t: Setting, w: World, fuel: nat)
    requires fuel > 0 && t.env.next(w.trace, it).Item?
    ensures var w1 := w.Log(IterAdvanced(it));
            var w2 := if binder.Some? then w1.Set(binder.value, t.env.next(w.trace, it).value) else w1;
            Later(ExecBlock(body, t, w2, fuel - 1).1, ExecFor(it, lbl, binder, body, t, w, fuel).1)
  {
    hide ExecBlock;
    var w1 := w.Log(IterAdvanced(it));
    var w2 := if binder.Some? then w1.Set(binder.value, t.env.next(w.trace, it).value) else w1;
    ForLater(it, lbl, binder, body, t, ExecBlock(body, t, w2, fuel - 1).1, fuel - 1);
  }

  lemma TryHasBody(s: Stmt, t: Setting, w: World, fuel: nat)
    requires s.Try?
    ensures Later(ExecBlock(s.body, t, w, fuel).1, ExecTry(s, t, w, fuel).1)
  {
    hide ExecBlock, ExecCatch, Select;
    var (o, w1) := ExecBlock(s.body, t, w, fuel);
    if s.els.Some? { BlockLater(s.els.value, t, w1, fuel); }
    if o.Threw? && Select(s.catches, o.exc, t.env).Some? {
      CatchLater(s.catches, Select(s.catches, o.exc, t.env).value, o.exc, t, w1, fuel);
    }
  }

  lemma BlockHasHead(b: Block, t: Setting, w: World, fuel: nat)
    requires b.Cons? && !b.head.Defer?
    ensures Later(ExecStmt(b.head, t, w, fuel).1, ExecBlock(b, t, w, fuel).1)
  {
    hide ExecStmt;
    BlockLater(b.tail, t, ExecStmt(b.head, t, w, fuel).1, fuel);
  }
}
