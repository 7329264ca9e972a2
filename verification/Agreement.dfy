/** Bodies for which the compiled meaning is the intended one. */
module Agreement {
  import opened Wrappers
  import opened Syntax
  import opened Semantics
  import opened CleanupFacts
  import opened Differences
  import opened MayEnd

  // ----- variables a block does not assign keep their values -----

  lemma {:induction false} ExprKeeps(e: Expr, sc: Scope, env: Env, w: World)
    ensures EvalExpr(e, sc, env, w).1.vars == w.vars
    decreases e
  {
    match e
    case Const(_) =>
    case Var(_) =>
    case Unary(_, a) => ExprKeeps(a, sc, env, w);
    case Binary(_, a, b) => ExprKeeps(a, sc, env, w); ExprKeeps(b, sc, env, EvalExpr(a, sc, env, w).1);
    case And(a, b) => ExprKeeps(a, sc, env, w); ExprKeeps(b, sc, env, EvalExpr(a, sc, env, w).1);
    case Or(a, b) => ExprKeeps(a, sc, env, w); ExprKeeps(b, sc, env, EvalExpr(a, sc, env, w).1);
    case IfElse(c, a, b) =>
      ExprKeeps(c, sc, env, w);
      ExprKeeps(a, sc, env, EvalExpr(c, sc, env, w).1);
      ExprKeeps(b, sc, env, EvalExpr(c, sc, env, w).1);
    case Tuple(es) => ExprsKeep(es, sc, env, w);
    case Member(o, _) => ExprKeeps(o, sc, env, w);
    case Call(f, args) => ExprsKeep(args, sc, env, w); ExprKeeps(f, sc, env, EvalExprs(args, sc, env, w).1);
  }

  lemma {:induction false} ExprsKeep(es: Exprs, sc: Scope, env: Env, w: World)
    ensures EvalExprs(es, sc, env, w).1.vars == w.vars
    decreases es
  {
    if es.MoreExpr? {
      ExprKeeps(es.head, sc, env, w);
      ExprsKeep(es.tail, sc, env, EvalExpr(es.head, sc, env, w).1);
    }
  }

  lemma {:induction false} PatternKeeps(p: Pattern, v: Value, sc: Scope, env: Env, w: World)
    ensures MatchPattern(p, v, sc, env, w).1.vars == w.vars
    decreases p
  {
    match p
    case BindPat(_) =>
    case ValuePat(e) => ExprKeeps(e, sc, env, w);
    case SeqPat(ps) => if v.Seq? && |v.items| == ps.Count() { ItemsKeep(ps, v.items, 0, sc, env, w); }
  }

  lemma {:induction false} ItemsKeep(ps: Patterns, items: seq<Value>, i: nat, sc: Scope, env: Env, w: World)
    requires |items| == i + ps.Count()
    ensures MatchItems(ps, items, i, sc, env, w).1.vars == w.vars
    decreases ps
  {
    if ps.MorePat? {
      PatternKeeps(ps.head, items[i], sc, env, w);
      ItemsKeep(ps.tail, items, i + 1, sc, env, MatchPattern(ps.head, items[i], sc, env, w).1);
    }
  }

  lemma {:induction false} AltsKeep(alts: Patterns, v: Value, t: Setting, w: World)
    ensures var (m, w1) := MatchAlts(alts, v, t, w); w1.vars == w.vars && (m.Taken? ==> Bound(m.alt) <= BoundAll(alts))
    decreases alts
  {
    if alts.MorePat? {
      PatternKeeps(alts.head, v, t.sc, t.env, w);
      AltsKeep(alts.tail, v, t, MatchPattern(alts.head, v, t.sc, t.env, w).1);
    }
  }

  lemma {:induction false} BindKeeps(p: Pattern, v: Value, w: World, x: Name)
    requires x !in Bound(p)
    ensures BindPattern(p, v, w).Get(x) == w.Get(x)
    decreases p
  {
    if p.SeqPat? && v.Seq? && |v.items| == p.elems.Count() { BindItemsKeep(p.elems, v.items, 0, w, x); }
  }

  lemma {:induction false} BindItemsKeep(ps: Patterns, items: seq<Value>, i: nat, w: World, x: Name)
    requires |items| == i + ps.Count() && x !in BoundAll(ps)
    ensures BindItems(ps, items, i, w).Get(x) == w.Get(x)
    decreases ps
  {
    if ps.MorePat? {
      BindKeeps(ps.head, items[i], w, x);
      BindItemsKeep(ps.tail, items, i + 1, BindPattern(ps.head, items[i], w), x);
    }
  }

  lemma {:induction false} StmtKeeps(s: Stmt, t: Setting, w: World, fuel: nat, x: Name)
    requires x !in AssignedBy(s)
    ensures ExecStmt(s, t, w, fuel).1.Get(x) == w.Get(x)
    decreases fuel, s, 1
  {
    hide ExecBlock, EvalExpr, ExecArms, ExecCases, ExecTry, ExecFor, MatchPattern;
    match s
    case Eval(e) => ExprKeeps(e, t.sc, t.env, w);
    case Let(_, e) => ExprKeeps(e, t.sc, t.env, w);
    case Assign(_, e) => ExprKeeps(e, t.sc, t.env, w);
    case Throw(e) => ExprKeeps(e, t.sc, t.env, w);
    case If(arms, els) =>
      ArmsKeep(arms, t, w, fuel, x);
      ElseKeeps(els, t, ExecArms(arms, t, w, fuel).1, fuel, x);
    case While(lbl, c, body) =>
      ExprKeeps(c, t.sc, t.env, w);
      if fuel > 0 {
        var w1 := EvalExpr(c, t.sc, t.env, w).1;
        BlockKeeps(body, t, w1, fuel - 1, x);
        StmtKeeps(s, t, ExecBlock(body, t, w1, fuel - 1).1, fuel - 1, x);
      }
    case Loop(lbl, count, body) =>
      if count.Some? {
        ExprKeeps(count.value, t.sc, t.env, w);
        var (r, w1) := EvalExpr(count.value, t.sc, t.env, w);
        if r.Ret? { CountedKeeps(r.value, lbl, body, t, w1, fuel, x); }
      } else if fuel > 0 {
        BlockKeeps(body, t, w, fuel - 1, x);
        StmtKeeps(s, t, ExecBlock(body, t, w, fuel - 1).1, fuel - 1, x);
      }
    case For(lbl, binder, iterable, body, els) =>
      ExprKeeps(iterable, t.sc, t.env, w);
      var (r, w1) := EvalExpr(iterable, t.sc, t.env, w);
      if r.Ret? {
        var it := t.env.iter(w1.trace, r.value);
        var w2 := w1.Log(IterMade(r.value));
        if it.Ret? {
          ForKeeps(it.value, lbl, binder, body, t, w2, fuel, x);
          ElseKeeps(els, t, ExecFor(it.value, lbl, binder, body, t, w2, fuel).1, fuel, x);
        }
      }
    case Try(_, _, _) => TryKeeps(s, t, w, fuel, x);
    case With(_, _, _) => WithKeeps(s, t, w, fuel, x);
    case Match(subject, cases, els) =>
      ExprKeeps(subject, t.sc, t.env, w);
      var (r, w1) := EvalExpr(subject, t.sc, t.env, w);
      if r.Ret? {
        CasesKeep(cases, r.value, t, w1, fuel, x);
        ElseKeeps(els, t, ExecCases(cases, r.value, t, w1, fuel).1, fuel, x);
      }
    case Return(result) => if result.Some? { ExprKeeps(result.value, t.sc, t.env, w); }
    case _ =>
  }

  lemma TryKeeps(s: Stmt, t: Setting, w: World, fuel: nat, x: Name)
    requires s.Try? && x !in AssignedBy(s)
    ensures ExecTry(s, t, w, fuel).1.Get(x) == w.Get(x)
    decreases fuel, s, 0
  {
    BlockKeeps(s.body, t, w, fuel, x);
    var (o, w1) := ExecBlock(s.body, t, w, fuel);
    ElseKeeps(s.els, t, w1, fuel, x);
    if o.Threw? && Select(s.catches, o.exc, t.env).Some? {
      CatchKeeps(s.catches, Select(s.catches, o.exc, t.env).value, o.exc, t, w1, fuel, x);
    }
  }

  lemma WithKeeps(s: Stmt, t: Setting, w: World, fuel: nat, x: Name)
    requires s.With? && x !in AssignedBy(s)
    ensures ExecWith(s, t, w, fuel).1.Get(x) == w.Get(x)
    decreases fuel, s, 0
  {
    ExprKeeps(s.context, t.sc, t.env, w);
    var (r, w1) := EvalExpr(s.context, t.sc, t.env, w);
    if r.Ret? {
      var (enter, w2) := ReadAttr(r.value, WITH_ENTER, t.env, w1);
      if enter.Ret? {
        var (entered, w3) := CallValue(enter.value, [], t.env, w2);
        if entered.Ret? {
          BlockKeeps(s.body, t, if s.alias.Some? then w3.Set(s.alias.value, entered.value) else w3, fuel, x);
        }
      }
    }
  }

  lemma ElseKeeps(els: Option<Block>, t: Setting, w: World, fuel: nat, x: Name)
    requires x !in AssignedByElse(els)
    ensures ExecElse(els, t, w, fuel).1.Get(x) == w.Get(x)
    ensures els.Some? ==> ExecBlock(els.value, t, w, fuel).1.Get(x) == w.Get(x)
    decreases fuel, els, 0
  {
    if els.Some? { BlockKeeps(els.value, t, w, fuel, x); }
  }

  lemma {:induction false} ArmsKeep(arms: Arms, t: Setting, w: World, fuel: nat, x: Name)
    requires x !in AssignedByArms(arms)
    ensures ExecArms(arms, t, w, fuel).1.Get(x) == w.Get(x)
    decreases fuel, arms, 0
  {
    ExprKeeps(arms.cond, t.sc, t.env, w);
    var w1 := EvalExpr(arms.cond, t.sc, t.env, w).1;
    BlockKeeps(arms.body, t, w1, fuel, x);
    if arms.Arm? { ArmsKeep(arms.rest, t, w1, fuel, x); }
  }

  lemma {:induction false} CountedKeeps(count: Value, lbl: Label, body: Block, t: Setting, w: World, fuel: nat, x: Name)
    requires x !in Assigned(body)
    ensures ExecCounted(count, lbl, body, t, w, fuel).1.Get(x) == w.Get(x)
    decreases fuel, body, 1
  {
    if count.Num? && fuel > 0 {
      BlockKeeps(body, t, w, fuel - 1, x);
      CountedKeeps(Num(count.r - 1.0), lbl, body, t, ExecBlock(body, t, w, fuel - 1).1, fuel - 1, x);
    }
  }

  lemma {:induction false} ForKeeps(it: Value, lbl: Label, binder: Option<Name>, body: Block, t: Setting, w: World, fuel: nat, x: Name)
    requires x !in Assigned(body) && binder != Some(x)
    ensures ExecFor(it, lbl, binder, body, t, w, fuel).1.Get(x) == w.Get(x)
    decreases fuel, body, 1
  {
    var item := t.env.next(w.trace, it);
    if item.Item? && fuel > 0 {
      var w1 := w.Log(IterAdvanced(it));
      var w2 := if binder.Some? then w1.Set(binder.value, item.value) else w1;
      BlockKeeps(body, t, w2, fuel - 1, x);
      ForKeeps(it, lbl, binder, body, t, ExecBlock(body, t, w2, fuel - 1).1, fuel - 1, x);
    }
  }

  lemma {:induction false} CatchKeeps(cs: Catches, i: nat, exc: Value, t: Setting, w: World, fuel: nat, x: Name)
    requires x !in AssignedByCatches(cs)
    ensures ExecCatch(cs, i, exc, t, w, fuel).1.Get(x) == w.Get(x)
    decreases fuel, cs, 0
  {
    if cs.Catch? {
      if i == 0 { BlockKeeps(cs.body, t, BindCaught(cs.pattern, exc, w), fuel, x); }
      else { CatchKeeps(cs.rest, i - 1, exc, t, w, fuel, x); }
    }
  }

  lemma {:induction false} CasesKeep(cs: Cases, v: Value, t: Setting, w: World, fuel: nat, x: Name)
    requires x !in AssignedByCases(cs)
    ensures ExecCases(cs, v, t, w, fuel).1.Get(x) == w.Get(x)
    decreases fuel, cs, 0
  {
    if cs.Case? {
      if cs.pattern.Single? { PatternKeeps(cs.pattern.p, v, t.sc, t.env, w); } else { AltsKeep(cs.pattern.alts, v, t, w); }
      var (m, w1) := MatchCase(cs.pattern, v, t, w);
      if m.Taken? {
        BindKeeps(m.alt, v, w1, x);
        BlockKeeps(cs.body, t, BindPattern(m.alt, v, w1), fuel, x);
      } else if m.Missed? {
        CasesKeep(cs.rest, v, t, w1, fuel, x);
      }
    }
  }

  /** A variable the block does not assign has the same value afterwards. */
  lemma {:induction false} BlockKeeps(b: Block, t: Setting, w: World, fuel: nat, x: Name)
    requires x !in Assigned(b)
    ensures ExecBlock(b, t, w, fuel).1.Get(x) == w.Get(x)
    decreases fuel, b, 0
  {
    if b.Cons? {
      if b.head.Defer? {
        BlockKeeps(b.tail, t, w, fuel, x);
        BlockKeeps(b.head.body, t, ExecBlock(b.tail, t, w, fuel).1, fuel, x);
      } else {
        StmtKeeps(b.head, t, w, fuel, x);
        if !b.tail.Nil? { BlockKeeps(b.tail, t, ExecStmt(b.head, t, w, fuel).1, fuel, x); }
      }
    }
  }

  // ----- bodies on which late reads and lost exceptions cannot be told from the intent -----

  /** No deferred body assigns a variable that the rest of its block returns. `strict`: moreover, where
      the rest of a block can throw, the deferred body cannot end normally. */
  predicate Tame(s: Stmt, strict: bool, sc: Scope) {
    match s
    case If(arms, els) => ArmsTame(arms, strict, sc) && (els.Some? ==> BlockTame(els.value, strict, sc))
    case While(_, _, body) => BlockTame(body, strict, sc)
    case Loop(_, _, body) => BlockTame(body, strict, sc)
    case For(_, _, _, body, els) => BlockTame(body, strict, sc) && (els.Some? ==> BlockTame(els.value, strict, sc))
    case Try(body, catches, els) =>
      BlockTame(body, strict, sc) && CatchesTame(catches, strict, sc) && (els.Some? ==> BlockTame(els.value, strict, sc))
    case With(_, _, body) => BlockTame(body, strict, sc)
    case Match(_, cases, els) => CasesTame(cases, strict, sc) && (els.Some? ==> BlockTame(els.value, strict, sc))
    case _ => true
  }

  predicate BlockTame(b: Block, strict: bool, sc: Scope) {
    match b
    case Nil => true
    case Cons(Defer(cleanup), rest) =>
      && (strict ==> !MayBlock(rest, Throws, sc) || !MayBlock(cleanup, Falls, sc))
      && Assigned(cleanup) !! ReturnedIn(rest) && BlockTame(cleanup, strict, sc) && BlockTame(rest, strict, sc)
    case Cons(s, rest) => Tame(s, strict, sc) && BlockTame(rest, strict, sc)
  }

  predicate ArmsTame(arms: Arms, strict: bool, sc: Scope) {
    BlockTame(arms.body, strict, sc) && (arms.Arm? ==> ArmsTame(arms.rest, strict, sc))
  }

  predicate CatchesTame(cs: Catches, strict: bool, sc: Scope) {
    match cs
    case NoCatch => true
    case Catch(_, body, rest) => BlockTame(body, strict, sc) && CatchesTame(rest, strict, sc)
  }

  predicate CasesTame(cs: Cases, strict: bool, sc: Scope) {
    match cs
    case NoCase => true
    case Case(_, body, rest) => BlockTame(body, strict, sc) && CasesTame(rest, strict, sc)
  }

  /** `a` reads returned variables late, `b` at once; they come to the same. */
  ghost predicate Same(a: Result, b: Result, names: set<Name>) {
    && a.1 == b.1
    && (if a.0.ReturnedVar? then a.0.x in names && b.0 == Returned(a.1.Get(a.0.x), a.0.fors) else b.0 == a.0)
  }

  ghost predicate Paired(t: Setting, u: Setting, strict: bool) {
    && t.mode.lateReturn && !u.mode.lateReturn && t.sc == u.sc && t.env == u.env
    && (strict || t.mode.lostException == u.mode.lostException)
  }

  ghost predicate SameOption(a: (Option<Outcome>, World), b: (Option<Outcome>, World), names: set<Name>) {
    a.0.Some? == b.0.Some? && (if a.0.Some? then Same((a.0.value, a.1), (b.0.value, b.1), names) else a.1 == b.1)
  }

  lemma {:induction false} StmtSame(s: Stmt, strict: bool, t: Setting, u: Setting, w: World, fuel: nat)
    requires Tame(s, strict, t.sc) && Paired(t, u, strict)
    ensures Same(ExecStmt(s, t, w, fuel), ExecStmt(s, u, w, fuel), ReturnedBy(s))
    decreases fuel, s, 1
  {
    match s
    case If(arms, els) =>
      ArmsSame(arms, strict, t, u, w, fuel);
      ElseSame(els, strict, t, u, ExecArms(arms, t, w, fuel).1, fuel);
    case While(lbl, c, body) =>
      if fuel > 0 {
        var w1 := EvalExpr(c, t.sc, t.env, w).1;
        BlockSame(body, strict, t, u, w1, fuel - 1);
        StmtSame(s, strict, t, u, ExecBlock(body, t, w1, fuel - 1).1, fuel - 1);
      }
    case Loop(lbl, count, body) =>
      if count.Some? {
        var (r, w1) := EvalExpr(count.value, t.sc, t.env, w);
        if r.Ret? { CountedSame(r.value, lbl, body, strict, t, u, w1, fuel); }
      } else if fuel > 0 {
        BlockSame(body, strict, t, u, w, fuel - 1);
        StmtSame(s, strict, t, u, ExecBlock(body, t, w, fuel - 1).1, fuel - 1);
      }
    case For(lbl, binder, iterable, body, els) =>
      var (r, w1) := EvalExpr(iterable, t.sc, t.env, w);
      if r.Ret? {
        var it := t.env.iter(w1.trace, r.value);
        var w2 := w1.Log(IterMade(r.value));
        if it.Ret? {
          ForSame(it.value, lbl, binder, body, strict, t, u, w2, fuel);
          ElseSame(els, strict, t, u, ExecFor(it.value, lbl, binder, body, t, w2, fuel).1, fuel);
        }
      }
    case Try(_, _, _) => TrySame(s, strict, t, u, w, fuel);
    case With(_, _, _) => WithSame(s, strict, t, u, w, fuel);
    case Match(subject, cases, els) =>
      var (r, w1) := EvalExpr(subject, t.sc, t.env, w);
      if r.Ret? {
        CasesSame(cases, r.value, strict, t, u, w1, fuel);
        ElseSame(els, strict, t, u, ExecCases(cases, r.value, t, w1, fuel).1, fuel);
      }
    case _ =>
  }

  lemma TrySame(s: Stmt, strict: bool, t: Setting, u: Setting, w: World, fuel: nat)
    requires s.Try? && Tame(s, strict, t.sc) && Paired(t, u, strict)
    ensures Same(ExecTry(s, t, w, fuel), ExecTry(s, u, w, fuel), ReturnedBy(s))
    decreases fuel, s, 0
  {
    BlockSame(s.body, strict, t, u, w, fuel);
    var (o, w1) := ExecBlock(s.body, t, w, fuel);
    ElseSame(s.els, strict, t, u, w1, fuel);
    if o.Threw? && Select(s.catches, o.exc, t.env).Some? {
      CatchSame(s.catches, Select(s.catches, o.exc, t.env).value, o.exc, strict, t, u, w1, fuel);
    }
  }

  lemma WithSame(s: Stmt, strict: bool, t: Setting, u: Setting, w: World, fuel: nat)
    requires s.With? && Tame(s, strict, t.sc) && Paired(t, u, strict)
    ensures Same(ExecWith(s, t, w, fuel), ExecWith(s, u, w, fuel), ReturnedBy(s))
    decreases fuel, s, 0
  {
    var (r, w1) := EvalExpr(s.context, t.sc, t.env, w);
    if r.Ret? {
      var (enter, w2) := ReadAttr(r.value, WITH_ENTER, t.env, w1);
      if enter.Ret? {
        var (entered, w3) := CallValue(enter.value, [], t.env, w2);
        if entered.Ret? {
          BlockSame(s.body, strict, t, u, if s.alias.Some? then w3.Set(s.alias.value, entered.value) else w3, fuel);
        }
      }
    }
  }

  lemma ElseSame(els: Option<Block>, strict: bool, t: Setting, u: Setting, w: World, fuel: nat)
    requires (els.Some? ==> BlockTame(els.value, strict, t.sc)) && Paired(t, u, strict)
    ensures Same(ExecElse(els, t, w, fuel), ExecElse(els, u, w, fuel), if els.Some? then ReturnedIn(els.value) else {})
    ensures els.Some? ==> Same(ExecBlock(els.value, t, w, fuel), ExecBlock(els.value, u, w, fuel), ReturnedIn(els.value))
    decreases fuel, els, 0
  {
    if els.Some? { BlockSame(els.value, strict, t, u, w, fuel); }
  }

  lemma {:induction false} ArmsSame(arms: Arms, strict: bool, t: Setting, u: Setting, w: World, fuel: nat)
    requires ArmsTame(arms, strict, t.sc) && Paired(t, u, strict)
    ensures SameOption(ExecArms(arms, t, w, fuel), ExecArms(arms, u, w, fuel), ReturnedByArms(arms))
    decreases fuel, arms, 0
  {
    var w1 := EvalExpr(arms.cond, t.sc, t.env, w).1;
    BlockSame(arms.body, strict, t, u, w1, fuel);
    if arms.Arm? { ArmsSame(arms.rest, strict, t, u, w1, fuel); }
  }

  lemma {:induction false} CountedSame(count: Value, lbl: Label, body: Block, strict: bool, t: Setting, u: Setting, w: World, fuel: nat)
    requires BlockTame(body, strict, t.sc) && Paired(t, u, strict)
    ensures Same(ExecCounted(count, lbl, body, t, w, fuel), ExecCounted(count, lbl, body, u, w, fuel), ReturnedIn(body))
    decreases fuel, body, 2
  {
    if count.Num? && fuel > 0 {
      BlockSame(body, strict, t, u, w, fuel - 1);
      CountedSame(Num(count.r - 1.0), lbl, body, strict, t, u, ExecBlock(body, t, w, fuel - 1).1, fuel - 1);
    }
  }

  lemma {:induction false} ForSame(it: Value, lbl: Label, binder: Option<Name>, body: Block, strict: bool, t: Setting, u: Setting, w: World, fuel: nat)
    requires BlockTame(body, strict, t.sc) && Paired(t, u, strict)
    ensures SameOption(ExecFor(it, lbl, binder, body, t, w, fuel), ExecFor(it, lbl, binder, body, u, w, fuel), ReturnedIn(body))
    decreases fuel, body, 2
  {
    var item := t.env.next(w.trace, it);
    if item.Item? && fuel > 0 {
      var w1 := w.Log(IterAdvanced(it));
      var w2 := if binder.Some? then w1.Set(binder.value, item.value) else w1;
      BlockSame(body, strict, t, u, w2, fuel - 1);
      ForSame(it, lbl, binder, body, strict, t, u, ExecBlock(body, t, w2, fuel - 1).1, fuel - 1);
    }
  }

  lemma {:induction false} CatchSame(cs: Catches, i: nat, exc: Value, strict: bool, t: Setting, u: Setting, w: World, fuel: nat)
    requires CatchesTame(cs, strict, t.sc) && Paired(t, u, strict)
    ensures Same(ExecCatch(cs, i, exc, t, w, fuel), ExecCatch(cs, i, exc, u, w, fuel), ReturnedByCatches(cs))
    decreases fuel, cs, 0
  {
    if cs.Catch? {
      if i == 0 { BlockSame(cs.body, strict, t, u, BindCaught(cs.pattern, exc, w), fuel); }
      else { CatchSame(cs.rest, i - 1, exc, strict, t, u, w, fuel); }
    }
  }

  lemma {:induction false} AltsSame(alts: Patterns, v: Value, t: Setting, u: Setting, w: World)
    requires t.sc == u.sc && t.env == u.env
    ensures MatchAlts(alts, v, t, w) == MatchAlts(alts, v, u, w)
    decreases alts
  {
    if alts.MorePat? { AltsSame(alts.tail, v, t, u, MatchPattern(alts.head, v, t.sc, t.env, w).1); }
  }

  lemma {:induction false} CasesSame(cs: Cases, v: Value, strict: bool, t: Setting, u: Setting, w: World, fuel: nat)
    requires CasesTame(cs, strict, t.sc) && Paired(t, u, strict)
    ensures SameOption(ExecCases(cs, v, t, w, fuel), ExecCases(cs, v, u, w, fuel), ReturnedByCases(cs))
    decreases fuel, cs, 0
  {
    if cs.Case? {
      if cs.pattern.OneOf? { AltsSame(cs.pattern.alts, v, t, u, w); }
      var (m, w1) := MatchCase(cs.pattern, v, t, w);
      if m.Taken? { BlockSame(cs.body, strict, t, u, BindPattern(m.alt, v, w1), fuel); }
      else if m.Missed? { CasesSame(cs.rest, v, strict, t, u, w1, fuel); }
    }
  }

  lemma {:induction false} BlockSame(b: Block, strict: bool, t: Setting, u: Setting, w: World, fuel: nat)
    requires BlockTame(b, strict, t.sc) && Paired(t, u, strict)
    ensures Same(ExecBlock(b, t, w, fuel), ExecBlock(b, u, w, fuel), ReturnedIn(b))
    decreases fuel, b, 1
  {
    if b.Cons? {
      if b.head.Defer? {
        DeferSame(b, strict, t, u, w, fuel);
      } else {
        StmtSame(b.head, strict, t, u, w, fuel);
        if !b.tail.Nil? { BlockSame(b.tail, strict, t, u, ExecStmt(b.head, t, w, fuel).1, fuel); }
      }
    }
  }

  lemma DeferSame(b: Block, strict: bool, t: Setting, u: Setting, w: World, fuel: nat)
    requires b.Cons? && b.head.Defer? && BlockTame(b, strict, t.sc) && Paired(t, u, strict)
    ensures Same(ExecBlock(b, t, w, fuel), ExecBlock(b, u, w, fuel), ReturnedIn(b))
    decreases fuel, b, 0
  {
    var cleanup := b.head.body;
    BlockSame(b.tail, strict, t, u, w, fuel);
    var (o, w1) := ExecBlock(b.tail, t, w, fuel);
    BlockSame(cleanup, strict, t, u, w1, fuel);
    BlockEnds(b.tail, t, w, fuel);
    BlockEnds(cleanup, t, w1, fuel);
    if o.ReturnedVar? { BlockKeeps(cleanup, t, w1, fuel, o.x); }
  }

  /** A late read of a returned variable cannot be told from an early one if no deferred body
      assigns a variable that the rest of its block returns. */
  lemma LateReturnHarmless(b: Block, lost: bool, sc: Scope, env: Env, w: World, fuel: nat)
    requires BlockTame(b, false, sc)
    ensures ExecBody(b, Setting(Mode(true, lost), sc, env), w, fuel) == ExecBody(b, Setting(Mode(false, lost), sc, env), w, fuel)
  {
    BlockSame(b, false, Setting(Mode(true, lost), sc, env), Setting(Mode(false, lost), sc, env), w, fuel);
  }

  /** The compiled meaning is the intended one if, besides, no exception can pass a deferred body that
      ends normally; in particular without `defer`. */
  lemma QuietDefersIntended(b: Block, sc: Scope, env: Env, w: World, fuel: nat)
    requires BlockTame(b, true, sc)
    ensures ExecBody(b, Setting(CODE, sc, env), w, fuel) == ExecBody(b, Setting(INTENDED, sc, env), w, fuel)
  {
    BlockSame(b, true, Setting(CODE, sc, env), Setting(INTENDED, sc, env), w, fuel);
  }

  // ----- one region -----

  /** Code without exits returns no variable, so it is tame. */
  lemma {:induction false} StmtReturnsNothing(s: Stmt, sc: Scope)
    requires !HasExit(s) && !s.Defer?
    ensures ReturnedBy(s) == {} && Tame(s, false, sc)
    decreases s
  {
    match s
    case If(arms, els) => ArmsReturnNothing(arms, sc); if els.Some? { ReturnsNothing(els.value, sc); }
    case While(_, _, body) => ReturnsNothing(body, sc);
    case Loop(_, _, body) => ReturnsNothing(body, sc);
    case For(_, _, _, body, els) => ReturnsNothing(body, sc); if els.Some? { ReturnsNothing(els.value, sc); }
    case Try(body, catches, els) =>
      ReturnsNothing(body, sc);
      CatchesReturnNothing(catches, sc);
      if els.Some? { ReturnsNothing(els.value, sc); }
    case With(_, _, body) => ReturnsNothing(body, sc);
    case Match(_, cases, els) => CasesReturnNothing(cases, sc); if els.Some? { ReturnsNothing(els.value, sc); }
    case _ =>
  }

  lemma {:induction false} ReturnsNothing(b: Block, sc: Scope)
    requires !BlockExits(b)
    ensures ReturnedIn(b) == {} && BlockTame(b, false, sc)
    decreases b
  {
    if b.Cons? {
      ReturnsNothing(b.tail, sc);
      if b.head.Defer? {
        assert !HasExit(b.head);
        ReturnsNothing(b.head.body, sc);
      } else {
        StmtReturnsNothing(b.head, sc);
      }
    }
  }

  lemma {:induction false} ArmsReturnNothing(arms: Arms, sc: Scope)
    requires !ArmsExit(arms)
    ensures ReturnedByArms(arms) == {} && ArmsTame(arms, false, sc)
    decreases arms
  {
    ReturnsNothing(arms.body, sc);
    if arms.Arm? { ArmsReturnNothing(arms.rest, sc); }
  }

  lemma {:induction false} CatchesReturnNothing(cs: Catches, sc: Scope)
    requires !CatchesExit(cs)
    ensures ReturnedByCatches(cs) == {} && CatchesTame(cs, false, sc)
    decreases cs
  {
    if cs.Catch? { ReturnsNothing(cs.body, sc); CatchesReturnNothing(cs.rest, sc); }
  }

  lemma {:induction false} CasesReturnNothing(cs: Cases, sc: Scope)
    requires !CasesExit(cs)
    ensures ReturnedByCases(cs) == {} && CasesTame(cs, false, sc)
    decreases cs
  {
    if cs.Case? { ReturnsNothing(cs.body, sc); CasesReturnNothing(cs.rest, sc); }
  }

  /** `defer c` followed by `return x`: the caller gets the value of `x` at the `return` exactly
      when the deferred body, if it completes, leaves `x` as it was. */
  lemma LateReturnExactly(cleanup: Block, x: Name, lost: bool, sc: Scope, env: Env, w: World, fuel: nat)
    requires x in sc.locals && !BlockExits(cleanup)
    ensures var b := Cons(Defer(cleanup), Cons(Return(Some(Var(x))), Nil));
            var (o, w1) := ExecBlock(cleanup, Setting(Mode(true, lost), sc, env), w, fuel);
            ExecBody(b, Setting(Mode(true, lost), sc, env), w, fuel) == ExecBody(b, Setting(Mode(false, lost), sc, env), w, fuel)
            <==> (o.Normal? ==> w1.Get(x) == w.Get(x))
  {
    var t, u := Setting(Mode(true, lost), sc, env), Setting(Mode(false, lost), sc, env);
    BlockStays(cleanup, t, w, fuel);
    ReturnsNothing(cleanup, sc);
    BlockSame(cleanup, false, t, u, w, fuel);
    var rest := Cons(Return(Some(Var(x))), Nil);
    assert ExecBlock(rest, t, w, fuel) == (ReturnedVar(x, 0), w);
    assert ExecBlock(rest, u, w, fuel) == (Returned(w.Get(x), 0), w);
  }

  /** `defer c` before the rest of a block: the compiled meaning is the intended one exactly when, if `c`
      ends normally, the rest has not thrown an exception that could be lost and has not returned a
      variable that `c` changes. */
  lemma LostExactly(cleanup: Block, rest: Block, sc: Scope, env: Env, w: World, fuel: nat)
    requires !BlockExits(cleanup) && BlockTame(cleanup, true, sc) && BlockTame(rest, true, sc)
    ensures var b, t := Cons(Defer(cleanup), rest), Setting(CODE, sc, env);
            var (o, w1) := ExecBlock(rest, t, w, fuel);
            var (c, w2) := ExecBlock(cleanup, t, w1, fuel);
            ExecBody(b, t, w, fuel) == ExecBody(b, Setting(INTENDED, sc, env), w, fuel)
            <==> (!o.Timeout? && c.Normal? ==> (o.Threw? ==> o.exc == RETHROW_ERROR) && (o.ReturnedVar? ==> w2.Get(o.x) == w1.Get(o.x)))
  {
    hide ExecBlock, BlockTame, BlockExits, ReturnedIn, MayBlock;
    var t, u := Setting(CODE, sc, env), Setting(INTENDED, sc, env);
    var (o, w1) := ExecBlock(rest, t, w, fuel);
    BlockSame(rest, true, t, u, w, fuel);
    ReturnsNothing(cleanup, sc);
    BlockStays(cleanup, t, w1, fuel);
    BlockSame(cleanup, true, t, u, w1, fuel);
    OneDefer(cleanup, rest, t, w, fuel);
    OneDefer(cleanup, rest, u, w, fuel);
  }

  /** One deferred body around the rest of a block. */
  lemma OneDefer(cleanup: Block, rest: Block, t: Setting, w: World, fuel: nat)
    ensures var (o, w1) := ExecBlock(rest, t, w, fuel);
            ExecBlock(Cons(Defer(cleanup), rest), t, w, fuel)
            == if o.Timeout? then (o, w1) else Resume(t.mode, o, ExecBlock(cleanup, t, w1, fuel))
  {
  }

  /** `defer { x = 2 }  return x` gives 2, whatever `x` was. */
  lemma LateReturnExample(x: Name, sc: Scope, env: Env, w: World, fuel: nat)
    requires x in sc.locals
    ensures var b := Cons(Defer(Cons(Assign(x, Const(Num(2.0))), Nil)), Cons(Return(Some(Var(x))), Nil));
            ExecBody(b, Setting(CODE, sc, env), w, fuel).0 == Gave(Num(2.0), 0)
            && ExecBody(b, Setting(INTENDED, sc, env), w, fuel).0 == Gave(w.Get(x), 0)
  {
    var set2 := Assign(x, Const(Num(2.0)));
    var cleanup, rest := Cons(set2, Nil), Cons(Return(Some(Var(x))), Nil);
    var t, u := Setting(CODE, sc, env), Setting(INTENDED, sc, env);
    var ret := Return(Some(Var(x)));
    assert ExecStmt(ret, t, w, fuel) == (ReturnedVar(x, 0), w) && ExecStmt(ret, u, w, fuel) == (Returned(w.Get(x), 0), w);
    assert ExecBlock(rest, t, w, fuel) == (ReturnedVar(x, 0), w) && ExecBlock(rest, u, w, fuel) == (Returned(w.Get(x), 0), w);
    assert EvalExpr(Const(Num(2.0)), sc, env, w) == (Ret(Num(2.0)), w);
    assert ExecStmt(set2, t, w, fuel) == (Normal(Unit), w.Set(x, Num(2.0))) && ExecStmt(set2, u, w, fuel) == (Normal(Unit), w.Set(x, Num(2.0)));
    assert ExecBlock(cleanup, t, w, fuel) == (Normal(Unit), w.Set(x, Num(2.0))) && ExecBlock(cleanup, u, w, fuel) == (Normal(Unit), w.Set(x, Num(2.0)));
    OneDefer(cleanup, rest, t, w, fuel);
    OneDefer(cleanup, rest, u, w, fuel);
  }

  /** `defer { }  throw e`: the caller sees another exception. */
  lemma LostExceptionExample(e: Value, sc: Scope, env: Env, w: World, fuel: nat)
    requires env.isException(e)
    ensures var b := Cons(Defer(Nil), Cons(Throw(Const(e)), Nil));
            ExecBody(b, Setting(CODE, sc, env), w, fuel).0 == Raised(RETHROW_ERROR)
            && ExecBody(b, Setting(INTENDED, sc, env), w, fuel).0 == Raised(e)
  {
    var rest := Cons(Throw(Const(e)), Nil);
    var t, u := Setting(CODE, sc, env), Setting(INTENDED, sc, env);
    assert EvalExpr(Const(e), sc, env, w) == (Ret(e), w);
    assert ExecStmt(Throw(Const(e)), t, w, fuel) == (Threw(e), w) && ExecStmt(Throw(Const(e)), u, w, fuel) == (Threw(e), w);
    OneDefer(Nil, rest, t, w, fuel);
    OneDefer(Nil, rest, u, w, fuel);
  }
}
