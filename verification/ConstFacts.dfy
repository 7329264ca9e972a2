/** What deeper evaluation and further constants cannot change. */
module ConstFacts {
  import opened Wrappers
  import opened ConstSemantics

  /** The same functions and operators, and at least the same constants. */
  ghost predicate Extends(c: Context, c': Context) {
    c'.functions == c.functions && c'.ops == c.ops && forall x :: x in c.values ==> x in c'.values && c'.values[x] == c.values[x]
  }

  /** A value stays; in the same context any answer stays. */
  ghost predicate Carried<T>(same: bool, r: Out<T>, r': Out<T>) {
    r.Done? || (same && !r.Deep?) ==> r' == r
  }

  lemma CarryExpr(same: bool, c: Context, c': Context, e: Expr, l: Locals, d: nat, d': nat)
    requires Extends(c, c') && (same ==> c == c') && d <= d'
    ensures Carried(same, PlainExpr(c, e, l, d), PlainExpr(c', e, l, d'))
    decreases d, 1, e, 0
  {
    match e
    case TupleOf(es) => CarryExprs(same, c, c', es, l, d, d', false);
    case ListOf(es) => CarryExprs(same, c, c', es, l, d, d', true);
    case Unary(_, a) => CarryExpr(same, c, c', a, l, d, d');
    case Binary(_, a, b) =>
      CarryExpr(same, c, c', a, l, d, d');
      CarryExpr(same, c, c', b, l, d, d');
    case IfElse(g, a, b) =>
      CarryExpr(same, c, c', g, l, d, d');
      CarryExpr(same, c, c', a, l, d, d');
      CarryExpr(same, c, c', b, l, d, d');
    case Index(o, i) =>
      CarryExpr(same, c, c', o, l, d, d');
      CarryExpr(same, c, c', i, l, d, d');
    case Call(f, args) =>
      CarryExprs(same, c, c', args, l, d, d', false);
      var r := PlainExprs(c, args, l, d, false);
      if r.Done? && !c.ops.isBuiltin(f) && f in c.functions { CarryApply(same, c, c', f, r.v, d, d'); }
    case _ =>
  }

  lemma CarryExprs(same: bool, c: Context, c': Context, es: Exprs, l: Locals, d: nat, d': nat, needed: bool)
    requires Extends(c, c') && (same ==> c == c') && d <= d'
    ensures Carried(same, PlainExprs(c, es, l, d, needed), PlainExprs(c', es, l, d', needed))
    decreases d, 1, es, 0
  {
    if es.MoreExpr? {
      CarryExpr(same, c, c', es.head, l, d, d');
      CarryExprs(same, c, c', es.tail, l, d, d', needed);
    }
  }

  lemma CarryApply(same: bool, c: Context, c': Context, f: Name, args: seq<Value>, d: nat, d': nat)
    requires Extends(c, c') && (same ==> c == c') && d <= d' && f in c.functions
    ensures Carried(same, PlainApply(c, f, args, d), PlainApply(c', f, args, d'))
    decreases d, 0, 1
  {
    if d > 0 {
      CarryBind(same, c, c', c.functions[f].params, args, d - 1, d' - 1);
      var bound := PlainBind(c, c.functions[f].params, args, d - 1);
      if bound.Done? { CarryCall(same, c, c', f, bound.v, d, d'); }
    }
  }

  lemma CarryBind(same: bool, c: Context, c': Context, ps: Params, args: seq<Value>, d: nat, d': nat)
    requires Extends(c, c') && (same ==> c == c') && d <= d'
    ensures Carried(same, PlainBind(c, ps, args, d), PlainBind(c', ps, args, d'))
    decreases d, 1, ps, 0
  {
    if ps.Param? {
      if args != [] {
        CarryBind(same, c, c', ps.rest, args[1..], d, d');
      } else if ps.default.Some? {
        CarryExpr(same, c, c', ps.default.value, NO_LOCALS, d, d');
        CarryBind(same, c, c', ps.rest, [], d, d');
      }
    }
  }

  lemma CarryCall(same: bool, c: Context, c': Context, f: Name, args: seq<Value>, d: nat, d': nat)
    requires Extends(c, c') && (same ==> c == c') && d <= d' && f in c.functions
    ensures Carried(same, PlainCall(c, f, args, d), PlainCall(c', f, args, d'))
    decreases d, 0, 0
  {
    if d > 0 { CarryBlock(same, c, c', c.functions[f].body, Entered(c.functions[f].params, args, NO_LOCALS), true, d - 1, d' - 1); }
  }

  lemma CarryBlock(same: bool, c: Context, c': Context, b: Block, l: Locals, asValue: bool, d: nat, d': nat)
    requires Extends(c, c') && (same ==> c == c') && d <= d'
    ensures Carried(same, PlainBlock(c, b, l, asValue, d), PlainBlock(c', b, l, asValue, d'))
    decreases d, 1, b, 0
  {
    if b.Cons? {
      var tail := asValue && !b.head.Comment? && OnlyComments(b.tail);
      CarryStmt(same, c, c', b.head, l, tail, d, d');
      var r := PlainStmt(c, b.head, l, tail, d);
      if r.Done? { CarryBlock(same, c, c', b.tail, r.v.1, asValue, d, d'); }
    }
  }

  lemma CarryStmt(same: bool, c: Context, c': Context, s: Stmt, l: Locals, tail: bool, d: nat, d': nat)
    requires Extends(c, c') && (same ==> c == c') && d <= d'
    ensures Carried(same, PlainStmt(c, s, l, tail, d), PlainStmt(c', s, l, tail, d'))
    decreases d, 1, s, 1
  {
    match s
    case Return(e) => if e.Some? { CarryExpr(same, c, c', e.value, l, d, d'); }
    case Let(_, e, _) => CarryExpr(same, c, c', e, l, d, d');
    case Assign(_, e) => CarryExpr(same, c, c', e, l, d, d');
    case Eval(e) => CarryExpr(same, c, c', e, l, d, d');
    case If(arms, els) =>
      CarryArms(same, c, c', arms, l, tail, d, d');
      if els.Some? { CarryBlock(same, c, c', els.value, l, tail, d, d'); ArmsKeep(c, arms, l, tail, d); }
    case While(lbl, g, body) => CarryWhile(same, c, c', lbl, g, body, l, d, d');
    case Loop(lbl, count, body) => CarryCounted(same, c, c', s, l, tail, d, d');
    case For(_, _, _, _, _) => CarryFor(same, c, c', s, l, tail, d, d');
    case Inner(body) => CarryBlock(same, c, c', body, l, tail, d, d');
    case _ =>
  }

  /** When no arm is taken the locals are as before. */
  lemma ArmsKeep(c: Context, arms: Arms, l: Locals, tail: bool, d: nat)
    ensures var r := PlainArms(c, arms, l, tail, d); r.Done? && r.v.0.None? ==> r.v.1 == l
    decreases arms
  {
    if arms.Arm? { ArmsKeep(c, arms.rest, l, tail, d); }
  }

  lemma CarryArms(same: bool, c: Context, c': Context, arms: Arms, l: Locals, tail: bool, d: nat, d': nat)
    requires Extends(c, c') && (same ==> c == c') && d <= d'
    ensures Carried(same, PlainArms(c, arms, l, tail, d), PlainArms(c', arms, l, tail, d'))
    decreases d, 1, arms, 0
  {
    CarryExpr(same, c, c', arms.cond, l, d, d');
    CarryBlock(same, c, c', arms.body, l, tail, d, d');
    if arms.Arm? { CarryArms(same, c, c', arms.rest, l, tail, d, d'); }
  }

  lemma CarryWhile(same: bool, c: Context, c': Context, lbl: Label, g: Expr, body: Block, l: Locals, d: nat, d': nat)
    requires Extends(c, c') && (same ==> c == c') && d <= d'
    ensures Carried(same, PlainWhile(c, lbl, g, body, l, d), PlainWhile(c', lbl, g, body, l, d'))
    decreases d, 1, body, 2
  {
    hide PlainExpr, PlainBlock;
    if d > 0 {
      CarryExpr(same, c, c', g, l, d - 1, d' - 1);
      CarryBlock(same, c, c', body, l, false, d - 1, d' - 1);
      var b := PlainBlock(c, body, l, false, d - 1);
      if b.Done? { CarryWhile(same, c, c', lbl, g, body, b.v.1, d - 1, d' - 1); }
    }
  }

  lemma CarryCounted(same: bool, c: Context, c': Context, s: Stmt, l: Locals, tail: bool, d: nat, d': nat)
    requires Extends(c, c') && (same ==> c == c') && d <= d' && s.Loop?
    ensures Carried(same, PlainStmt(c, s, l, tail, d), PlainStmt(c', s, l, tail, d'))
    decreases d, 1, s, 0
  {
    if s.count.None? {
      CarryLoop(same, c, c', s.lbl, s.body, MAX_COUNT, l, d, d');
    } else {
      CarryExpr(same, c, c', s.count.value, l, d, d');
      var r := PlainExpr(c, s.count.value, l, d);
      if r.Done? && CountOf(r.v).Done? { CarryLoop(same, c, c', s.lbl, s.body, CountOf(r.v).v, l, d, d'); }
    }
  }

  lemma CarryLoop(same: bool, c: Context, c': Context, lbl: Label, body: Block, n: nat, l: Locals, d: nat, d': nat)
    requires Extends(c, c') && (same ==> c == c') && d <= d'
    ensures Carried(same, PlainLoop(c, lbl, body, n, l, d), PlainLoop(c', lbl, body, n, l, d'))
    decreases d, 1, body, 2, n
  {
    if n > 0 {
      CarryBlock(same, c, c', body, l, false, d, d');
      var b := PlainBlock(c, body, l, false, d);
      if b.Done? { CarryLoop(same, c, c', lbl, body, n - 1, b.v.1, d, d'); }
    }
  }

  lemma CarryFor(same: bool, c: Context, c': Context, s: Stmt, l: Locals, tail: bool, d: nat, d': nat)
    requires Extends(c, c') && (same ==> c == c') && d <= d' && s.For?
    ensures Carried(same, PlainStmt(c, s, l, tail, d), PlainStmt(c', s, l, tail, d'))
    decreases d, 1, s, 0
  {
    CarryExpr(same, c, c', s.iterable, l, d, d');
    var r := PlainExpr(c, s.iterable, l, d);
    if r.Done? && Items(r.v).Some? {
      var items := Items(r.v).value;
      CarryItems(same, c, c', s.lbl, s.x, s.body, items, l, d, d');
      var looped := PlainFor(c, s.lbl, s.x, s.body, items, l, d);
      if s.els.Some? && looped.Done? { CarryBlock(same, c, c', s.els.value, looped.v.1, false, d, d'); }
    }
  }

  lemma CarryItems(same: bool, c: Context, c': Context, lbl: Label, x: Name, body: Block, items: seq<Value>, l: Locals, d: nat, d': nat)
    requires Extends(c, c') && (same ==> c == c') && d <= d'
    ensures Carried(same, PlainFor(c, lbl, x, body, items, l, d), PlainFor(c', lbl, x, body, items, l, d'))
    decreases d, 1, body, 2, |items|
  {
    if items != [] {
      var l1 := Item(x, items[0], l);
      CarryBlock(same, c, c', body, l1, false, d, d');
      var b := PlainBlock(c, body, l1, false, d);
      if b.Done? { CarryItems(same, c, c', lbl, x, body, items[1..], b.v.1, d, d'); }
    }
  }
}
