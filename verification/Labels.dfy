/** Labels of generated code: every label is marked at most once, and every jump target
    is marked, so the table built from the marks resolves all of them. */
module Labels {
  import opened Syntax
  import opened Semantics
  import opened Machine
  import opened Codegen
  import opened Simulation

  // ----- jump targets -----

  /** The labels an instruction can jump to, now or when its handler ends. */
  function Targets(i: Instr): set<nat> {
    match i
    case Goto(l) => {l}
    case GotoIf(l) => {l}
    case GotoIfNot(l) => {l}
    case LoopCountdown(l) => {l}
    case EnterTry(c, e, d) => {c, d} + (if e != 0 then {e} else {})
    case _ => {}
  }

  ghost predicate Has(code: Code, l: nat) {
    exists i :: 0 <= i < |code| && code[i] == Mark(l)
  }

  /** The marks of `code` are distinct; they are the labels of `given` and some from `n` up to
      `k`; and every jump goes to a mark in `code` or to a label of `outer`. */
  ghost predicate Neat(code: Code, n: nat, k: nat, given: set<nat>, outer: set<nat>) {
    && (forall i, j :: 0 <= i < j < |code| && code[i].Mark? && code[j].Mark? ==> code[i].lbl != code[j].lbl)
    && (forall i :: 0 <= i < |code| && code[i].Mark? ==> n <= code[i].lbl < k || code[i].lbl in given)
    && (forall l :: l in given ==> Has(code, l))
    && (forall i, l :: 0 <= i < |code| && l in Targets(code[i]) ==> Has(code, l) || l in outer)
  }

  lemma HasInSum(a: Code, b: Code, l: nat)
    ensures Has(a + b, l) == (Has(a, l) || Has(b, l))
  {
    if Has(a, l) {
      var i :| 0 <= i < |a| && a[i] == Mark(l);
      assert (a + b)[i] == Mark(l);
    }
    if Has(b, l) {
      var i :| 0 <= i < |b| && b[i] == Mark(l);
      assert (a + b)[|a| + i] == Mark(l);
    }
  }

  /** Two stretches, one after the other; `g` collects what they mark of the labels given to them. */
  lemma Join(a: Code, b: Code, n: nat, k: nat, j: nat, ga: set<nat>, gb: set<nat>, g: set<nat>, o: set<nat>)
    requires Neat(a, n, k, ga, o) && Neat(b, k, j, gb, o) && n <= k <= j
    requires ga !! gb && g == ga + gb && forall l :: l in g ==> l < n
    ensures Neat(a + b, n, j, g, o)
  {
    var c := a + b;
    forall l: nat ensures Has(c, l) == (Has(a, l) || Has(b, l)) { HasInSum(a, b, l); }
    forall i | 0 <= i < |c| ensures c[i] == if i < |a| then a[i] else b[i - |a|] { }
  }

  /** Labels taken just before a stretch count as its own. */
  lemma Absorb(code: Code, n0: nat, n: nat, k: nat, g: set<nat>, g0: set<nat>, o: set<nat>, o0: set<nat>)
    requires Neat(code, n, k, g, o) && n0 <= n && g0 <= g && o <= o0 + g
    requires forall l :: l in g ==> l in g0 || n0 <= l < k
    ensures Neat(code, n0, k, g0, o0)
  {
  }

  /** Instructions without labels. */
  ghost predicate Inert(code: Code) {
    forall i {:trigger code[i]} :: 0 <= i < |code| ==> !code[i].Mark? && Targets(code[i]) == {}
  }

  /** Instructions that mark nothing and jump only to labels of `o`. */
  lemma Unmarked(code: Code, n: nat, o: set<nat>)
    requires forall i :: 0 <= i < |code| ==> !code[i].Mark? && Targets(code[i]) <= o
    ensures Neat(code, n, n, {}, o)
  {
  }

  lemma Place(l: nat, n: nat, o: set<nat>)
    ensures Neat([Mark(l)], n, n, {l}, o)
  {
    assert [Mark(l)][0] == Mark(l);
  }

  /** A jump, and right after it a mark: the shape that ends most branches. */
  lemma JumpPlace(i: Instr, l: nat, n: nat, o: set<nat>)
    requires !i.Mark? && Targets(i) <= o
    ensures Neat([i, Mark(l)], n, n, {l}, o)
  {
    assert [i, Mark(l)][1] == Mark(l);
  }

  /** Plain instructions after a stretch. */
  lemma Tail(a: Code, b: Code, n: nat, k: nat, g: set<nat>, o: set<nat>)
    requires Neat(a, n, k, g, o) && forall i :: 0 <= i < |b| ==> !b[i].Mark? && Targets(b[i]) <= o
    requires n <= k && forall l :: l in g ==> l < n
    ensures Neat(a + b, n, k, g, o)
  {
    Unmarked(b, k, o);
    Join(a, b, n, k, k, g, {}, g, o);
  }

  /** Plain instructions before a stretch. */
  lemma Lead(a: Code, b: Code, n: nat, k: nat, g: set<nat>, o: set<nat>)
    requires Neat(b, n, k, g, o) && forall i :: 0 <= i < |a| ==> !a[i].Mark? && Targets(a[i]) <= o
    requires n <= k && forall l :: l in g ==> l < n
    ensures Neat(a + b, n, k, g, o)
  {
    Unmarked(a, n, o);
    Join(a, b, n, n, k, {}, g, g, o);
  }

  // ----- expressions and patterns -----

  lemma {:induction false} NeatExpr(e: Expr, cx: Ctx, n: nat, o: set<nat>)
    ensures Neat(GenExpr(e, cx, n).code, n, GenExpr(e, cx, n).next, {}, o)
    decreases e, 2
  {
    var folded := TryEval(e, cx);
    if folded.Some? { Unmarked([Push(folded.value)], n, o); } else { NeatPlain(e, cx, n, o); }
  }

  lemma {:induction false} NeatPlain(e: Expr, cx: Ctx, n: nat, o: set<nat>)
    ensures Neat(GenPlain(e, cx, n).code, n, GenPlain(e, cx, n).next, {}, o)
    decreases e, 1
  {
    match e
    case Const(v) => Unmarked([Push(v)], n, o);
    case Var(x) => Unmarked([if x in cx.sc.locals then LoadFast(Local(x)) else LoadGlobal(x)], n, o);
    case Unary(op, a) =>
      NeatExpr(a, cx, n, o);
      Tail(GenExpr(a, cx, n).code, [UnaryOp(op)], n, GenExpr(a, cx, n).next, {}, o);
    case Binary(op, l, r) =>
      var el := GenExpr(l, cx, n);
      var er := GenExpr(r, cx, el.next);
      NeatExpr(l, cx, n, o);
      NeatExpr(r, cx, el.next, o);
      Tail(er.code, [BinaryOp(op)], el.next, er.next, {}, o);
      Join(el.code, er.code + [BinaryOp(op)], n, el.next, er.next, {}, {}, {}, o);
    case And(_, _) => NeatShortCut(e, cx, n, o);
    case Or(_, _) => NeatShortCut(e, cx, n, o);
    case IfElse(_, _, _) => NeatIfElse(e, cx, n, o);
    case Tuple(es) =>
      NeatExprs(es, cx, n, o);
      Tail(GenExprs(es, cx, n).code, [TupleNew(es.Count())], n, GenExprs(es, cx, n).next, {}, o);
    case Member(b, field) =>
      NeatExpr(b, cx, n, o);
      Tail(GenExpr(b, cx, n).code, [GetAttr(field)], n, GenExpr(b, cx, n).next, {}, o);
    case Call(f, args) =>
      var ea := GenExprs(args, cx, n);
      var ef := GenExpr(f, cx, ea.next);
      NeatExprs(args, cx, n, o);
      NeatExpr(f, cx, ea.next, o);
      Tail(ef.code, [CallN(args.Count())], ea.next, ef.next, {}, o);
      Join(ea.code, ef.code + [CallN(args.Count())], n, ea.next, ef.next, {}, {}, {}, o);
  }

  lemma {:induction false} NeatExprs(es: Exprs, cx: Ctx, n: nat, o: set<nat>)
    ensures Neat(GenExprs(es, cx, n).code, n, GenExprs(es, cx, n).next, {}, o)
    decreases es
  {
    if es.NoExpr? {
      Unmarked([], n, o);
    } else {
      var ee := GenExpr(es.head, cx, n);
      NeatExpr(es.head, cx, n, o);
      NeatExprs(es.tail, cx, ee.next, o);
      Join(ee.code, GenExprs(es.tail, cx, ee.next).code, n, ee.next, GenExprs(es, cx, n).next, {}, {}, {}, o);
    }
  }

  lemma NeatReload(n: nat, k: nat, o: set<nat>)
    requires n + 1 in o
    ensures Neat([Goto(n + 1), Mark(n), LoadFast(Temp(n + 2)), Mark(n + 1)], k, k, {n, n + 1}, o)
  {
    var code := [Goto(n + 1), Mark(n), LoadFast(Temp(n + 2)), Mark(n + 1)];
    assert code[1] == Mark(n) && code[3] == Mark(n + 1);
  }

  lemma NeatShortCut(e: Expr, cx: Ctx, n: nat, o: set<nat>)
    requires e.And? || e.Or?
    ensures Neat(GenPlain(e, cx, n).code, n, GenPlain(e, cx, n).next, {}, o)
    decreases e, 0
  {
    hide Neat;
    var o1 := o + {n, n + 1};
    var el := GenExpr(e.left, cx, n + 3);
    var er := GenExpr(e.right, cx, el.next);
    var test := [StoreFast(Temp(n + 2)), LoadFast(Temp(n + 2)), if e.And? then GotoIfNot(n) else GotoIf(n)];
    var tail := [Goto(n + 1), Mark(n), LoadFast(Temp(n + 2)), Mark(n + 1)];
    NeatExpr(e.left, cx, n + 3, o1);
    NeatExpr(e.right, cx, el.next, o1);
    NeatReload(n, er.next, o1);
    Join(er.code, tail, el.next, er.next, er.next, {}, {n, n + 1}, {n, n + 1}, o1);
    Lead(test, er.code + tail, el.next, er.next, {n, n + 1}, o1);
    Join(el.code, test + (er.code + tail), n + 3, el.next, er.next, {}, {n, n + 1}, {n, n + 1}, o1);
    assert GenPlain(e, cx, n) == Emit(el.code + (test + (er.code + tail)), er.next);
    Absorb(GenPlain(e, cx, n).code, n, n + 3, er.next, {n, n + 1}, {}, o1, o);
  }

  lemma NeatIfElse(e: Expr, cx: Ctx, n: nat, o: set<nat>)
    requires e.IfElse?
    ensures Neat(GenPlain(e, cx, n).code, n, GenPlain(e, cx, n).next, {}, o)
    decreases e, 0
  {
    hide Neat;
    var o1 := o + {n, n + 1};
    var ec := GenExpr(e.cond, cx, n + 2);
    var et := GenExpr(e.thn, cx, ec.next);
    var ef := GenExpr(e.els, cx, et.next);
    NeatExpr(e.cond, cx, n + 2, o1);
    NeatExpr(e.thn, cx, ec.next, o1);
    NeatExpr(e.els, cx, et.next, o1);
    Place(n + 1, ef.next, o1);
    Join(ef.code, [Mark(n + 1)], et.next, ef.next, ef.next, {}, {n + 1}, {n + 1}, o1);
    JumpPlace(Goto(n + 1), n, et.next, o1);
    var c3 := [Goto(n + 1), Mark(n)] + (ef.code + [Mark(n + 1)]);
    Join([Goto(n + 1), Mark(n)], ef.code + [Mark(n + 1)], et.next, et.next, ef.next, {n}, {n + 1}, {n, n + 1}, o1);
    Join(et.code, c3, ec.next, et.next, ef.next, {}, {n, n + 1}, {n, n + 1}, o1);
    Lead([GotoIfNot(n)], et.code + c3, ec.next, ef.next, {n, n + 1}, o1);
    Join(ec.code, [GotoIfNot(n)] + (et.code + c3), n + 2, ec.next, ef.next, {}, {n, n + 1}, {n, n + 1}, o1);
    Absorb(GenPlain(e, cx, n).code, n, n + 2, ef.next, {n, n + 1}, {}, o1, o);
  }

  lemma {:induction false} LoadPathInert(path: Path)
    ensures Inert(LoadPath(path))
    decreases |path|
  {
    if path != [] { LoadPathInert(path[..|path| - 1]); }
  }

  lemma LoadInert(temp: nat, path: Path)
    ensures Inert(LoadAt(temp, path))
  {
    LoadPathInert(path);
  }

  /** A pattern's tests jump only to the failure label. */
  lemma {:induction false} NeatTest(p: Pattern, temp: nat, path: Path, fail: nat, cx: Ctx, n: nat, o: set<nat>)
    requires fail in o
    ensures Neat(GenTest(p, temp, path, fail, cx, n).code, n, GenTest(p, temp, path, fail, cx, n).next, {}, o)
    decreases p
  {
    LoadInert(temp, path);
    var load := LoadAt(temp, path);
    match p
    case BindPat(_) => Unmarked([], n, o);
    case ValuePat(e) =>
      var ee := GenExpr(e, cx, n);
      NeatExpr(e, cx, n, o);
      Tail(ee.code, [MatchEq, GotoIfNot(fail)], n, ee.next, {}, o);
      Lead(load, ee.code + [MatchEq, GotoIfNot(fail)], n, ee.next, {}, o);
    case SeqPat(ps) =>
      var er := GenItemTests(ps, temp, path, 0, fail, cx, n);
      var length := [ListLen, Push(Num(ps.Count() as real)), BinaryOp(Eq), GotoIfNot(fail)];
      NeatItemTests(ps, temp, path, 0, fail, cx, n, o);
      Lead(length, er.code, n, er.next, {}, o);
      Lead(load, length + er.code, n, er.next, {}, o);
      Lead([IsList, GotoIfNot(fail)], load + (length + er.code), n, er.next, {}, o);
      Lead(load, [IsList, GotoIfNot(fail)] + (load + (length + er.code)), n, er.next, {}, o);
  }

  lemma {:induction false} NeatItemTests(ps: Patterns, temp: nat, path: Path, i: nat, fail: nat, cx: Ctx, n: nat, o: set<nat>)
    requires fail in o
    ensures Neat(GenItemTests(ps, temp, path, i, fail, cx, n).code, n, GenItemTests(ps, temp, path, i, fail, cx, n).next, {}, o)
    decreases ps
  {
    if ps.NoPat? {
      Unmarked([], n, o);
    } else {
      var e := GenTest(ps.head, temp, path + [i], fail, cx, n);
      var er := GenItemTests(ps.tail, temp, path, i + 1, fail, cx, e.next);
      NeatTest(ps.head, temp, path + [i], fail, cx, n, o);
      NeatItemTests(ps.tail, temp, path, i + 1, fail, cx, e.next, o);
      Join(e.code, er.code, n, e.next, er.next, {}, {}, {}, o);
    }
  }

  lemma {:induction false} BindInert(p: Pattern, temp: nat, path: Path)
    ensures Inert(GenBind(p, temp, path))
    decreases p
  {
    LoadInert(temp, path);
    if p.SeqPat? { ItemBindsInert(p.elems, temp, path, 0); }
  }

  lemma {:induction false} ItemBindsInert(ps: Patterns, temp: nat, path: Path, i: nat)
    ensures Inert(GenItemBinds(ps, temp, path, i))
    decreases ps
  {
    if ps.MorePat? {
      BindInert(ps.head, temp, path + [i]);
      ItemBindsInert(ps.tail, temp, path, i + 1);
    }
  }

  function BodyLabels(lbls: seq<nat>): set<nat> {
    set l | l in lbls
  }

  ghost predicate Avoids(code: Code, lbls: seq<nat>) {
    forall i {:trigger code[i]} :: 0 <= i < |code| && code[i].Mark? ==> code[i].lbl !in lbls
  }

  /** The labels of the bodies come from the range of the tests, which do not mark them. */
  ghost predicate Between(lbls: seq<nat>, n: nat, k: nat) {
    && (forall i :: 0 <= i < |lbls| ==> n <= lbls[i] < k)
    && (forall i, j :: 0 <= i < j < |lbls| ==> lbls[i] != lbls[j])
  }

  lemma OutOfRange(code: Code, n: nat, k: nat, lbls: seq<nat>, o: set<nat>)
    requires Neat(code, n, k, {}, o) && forall i :: 0 <= i < |lbls| ==> lbls[i] < n || k <= lbls[i]
    ensures Avoids(code, lbls)
  {
  }

  lemma {:induction false} NeatAltTests(alts: Patterns, temp: nat, cx: Ctx, n: nat, o: set<nat>)
    requires BodyLabels(GenAltTests(alts, temp, cx, n).1) <= o
    ensures var (e, lbls) := GenAltTests(alts, temp, cx, n);
            Neat(e.code, n, e.next, {}, o) && Between(lbls, n, e.next) && Avoids(e.code, lbls)
    decreases alts
  {
    if alts.NoPat? {
      Unmarked([], n, o);
    } else {
      var e := GenTest(alts.head, temp, [], n + 1, cx, n + 2);
      var (er, lbls) := GenAltTests(alts.tail, temp, cx, e.next);
      var o1 := o + {n + 1};
      assert BodyLabels([n] + lbls) == {n} + BodyLabels(lbls);
      NeatTest(alts.head, temp, [], n + 1, cx, n + 2, o1);
      NeatAltTests(alts.tail, temp, cx, e.next, o1);
      JoinAlts(e, er, n, lbls, o);
    }
  }

  lemma JoinAlts(e: Emit, er: Emit, n: nat, lbls: seq<nat>, o: set<nat>)
    requires n + 2 <= e.next <= er.next && n in o
    requires Neat(e.code, n + 2, e.next, {}, o + {n + 1}) && Neat(er.code, e.next, er.next, {}, o + {n + 1})
    requires Between(lbls, e.next, er.next) && Avoids(er.code, lbls)
    ensures var code := e.code + ([Goto(n), Mark(n + 1)] + er.code);
            Neat(code, n, er.next, {}, o) && Avoids(code, [n] + lbls) && Between([n] + lbls, n, er.next)
  {
    var o1 := o + {n + 1};
    var mid := [Goto(n), Mark(n + 1)];
    assert Neat(e.code + (mid + er.code), n, er.next, {}, o) by {
      JumpPlace(Goto(n), n + 1, e.next, o1);
      Join(mid, er.code, e.next, e.next, er.next, {n + 1}, {}, {n + 1}, o1);
      Join(e.code, mid + er.code, n + 2, e.next, er.next, {}, {n + 1}, {n + 1}, o1);
      Absorb(e.code + (mid + er.code), n, n + 2, er.next, {n + 1}, {}, o1, o);
    }
    OutOfRange(e.code, n + 2, e.next, [n] + lbls, o1);
    OutOfRange(er.code, e.next, er.next, [n], o1);
    assert Avoids(mid + er.code, [n] + lbls) by {
      forall i | 0 <= i < |mid + er.code| && (mid + er.code)[i].Mark? ensures (mid + er.code)[i].lbl !in [n] + lbls {
        if i >= 2 { assert (mid + er.code)[i] == er.code[i - 2]; }
      }
    }
  }
}
