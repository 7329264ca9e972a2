/** What is special about a deferred body: it never exits, so it can be compiled and
    run anywhere. */
module CleanupFacts {
  import opened Wrappers
  import opened Syntax
  import opened Semantics
  import opened Machine
  import opened Codegen
  import opened Simulation
  import opened Exits

  // ----- it compiles in any loop context -----

  lemma {:induction false} StmtAnywhere(s: Stmt, loops: seq<Label>)
    requires !HasExit(s)
    ensures Compiles(s, loops)
    decreases s
  {
    match s
    case If(arms, els) =>
      ArmsAnywhere(arms, loops);
      if els.Some? { BlockAnywhere(els.value, loops); }
    case While(lbl, _, body) => BlockAnywhere(body, loops + [lbl]);
    case Loop(lbl, _, body) => BlockAnywhere(body, loops + [lbl]);
    case For(lbl, _, _, body, els) =>
      BlockAnywhere(body, loops + [lbl]);
      if els.Some? { BlockAnywhere(els.value, loops); }
    case Try(body, catches, els) =>
      BlockAnywhere(body, loops);
      CatchesAnywhere(catches, loops);
      if els.Some? { BlockAnywhere(els.value, loops); }
    case With(_, _, body) => BlockAnywhere(body, loops);
    case Match(_, cases, els) =>
      CasesAnywhere(cases, loops);
      if els.Some? { BlockAnywhere(els.value, loops); }
    case Defer(body) => BlockAnywhere(body, loops);
    case _ =>
  }

  lemma {:induction false} BlockAnywhere(b: Block, loops: seq<Label>)
    requires !BlockExits(b)
    ensures BlockCompiles(b, loops)
    decreases b
  {
    if b.Cons? {
      StmtAnywhere(b.head, loops);
      BlockAnywhere(b.tail, loops);
    }
  }

  lemma {:induction false} ArmsAnywhere(arms: Arms, loops: seq<Label>)
    requires !ArmsExit(arms)
    ensures ArmsCompile(arms, loops)
    decreases arms
  {
    BlockAnywhere(arms.body, loops);
    if arms.Arm? { ArmsAnywhere(arms.rest, loops); }
  }

  lemma {:induction false} CatchesAnywhere(cs: Catches, loops: seq<Label>)
    requires !CatchesExit(cs)
    ensures CatchesCompile(cs, loops)
    decreases cs
  {
    if cs.Catch? {
      BlockAnywhere(cs.body, loops);
      CatchesAnywhere(cs.rest, loops);
    }
  }

  lemma {:induction false} CasesAnywhere(cs: Cases, loops: seq<Label>)
    requires !CasesExit(cs)
    ensures CasesCompile(cs, loops)
    decreases cs
  {
    if cs.Case? {
      BlockAnywhere(cs.body, loops);
      CasesAnywhere(cs.rest, loops);
    }
  }

  // ----- it ends normally, throws, or runs out of fuel -----

  predicate Stays(o: Outcome) {
    o.Normal? || o.Threw? || o.Timeout?
  }

  lemma {:induction false} StmtStays(s: Stmt, t: Setting, w: World, fuel: nat)
    requires !HasExit(s)
    ensures Stays(ExecStmt(s, t, w, fuel).0)
    decreases fuel, s, 0
  {
    match s
    case If(arms, els) =>
      ArmsStay(arms, t, w, fuel);
      ElseStays(els, t, ExecArms(arms, t, w, fuel).1, fuel);
    case While(lbl, c, body) =>
      var w1 := EvalExpr(c, t.sc, t.env, w).1;
      if fuel > 0 {
        BlockStays(body, t, w1, fuel - 1);
        StmtStays(s, t, ExecBlock(body, t, w1, fuel - 1).1, fuel - 1);
      }
    case Loop(lbl, count, body) =>
      if count.Some? {
        var (r, w1) := EvalExpr(count.value, t.sc, t.env, w);
        if r.Ret? { CountedStays(r.value, lbl, body, t, w1, fuel); }
      } else if fuel > 0 {
        BlockStays(body, t, w, fuel - 1);
        StmtStays(s, t, ExecBlock(body, t, w, fuel - 1).1, fuel - 1);
      }
    case For(lbl, binder, iterable, body, els) =>
      var (r, w1) := EvalExpr(iterable, t.sc, t.env, w);
      if r.Ret? {
        var it := t.env.iter(w1.trace, r.value);
        var w2 := w1.Log(IterMade(r.value));
        if it.Ret? {
          ForStays(it.value, lbl, binder, body, t, w2, fuel);
          ElseStays(els, t, ExecFor(it.value, lbl, binder, body, t, w2, fuel).1, fuel);
        }
      }
    case Try(body, catches, els) =>
      BlockStays(body, t, w, fuel);
      var (o, w1) := ExecBlock(body, t, w, fuel);
      if o.Normal? { ElseStays(els, t, w1, fuel); }
      else if o.Threw? && Select(catches, o.exc, t.env).Some? {
        CatchStays(catches, Select(catches, o.exc, t.env).value, o.exc, t, w1, fuel);
      }
    case With(context, alias, body) =>
      var (r, w1) := EvalExpr(context, t.sc, t.env, w);
      if r.Ret? {
        var (enter, w2) := ReadAttr(r.value, WITH_ENTER, t.env, w1);
        if enter.Ret? {
          var (entered, w3) := CallValue(enter.value, [], t.env, w2);
          if entered.Ret? {
            BlockStays(body, t, if alias.Some? then w3.Set(alias.value, entered.value) else w3, fuel);
          }
        }
      }
    case Match(subject, cases, els) =>
      var (r, w1) := EvalExpr(subject, t.sc, t.env, w);
      if r.Ret? {
        CasesStay(cases, r.value, t, w1, fuel);
        ElseStays(els, t, ExecCases(cases, r.value, t, w1, fuel).1, fuel);
      }
    case _ =>
  }

  lemma {:induction false} ElseStays(els: Option<Block>, t: Setting, w: World, fuel: nat)
    requires els.Some? ==> !BlockExits(els.value)
    ensures Stays(ExecElse(els, t, w, fuel).0)
    ensures els.Some? ==> Stays(ExecBlock(els.value, t, w, fuel).0)
    decreases fuel, els, 0
  {
    if els.Some? { BlockStays(els.value, t, w, fuel); }
  }

  lemma {:induction false} ArmsStay(arms: Arms, t: Setting, w: World, fuel: nat)
    requires !ArmsExit(arms)
    ensures var r := ExecArms(arms, t, w, fuel).0; r.Some? ==> Stays(r.value)
    decreases fuel, arms, 0
  {
    var w1 := EvalExpr(arms.cond, t.sc, t.env, w).1;
    BlockStays(arms.body, t, w1, fuel);
    if arms.Arm? { ArmsStay(arms.rest, t, w1, fuel); }
  }

  lemma {:induction false} CountedStays(count: Value, lbl: Label, body: Block, t: Setting, w: World, fuel: nat)
    requires !BlockExits(body)
    ensures Stays(ExecCounted(count, lbl, body, t, w, fuel).0)
    decreases fuel, body, 1
  {
    if count.Num? && fuel > 0 {
      BlockStays(body, t, w, fuel - 1);
      CountedStays(Num(count.r - 1.0), lbl, body, t, ExecBlock(body, t, w, fuel - 1).1, fuel - 1);
    }
  }

  lemma {:induction false} ForStays(it: Value, lbl: Label, binder: Option<Name>, body: Block, t: Setting, w: World, fuel: nat)
    requires !BlockExits(body)
    ensures var r := ExecFor(it, lbl, binder, body, t, w, fuel).0; r.Some? ==> Stays(r.value)
    decreases fuel, body, 1
  {
    var item := t.env.next(w.trace, it);
    if item.Item? && fuel > 0 {
      var w1 := w.Log(IterAdvanced(it));
      var w2 := if binder.Some? then w1.Set(binder.value, item.value) else w1;
      BlockStays(body, t, w2, fuel - 1);
      ForStays(it, lbl, binder, body, t, ExecBlock(body, t, w2, fuel - 1).1, fuel - 1);
    }
  }

  lemma {:induction false} CatchStays(cs: Catches, i: nat, exc: Value, t: Setting, w: World, fuel: nat)
    requires !CatchesExit(cs)
    ensures Stays(ExecCatch(cs, i, exc, t, w, fuel).0)
    decreases fuel, cs, 0
  {
    if cs.Catch? {
      if i == 0 { BlockStays(cs.body, t, BindCaught(cs.pattern, exc, w), fuel); }
      else { CatchStays(cs.rest, i - 1, exc, t, w, fuel); }
    }
  }

  lemma {:induction false} CasesStay(cs: Cases, v: Value, t: Setting, w: World, fuel: nat)
    requires !CasesExit(cs)
    ensures var r := ExecCases(cs, v, t, w, fuel).0; r.Some? ==> Stays(r.value)
    decreases fuel, cs, 0
  {
    if cs.Case? {
      var (m, w1) := MatchCase(cs.pattern, v, t, w);
      if m.Taken? { BlockStays(cs.body, t, BindPattern(m.alt, v, w1), fuel); }
      else if m.Missed? { CasesStay(cs.rest, v, t, w1, fuel); }
    }
  }

  lemma {:induction false} BlockStays(b: Block, t: Setting, w: World, fuel: nat)
    requires !BlockExits(b)
    ensures Stays(ExecBlock(b, t, w, fuel).0)
    decreases fuel, b, 0
  {
    if b.Cons? {
      if b.head.Defer? {
        assert !BlockExits(b.head.body) by { assert !HasExit(b.head); }
        BlockStays(b.tail, t, w, fuel);
        BlockStays(b.head.body, t, ExecBlock(b.tail, t, w, fuel).1, fuel);
      } else {
        StmtStays(b.head, t, w, fuel);
        if !b.tail.Nil? { BlockStays(b.tail, t, ExecStmt(b.head, t, w, fuel).1, fuel); }
      }
    }
  }

  // ----- small facts about blocks and labels -----

  /** A block that cannot yield a value has the value none. */
  lemma {:induction false} NoYieldUnit(b: Block, t: Setting, w: World, fuel: nat)
    requires !BlockYields(b)
    ensures var o := ExecBlock(b, t, w, fuel).0; o.Normal? ==> o.v == Unit
    decreases b
  {
    if b.Cons? && !b.tail.Nil? {
      if b.head.Defer? { NoYieldUnit(b.tail, t, w, fuel); }
      else { NoYieldUnit(b.tail, t, ExecStmt(b.head, t, w, fuel).1, fuel); }
    }
  }

  lemma NamesEnter(loops: seq<LoopInfo>, l: LoopInfo)
    ensures Names(loops + [l]) == Names(loops) + [l.lbl]
  {
  }

  lemma {:induction false} Resolve(loops: seq<LoopInfo>, lbl: Label)
    requires exists i :: 0 <= i < |loops| && Hits(lbl, Names(loops)[i])
    ensures LoopIndex(loops, lbl).Some?
    decreases |loops|
  {
    var i :| 0 <= i < |loops| && Hits(lbl, Names(loops)[i]);
    if !Hits(lbl, loops[|loops| - 1].lbl) {
      var front := loops[..|loops| - 1];
      assert Names(front)[i] == Names(loops)[i];
      Resolve(front, lbl);
    }
  }
}
