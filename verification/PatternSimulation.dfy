/** The code of patterns: tests that go on or jump to the failure label, and the loads
    that bind names once a pattern has matched. */
module PatternSimulation {
  import opened Wrappers
  import opened Syntax
  import opened Semantics
  import opened Machine
  import opened Codegen
  import opened Simulation
  import opened ExprSimulation

  /** The part of `v` at a path of indices. */
  function PartAt(v: Value, path: Path): Option<Value>
    decreases |path|
  {
    if path == [] then Some(v) else
    var outer := PartAt(v, path[..|path| - 1]);
    var i := path[|path| - 1];
    if outer.Some? && outer.value.Seq? && i < |outer.value.items| then Some(outer.value.items[i]) else None
  }

  lemma PartOfPart(v: Value, path: Path, i: nat)
    requires PartAt(v, path).Some? && PartAt(v, path).value.Seq? && i < |PartAt(v, path).value.items|
    ensures PartAt(v, path + [i]) == Some(PartAt(v, path).value.items[i])
  {
    assert (path + [i])[..|path|] == path;
  }

  ghost predicate Keeps(m: State, temp: nat, root: Value) {
    temp in m.temps && m.temps[temp] == root
  }

  /** One step down: push an index, take the element. */
  lemma IndexOnce(p: Program, pc: nat, m: State, a: Value, i: nat)
    requires Here(p, pc, [Push(Num(i as real)), Index]) && a.Seq? && i < |a.items|
    ensures Reaches(p, At(pc, m.PushV(a)), 2, At(pc + 2, m.PushV(a.items[i])))
  {
    Fetch(p, pc, [Push(Num(i as real)), Index]);
    var m1 := m.PushV(a);
    var m2 := m1.PushV(Num(i as real));
    One(p, At(pc, m1));
    assert m2.Drop() == m1 && m1.Drop() == m;
    assert (i as real).Floor == i;
    Then(p, At(pc, m1), 1, At(pc + 1, m2));
  }

  lemma {:induction false} RunLoadPath(p: Program, path: Path, pc: nat, m: State, root: Value) returns (steps: nat)
    requires Here(p, pc, LoadPath(path)) && PartAt(root, path).Some?
    ensures Reaches(p, At(pc, m.PushV(root)), steps, At(pc + |LoadPath(path)|, m.PushV(PartAt(root, path).value)))
    decreases |path|
  {
    if path == [] {
      Stay(p, At(pc, m.PushV(root)));
      steps := 0;
    } else {
      var front, i := path[..|path| - 1], path[|path| - 1];
      var last := [Push(Num(i as real)), Index];
      Split(p, pc, LoadPath(front), last);
      steps := RunLoadPath(p, front, pc, m, root);
      var a := PartAt(root, front).value;
      var pc1 := pc + |LoadPath(front)|;
      IndexOnce(p, pc1, m, a, i);
      Chain(p, At(pc, m.PushV(root)), steps, At(pc1, m.PushV(a)), 2, At(pc1 + 2, m.PushV(a.items[i])));
      steps := steps + 2;
    }
  }

  lemma RunLoad(p: Program, temp: nat, path: Path, pc: nat, m: State, root: Value) returns (steps: nat)
    requires Here(p, pc, LoadAt(temp, path)) && Keeps(m, temp, root) && PartAt(root, path).Some?
    ensures Reaches(p, At(pc, m), steps, At(pc + |LoadAt(temp, path)|, m.PushV(PartAt(root, path).value)))
  {
    var load := [LoadFast(Temp(temp))];
    Split(p, pc, load, LoadPath(path));
    Fetch(p, pc, load);
    One(p, At(pc, m));
    steps := RunLoadPath(p, path, pc + 1, m, root);
    Chain(p, At(pc, m), 1, At(pc + 1, m.PushV(root)), steps, At(pc + |LoadAt(temp, path)|, m.PushV(PartAt(root, path).value)));
    steps := 1 + steps;
  }

  /** The same after `a` steps. */
  lemma LoadNext(p: Program, c: Config, a: nat, temp: nat, path: Path, pc: nat, m: State, root: Value) returns (steps: nat)
    requires Reaches(p, c, a, At(pc, m))
    requires Here(p, pc, LoadAt(temp, path)) && Keeps(m, temp, root) && PartAt(root, path).Some?
    ensures Reaches(p, c, steps, At(pc + |LoadAt(temp, path)|, m.PushV(PartAt(root, path).value)))
  {
    steps := RunLoad(p, temp, path, pc, m, root);
    Chain(p, c, a, At(pc, m), steps, At(pc + |LoadAt(temp, path)|, m.PushV(PartAt(root, path).value)));
    steps := a + steps;
  }

  // ----- tests -----

  /** A test passed on to `end`, jumped to `miss`, or raised an error. */
  ghost predicate Decides(p: Program, pc: nat, m: State, end: nat, miss: nat, n: nat, r: (Matched, World), steps: nat, m': State) {
    && Undisturbed(m, m', n) && m'.w == r.1
    && (match r.0
        case MatchFails(e) => Fails(p, pc, m, e, steps, m')
        case _ => Reaches(p, At(pc, m), steps, At(if r.0.Yes? then end else miss, m'))
                  && m'.exc == None && m'.stack == m.stack && m'.iters == m.iters)
  }

  /** Branch on a pushed truth value. */
  lemma Judge(p: Program, c: Config, a: nat, pc: nat, m: State, b: bool, fail: nat)
    requires Reaches(p, c, a, At(pc, m.PushV(Bool(b)))) && Here(p, pc, [GotoIfNot(fail)])
    ensures Reaches(p, c, a + 1, At(if b then pc + 1 else Target(p, fail), m))
  {
    Fetch(p, pc, [GotoIfNot(fail)]);
    assert m.PushV(Bool(b)).Drop() == m;
    Then(p, c, a, At(pc, m.PushV(Bool(b))));
  }

  lemma {:induction false} SimPattern(p: Program, q: Pattern, temp: nat, path: Path, fail: nat, cx: Ctx, n: nat, pc: nat, m: State, root: Value)
    returns (steps: nat, m': State)
    requires Ready(p, cx) && m.exc == None && temp < n && Keeps(m, temp, root) && PartAt(root, path).Some?
    requires Here(p, pc, GenTest(q, temp, path, fail, cx, n).code)
    ensures Decides(p, pc, m, pc + |GenTest(q, temp, path, fail, cx, n).code|, Target(p, fail), n,
                    MatchPattern(q, PartAt(root, path).value, cx.sc, cx.env, m.w), steps, m')
    decreases q, 1
  {
    match q
    case BindPat(_) =>
      Stay(p, At(pc, m));
      steps, m' := 0, m;
    case ValuePat(e) =>
      steps, m' := SimValuePattern(p, e, temp, path, fail, cx, n, pc, m, root);
    case SeqPat(ps) =>
      steps, m' := SimSeqPattern(p, ps, temp, path, fail, cx, n, pc, m, root);
  }

  lemma SimValuePattern(p: Program, e: Expr, temp: nat, path: Path, fail: nat, cx: Ctx, n: nat, pc: nat, m: State, root: Value)
    returns (steps: nat, m': State)
    requires Ready(p, cx) && m.exc == None && temp < n && Keeps(m, temp, root) && PartAt(root, path).Some?
    requires Here(p, pc, GenTest(ValuePat(e), temp, path, fail, cx, n).code)
    ensures Decides(p, pc, m, pc + |GenTest(ValuePat(e), temp, path, fail, cx, n).code|, Target(p, fail), n,
                    MatchPattern(ValuePat(e), PartAt(root, path).value, cx.sc, cx.env, m.w), steps, m')
  {
    var v := PartAt(root, path).value;
    var load, ee, tail := LoadAt(temp, path), GenExpr(e, cx, n), [MatchEq, GotoIfNot(fail)];
    Split(p, pc, load, ee.code + tail);
    Split(p, pc + |load|, ee.code, tail);
    var a := RunLoad(p, temp, path, pc, m, root);
    steps, m' := SimExpr(p, e, cx, n, pc + |load|, m.PushV(v));
    var r := EvalExpr(e, cx.sc, cx.env, m.w).0;
    if r.Fail? {
      Chain(p, At(pc, m), a, At(pc + |load|, m.PushV(v)), steps, Dispatch(p, m'));
      steps := a + steps;
    } else {
      Chain(p, At(pc, m), a, At(pc + |load|, m.PushV(v)), steps, At(pc + |load| + |ee.code|, m'));
      m' := DoMatchEq(p, At(pc, m), m, a + steps, pc + |load| + |ee.code|, m', v, r.value, fail);
      steps := a + steps + 2;
    }
  }

  lemma DoMatchEq(p: Program, c: Config, m: State, a: nat, pc: nat, m1: State, x: Value, y: Value, fail: nat) returns (m': State)
    requires Reaches(p, c, a, At(pc, m1)) && Here(p, pc, [MatchEq, GotoIfNot(fail)])
    requires m1.stack == m.stack + [x] + [y]
    ensures m' == m1.(stack := m.stack)
    ensures Reaches(p, c, a + 2, At(if p.env.matchEq(x, y) then pc + 2 else Target(p, fail), m'))
  {
    Fetch(p, pc, [MatchEq, GotoIfNot(fail)]);
    Nth(p, pc, [MatchEq, GotoIfNot(fail)], 1);
    m' := m1.(stack := m.stack);
    assert m1.Drop() == m'.PushV(x) && m'.PushV(x).Drop() == m';
    Then(p, c, a, At(pc, m1));
    Judge(p, c, a + 1, pc + 1, m', p.env.matchEq(x, y), fail);
  }

  function ListTest(fail: nat): Code { [IsList, GotoIfNot(fail)] }

  function LengthTest(count: nat, fail: nat): Code { [ListLen, Push(Num(count as real)), BinaryOp(Eq), GotoIfNot(fail)] }

  lemma LaySeqPattern(p: Program, ps: Patterns, temp: nat, path: Path, fail: nat, cx: Ctx, n: nat, pc: nat)
    requires Here(p, pc, GenTest(SeqPat(ps), temp, path, fail, cx, n).code)
    ensures var len := |LoadAt(temp, path)|;
            var er := GenItemTests(ps, temp, path, 0, fail, cx, n);
            && Here(p, pc, LoadAt(temp, path)) && Here(p, pc + len, ListTest(fail))
            && Here(p, pc + len + 2, LoadAt(temp, path)) && Here(p, pc + 2 * len + 2, LengthTest(ps.Count(), fail))
            && Here(p, pc + 2 * len + 6, er.code) && |GenTest(SeqPat(ps), temp, path, fail, cx, n).code| == 2 * len + 6 + |er.code|
  {
    var load := LoadAt(temp, path);
    var er := GenItemTests(ps, temp, path, 0, fail, cx, n);
    Parts4(p, pc, load, ListTest(fail), load, LengthTest(ps.Count(), fail) + er.code);
    Split(p, pc + 2 * |load| + 2, LengthTest(ps.Count(), fail), er.code);
  }

  lemma SimSeqPattern(p: Program, ps: Patterns, temp: nat, path: Path, fail: nat, cx: Ctx, n: nat, pc: nat, m: State, root: Value)
    returns (steps: nat, m': State)
    requires Ready(p, cx) && m.exc == None && temp < n && Keeps(m, temp, root) && PartAt(root, path).Some?
    requires Here(p, pc, GenTest(SeqPat(ps), temp, path, fail, cx, n).code)
    ensures Decides(p, pc, m, pc + |GenTest(SeqPat(ps), temp, path, fail, cx, n).code|, Target(p, fail), n,
                    MatchPattern(SeqPat(ps), PartAt(root, path).value, cx.sc, cx.env, m.w), steps, m')
    decreases SeqPat(ps), 0
  {
    LaySeqPattern(p, ps, temp, path, fail, cx, n, pc);
    var len := |LoadAt(temp, path)|;
    var v := PartAt(root, path).value;
    m' := m;
    steps := RunLoad(p, temp, path, pc, m, root);
    steps := TestList(p, At(pc, m), steps, pc + len, m, v, fail);
    if v.Seq? {
      steps := LoadNext(p, At(pc, m), steps, temp, path, pc + len + 2, m, root);
      steps := TestLength(p, At(pc, m), steps, pc + 2 * len + 2, m, v, ps.Count(), fail);
      if |v.items| == ps.Count() {
        steps, m' := SeqItems(p, ps, temp, path, fail, cx, n, pc, m, root, steps, pc + 2 * len + 6);
      }
    }
  }

  lemma TestList(p: Program, c: Config, a: nat, pc: nat, m: State, v: Value, fail: nat) returns (steps: nat)
    requires Reaches(p, c, a, At(pc, m.PushV(v))) && Here(p, pc, ListTest(fail))
    ensures Reaches(p, c, steps, At(if v.Seq? then pc + 2 else Target(p, fail), m))
  {
    Fetch(p, pc, ListTest(fail));
    Nth(p, pc, ListTest(fail), 1);
    assert m.PushV(v).Drop() == m;
    Then(p, c, a, At(pc, m.PushV(v)));
    Judge(p, c, a + 1, pc + 1, m, v.Seq?, fail);
    steps := a + 2;
  }

  lemma TestLength(p: Program, c: Config, a: nat, pc: nat, m: State, v: Value, count: nat, fail: nat) returns (steps: nat)
    requires Reaches(p, c, a, At(pc, m.PushV(v))) && Here(p, pc, LengthTest(count, fail)) && v.Seq?
    ensures Reaches(p, c, steps, At(if |v.items| == count then pc + 4 else Target(p, fail), m))
  {
    var test := LengthTest(count, fail);
    Fetch(p, pc, test);
    Nth(p, pc, test, 3);
    var x, y := Num(|v.items| as real), Num(count as real);
    assert m.PushV(v).Drop() == m;
    Then(p, c, a, At(pc, m.PushV(v)));
    Then(p, c, a + 1, At(pc + 1, m.PushV(x)));
    var m2 := m.PushV(x).PushV(y);
    assert m2.Drop() == m.PushV(x) && m.PushV(x).Drop() == m;
    Then(p, c, a + 2, At(pc + 2, m2));
    Judge(p, c, a + 3, pc + 3, m, |v.items| == count, fail);
    steps := a + 4;
  }

  lemma SeqItems(p: Program, ps: Patterns, temp: nat, path: Path, fail: nat, cx: Ctx, n: nat, pc: nat, m: State, root: Value, a: nat, pc1: nat)
    returns (steps: nat, m': State)
    requires Ready(p, cx) && m.exc == None && temp < n && Keeps(m, temp, root) && PartAt(root, path).Some?
    requires PartAt(root, path).value.Seq? && |PartAt(root, path).value.items| == ps.Count()
    requires Reaches(p, At(pc, m), a, At(pc1, m)) && Here(p, pc1, GenItemTests(ps, temp, path, 0, fail, cx, n).code)
    ensures Decides(p, pc, m, pc1 + |GenItemTests(ps, temp, path, 0, fail, cx, n).code|, Target(p, fail), n,
                    MatchItems(ps, PartAt(root, path).value.items, 0, cx.sc, cx.env, m.w), steps, m')
    decreases ps, 1
  {
    steps, m' := SimItems(p, ps, temp, path, 0, fail, cx, n, pc1, m, root);
    var r := MatchItems(ps, PartAt(root, path).value.items, 0, cx.sc, cx.env, m.w).0;
    Chain(p, At(pc, m), a, At(pc1, m), steps,
          if r.MatchFails? then Dispatch(p, m')
          else At(if r.Yes? then pc1 + |GenItemTests(ps, temp, path, 0, fail, cx, n).code| else Target(p, fail), m'));
    steps := a + steps;
  }

  lemma {:induction false} SimItems(p: Program, ps: Patterns, temp: nat, path: Path, i: nat, fail: nat, cx: Ctx, n: nat, pc: nat, m: State, root: Value)
    returns (steps: nat, m': State)
    requires Ready(p, cx) && m.exc == None && temp < n && Keeps(m, temp, root) && PartAt(root, path).Some?
    requires PartAt(root, path).value.Seq? && |PartAt(root, path).value.items| == i + ps.Count()
    requires Here(p, pc, GenItemTests(ps, temp, path, i, fail, cx, n).code)
    ensures Decides(p, pc, m, pc + |GenItemTests(ps, temp, path, i, fail, cx, n).code|, Target(p, fail), n,
                    MatchItems(ps, PartAt(root, path).value.items, i, cx.sc, cx.env, m.w), steps, m')
    decreases ps, 0
  {
    hide GenTest, Dispatch;
    match ps
    case NoPat =>
      Stay(p, At(pc, m));
      steps, m' := 0, m;
    case MorePat(q, rest) =>
      var e := GenTest(q, temp, path + [i], fail, cx, n);
      var er := GenItemTests(rest, temp, path, i + 1, fail, cx, e.next);
      Split(p, pc, e.code, er.code);
      PartOfPart(root, path, i);
      steps, m' := SimPattern(p, q, temp, path + [i], fail, cx, n, pc, m, root);
      var items := PartAt(root, path).value.items;
      var (r1, w1) := MatchPattern(q, items[i], cx.sc, cx.env, m.w);
      if r1.Yes? {
        var s1, m1, pc1 := steps, m', pc + |e.code|;
        steps, m' := SimItems(p, rest, temp, path, i + 1, fail, cx, e.next, pc1, m1, root);
        var r := MatchItems(rest, items, i + 1, cx.sc, cx.env, w1).0;
        Chain(p, At(pc, m), s1, At(pc1, m1), steps,
              if r.MatchFails? then Dispatch(p, m') else At(if r.Yes? then pc1 + |er.code| else Target(p, fail), m'));
        steps := s1 + steps;
      }
  }

  // ----- bindings -----

  lemma {:induction false} MatchedFits(q: Pattern, v: Value, sc: Scope, env: Env, w: World)
    requires MatchPattern(q, v, sc, env, w).0.Yes?
    ensures Fits(q, v)
    decreases q
  {
    if q.SeqPat? { MatchedItemsFit(q.elems, v.items, 0, sc, env, w); }
  }

  lemma {:induction false} MatchedItemsFit(ps: Patterns, items: seq<Value>, i: nat, sc: Scope, env: Env, w: World)
    requires |items| == i + ps.Count() && MatchItems(ps, items, i, sc, env, w).0.Yes?
    ensures ItemsFit(ps, items, i)
    decreases ps
  {
    if ps.MorePat? {
      MatchedFits(ps.head, items[i], sc, env, w);
      MatchedItemsFit(ps.tail, items, i + 1, sc, env, MatchPattern(ps.head, items[i], sc, env, w).1);
    }
  }

  lemma {:induction false} RunBind(p: Program, q: Pattern, temp: nat, path: Path, pc: nat, m: State, root: Value) returns (steps: nat, m': State)
    requires Here(p, pc, GenBind(q, temp, path)) && Keeps(m, temp, root) && PartAt(root, path).Some? && Fits(q, PartAt(root, path).value)
    ensures m' == m.(w := BindPattern(q, PartAt(root, path).value, m.w))
    ensures Reaches(p, At(pc, m), steps, At(pc + |GenBind(q, temp, path)|, m'))
    decreases q
  {
    match q
    case BindPat(x) =>
      var v, load := PartAt(root, path).value, LoadAt(temp, path);
      Split(p, pc, load, [BindFast(x)]);
      steps := RunLoad(p, temp, path, pc, m, root);
      Fetch(p, pc + |load|, [BindFast(x)]);
      assert m.PushV(v).Drop() == m;
      Then(p, At(pc, m), steps, At(pc + |load|, m.PushV(v)));
      steps, m' := steps + 1, m.(w := m.w.Set(x, v));
    case ValuePat(_) =>
      Stay(p, At(pc, m));
      steps, m' := 0, m;
    case SeqPat(ps) =>
      steps, m' := RunItemBinds(p, ps, temp, path, 0, pc, m, root);
  }

  lemma {:induction false} RunItemBinds(p: Program, ps: Patterns, temp: nat, path: Path, i: nat, pc: nat, m: State, root: Value)
    returns (steps: nat, m': State)
    requires Here(p, pc, GenItemBinds(ps, temp, path, i)) && Keeps(m, temp, root) && PartAt(root, path).Some?
    requires PartAt(root, path).value.Seq? && |PartAt(root, path).value.items| == i + ps.Count()
    requires ItemsFit(ps, PartAt(root, path).value.items, i)
    ensures m' == m.(w := BindItems(ps, PartAt(root, path).value.items, i, m.w))
    ensures Reaches(p, At(pc, m), steps, At(pc + |GenItemBinds(ps, temp, path, i)|, m'))
    decreases ps
  {
    match ps
    case NoPat =>
      Stay(p, At(pc, m));
      steps, m' := 0, m;
    case MorePat(q, rest) =>
      var head := GenBind(q, temp, path + [i]);
      Split(p, pc, head, GenItemBinds(rest, temp, path, i + 1));
      PartOfPart(root, path, i);
      var s1, m1 := RunBind(p, q, temp, path + [i], pc, m, root);
      steps, m' := RunItemBinds(p, rest, temp, path, i + 1, pc + |head|, m1, root);
      Chain(p, At(pc, m), s1, At(pc + |head|, m1), steps, At(pc + |GenItemBinds(ps, temp, path, i)|, m'));
      steps := s1 + steps;
  }

  // ----- alternatives -----

  function AltAt(alts: Patterns, j: nat): Pattern
    requires j < alts.Count()
  {
    if j == 0 then alts.head else AltAt(alts.tail, j - 1)
  }

  /** The alternatives were tried in order: alternative `j` took it, none did, or a test failed. */
  ghost predicate Picks(p: Program, pc: nat, m: State, end: nat, alts: Patterns, lbls: seq<nat>, v: Value, n: nat, r: (CaseMatch, World),
                        steps: nat, m': State, j: nat)
    requires |lbls| == alts.Count()
  {
    && Undisturbed(m, m', n) && m'.w == r.1
    && (match r.0
        case CaseFails(e) => Fails(p, pc, m, e, steps, m')
        case Missed => Reaches(p, At(pc, m), steps, At(end, m')) && m'.exc == None && m'.stack == m.stack && m'.iters == m.iters
        case Taken(q) =>
          && j < alts.Count() && AltAt(alts, j) == q && Fits(q, v)
          && Reaches(p, At(pc, m), steps, At(Target(p, lbls[j]), m')) && m'.exc == None && m'.stack == m.stack && m'.iters == m.iters)
  }

  lemma LayAlts(p: Program, alts: Patterns, temp: nat, cx: Ctx, n: nat, pc: nat)
    requires alts.MorePat? && Here(p, pc, GenAltTests(alts, temp, cx, n).0.code)
    ensures var e := GenTest(alts.head, temp, [], n + 1, cx, n + 2);
            var er := GenAltTests(alts.tail, temp, cx, e.next).0;
            && Here(p, pc, e.code) && Here(p, pc + |e.code|, [Goto(n), Mark(n + 1)])
            && Here(p, pc + |e.code| + 2, er.code) && |GenAltTests(alts, temp, cx, n).0.code| == |e.code| + 2 + |er.code|
  {
    var e := GenTest(alts.head, temp, [], n + 1, cx, n + 2);
    var er := GenAltTests(alts.tail, temp, cx, e.next).0;
    var mid := [Goto(n), Mark(n + 1)];
    Split(p, pc, e.code, mid + er.code);
    Split(p, pc + |e.code|, mid, er.code);
  }

  /** After a test of one alternative: to its body if it passed, on to the next if not. */
  lemma AfterAlt(p: Program, c: Config, a: nat, pc: nat, m: State, n: nat, passed: bool) returns (steps: nat)
    requires Linked(p) && Here(p, pc, [Goto(n), Mark(n + 1)])
    requires Reaches(p, c, a, At(if passed then pc else Target(p, n + 1), m))
    ensures Reaches(p, c, steps, At(if passed then Target(p, n) else pc + 2, m))
  {
    Fetch(p, pc, [Goto(n), Mark(n + 1)]);
    Marked(p, pc, [Goto(n), Mark(n + 1)], 1);
    Then(p, c, a, At(if passed then pc else pc + 1, m));
    steps := a + 1;
  }

  lemma {:induction false} SimAlts(p: Program, alts: Patterns, temp: nat, cx: Ctx, n: nat, pc: nat, m: State, root: Value, t: Setting)
    returns (steps: nat, m': State, j: nat)
    requires Ready(p, cx) && m.exc == None && temp < n && Keeps(m, temp, root) && t.sc == cx.sc && t.env == cx.env
    requires Here(p, pc, GenAltTests(alts, temp, cx, n).0.code)
    ensures var (et, lbls) := GenAltTests(alts, temp, cx, n);
            Picks(p, pc, m, pc + |et.code|, alts, lbls, root, n, MatchAlts(alts, root, t, m.w), steps, m', j)
    decreases alts, 2
  {
    hide GenExpr, Reaches, GenPlain, Keeps, Run, Here, Ready, EvalExprs, GenTest;
    if alts.NoPat? {
      Stay(p, At(pc, m));
      steps, m', j := 0, m, 0;
    } else {
      LayAlts(p, alts, temp, cx, n, pc);
      var e := GenTest(alts.head, temp, [], n + 1, cx, n + 2);
      steps, m' := SimPattern(p, alts.head, temp, [], n + 1, cx, n + 2, pc, m, root);
      steps, m', j := FirstAlt(p, alts, temp, cx, n, e.next, pc, m, root, t, steps, pc + |e.code|, m',
                               MatchPattern(alts.head, root, cx.sc, cx.env, m.w));
    }
  }

  /** The first alternative has been tested. */
  lemma FirstAlt(p: Program, alts: Patterns, temp: nat, cx: Ctx, n: nat, n1: nat, pc: nat, m: State, root: Value, t: Setting,
                 a: nat, pc1: nat, m1: State, r: (Matched, World)) returns (steps: nat, m': State, j: nat)
    requires Ready(p, cx) && alts.MorePat? && temp < n < n1 && Keeps(m, temp, root) && t.sc == cx.sc && t.env == cx.env
    requires r == MatchPattern(alts.head, root, cx.sc, cx.env, m.w)
    requires Decides(p, pc, m, pc1, Target(p, n + 1), n + 2, r, a, m1)
    requires Here(p, pc1, [Goto(n), Mark(n + 1)]) && Here(p, pc1 + 2, GenAltTests(alts.tail, temp, cx, n1).0.code)
    ensures var (et, lbls) := GenAltTests(alts.tail, temp, cx, n1);
            var r' := if r.0.No? then MatchAlts(alts.tail, root, t, r.1) else (OfMatched(r.0, alts.head), r.1);
            Picks(p, pc, m, pc1 + 2 + |et.code|, alts, [n] + lbls, root, n, r', steps, m', j)
    decreases alts, 1
  {
    steps, m', j := a, m1, 0;
    if !r.0.MatchFails? {
      steps := AfterAlt(p, At(pc, m), a, pc1, m1, n, r.0.Yes?);
      if r.0.Yes? {
        MatchedFits(alts.head, root, cx.sc, cx.env, m.w);
      } else {
        steps, m', j := MoreAlts(p, alts, temp, cx, n, n1, pc, m, root, t, steps, pc1 + 2, m1);
      }
    }
  }

  lemma MoreAlts(p: Program, alts: Patterns, temp: nat, cx: Ctx, n: nat, n1: nat, pc: nat, m: State, root: Value, t: Setting,
                 a: nat, pc1: nat, m1: State) returns (steps: nat, m': State, j: nat)
    requires Ready(p, cx) && alts.MorePat? && m1.exc == None && temp < n < n1 && Keeps(m1, temp, root) && t.sc == cx.sc && t.env == cx.env
    requires Reaches(p, At(pc, m), a, At(pc1, m1)) && Undisturbed(m, m1, n) && m1.stack == m.stack && m1.iters == m.iters
    requires Here(p, pc1, GenAltTests(alts.tail, temp, cx, n1).0.code)
    ensures var (et, lbls) := GenAltTests(alts.tail, temp, cx, n1);
            Picks(p, pc, m, pc1 + |et.code|, alts, [n] + lbls, root, n, MatchAlts(alts.tail, root, t, m1.w), steps, m', j)
    decreases alts, 0
  {
    var (et, lbls) := GenAltTests(alts.tail, temp, cx, n1);
    steps, m', j := SimAlts(p, alts.tail, temp, cx, n1, pc1, m1, root, t);
    var r := MatchAlts(alts.tail, root, t, m1.w).0;
    Chain(p, At(pc, m), a, At(pc1, m1), steps,
          if r.CaseFails? then Dispatch(p, m') else At(if r.Missed? then pc1 + |et.code| else Target(p, lbls[j]), m'));
    steps, j := a + steps, j + 1;
  }
}
