/** Ways a statement can end on the machine, and how a `break`, `continue` or `return`
    travels out of the loops and handler regions around it. */
module Exits {
  import opened Wrappers
  import opened Syntax
  import opened Semantics
  import opened Machine
  import opened Codegen
  import opened Simulation

  // ----- contexts -----

  function Names(loops: seq<LoopInfo>): (r: seq<Label>)
    ensures |r| == |loops|
  {
    seq(|loops|, i requires 0 <= i < |loops| => loops[i].lbl)
  }

  /** A loop started inside the handlers that were open then. */
  ghost predicate DepthsOk(cx: Ctx) {
    forall i :: 0 <= i < |cx.loops| ==> cx.loops[i].depth <= |cx.handlers|
  }

  ghost predicate Sound(p: Program, cx: Ctx) {
    Ready(p, cx) && DepthsOk(cx)
  }

  /** The place where exit code was emitted, relative to a construct around it. */
  ghost predicate SiteOk(site: Ctx, cx: Ctx) {
    site.sc == cx.sc && site.env == cx.env && DepthsOk(site)
  }

  // ----- ends of statements -----

  /** The witness of a simulation: how many steps, the machine afterwards and where it is;
      for an exit also where its code was emitted and the loops crossed so far. */
  datatype Wit = Wit(steps: nat, m: State, pc: nat, site: Ctx, ne: nat, pend: seq<LoopKind>)

  predicate IsExit(o: Outcome) {
    o.Broke? || o.Continued? || o.Returned? || o.ReturnedVar?
  }

  function ExitCode(o: Outcome, cx: Ctx, site: Ctx, ne: nat, pend: seq<LoopKind>): Code {
    var ec := GenCleanups(cx.handlers[ExitDepth(o, cx)..], site, ne);
    ec.code + GenLeave(o, cx.loops, pend, ec.next).code
  }

  /** What the crossed loops keep on the stacks, and on top of it a returned value. */
  ghost predicate Loaded(m: State, o: Outcome, m': State, pend: seq<LoopKind>) {
    && m.iters <= m'.iters && |m'.iters| == |m.iters| + Iterators(pend)
    && m.stack <= m'.stack
    && |m'.stack| == |m.stack| + Counters(pend) + (if o.Returned? then 1 else 0)
    && (o.Returned? ==> m'.Top() == o.v && o.fors == Iterators(pend))
    && (o.ReturnedVar? ==> o.fors == Iterators(pend))
  }

  /** A `break` or `continue` names one of the loops of `cx`. */
  predicate Resolved(o: Outcome, cx: Ctx) {
    (o.Broke? || o.Continued?) ==> LoopIndex(cx.loops, o.lbl).Some?
  }

  /** On the way out: the cleanups of the handlers opened inside are done, those of `cx`
      come next. */
  ghost predicate Leaving(p: Program, m: State, cx: Ctx, n: nat, o: Outcome, t: Wit) {
    && n <= t.ne && SiteOk(t.site, cx) && Resolved(o, cx)
    && Here(p, t.pc, ExitCode(o, cx, t.site, t.ne, t.pend))
    && Loaded(m, o, t.m, t.pend)
  }

  ghost predicate Ends(p: Program, c: Config, m: State, end: nat, keep: bool, cx: Ctx, n: nat, fuel: nat, r: Result, t: Wit) {
    if r.0.Timeout? then t.steps >= fuel && Reaches(p, c, t.steps, At(t.pc, t.m))
    else if r.0.Threw? then
      Undisturbed(m, t.m, n) && t.m.w == r.1 && Thrown(p, c, m, r.0.exc, t.steps, t.m)
    else
      && Undisturbed(m, t.m, n) && t.m.w == r.1 && t.m.exc == None
      && Reaches(p, c, t.steps, At(t.pc, t.m))
      && (if r.0.Normal? then
            t.pc == end && t.m.stack == m.stack + (if keep then [r.0.v] else []) && t.m.iters == m.iters
          else Leaving(p, m, cx, n, r.0, t))
  }

  ghost predicate Thrown(p: Program, c: Config, m: State, e: Value, steps: nat, m': State) {
    && Reaches(p, c, steps, Dispatch(p, m'))
    && m'.exc == Some(e) && m.stack <= m'.stack && m.iters <= m'.iters
  }

  function Plainly(steps: nat, pc: nat, m: State, cx: Ctx): Wit {
    Wit(steps, m, pc, cx, 0, [])
  }

  /** Some steps before, and some moves after, a stretch. */
  lemma Settle(p: Program, c: Config, m: State, a: nat, c1: Config, m1: State, end1: nat, b: nat, end: nat, keep: bool,
               cx: Ctx, n: nat, n1: nat, fuel: nat, fuel1: nat, r: Result, t: Wit) returns (t': Wit)
    requires Reaches(p, c, a, c1) && Undisturbed(m, m1, n) && n <= n1
    requires m1.stack == m.stack && m1.iters == m.iters
    requires Ends(p, c1, m1, end1, keep, cx, n1, fuel1, r, t) && fuel <= fuel1 + a
    requires r.0.Normal? ==> Moves(p, end1, b, end)
    ensures Ends(p, c, m, end, keep, cx, n, fuel, r, t')
  {
    if r.0.Threw? {
      Chain(p, c, a, c1, t.steps, Dispatch(p, t.m));
      t' := t.(steps := a + t.steps);
    } else {
      Chain(p, c, a, c1, t.steps, At(t.pc, t.m));
      t' := t.(steps := a + t.steps);
      if r.0.Normal? {
        Move(p, c, a + t.steps, end1, t.m, b, end);
        t' := t.(steps := a + t.steps + b, pc := end);
      }
    }
  }

  /** Steps before a stretch that is already measured from `m`. */
  lemma Before(p: Program, c: Config, m: State, a: nat, c1: Config, end: nat, keep: bool, cx: Ctx, n: nat,
               fuel: nat, fuel1: nat, r: Result, t: Wit) returns (t': Wit)
    requires Reaches(p, c, a, c1) && fuel <= fuel1 + a
    requires Ends(p, c1, m, end, keep, cx, n, fuel1, r, t)
    ensures Ends(p, c, m, end, keep, cx, n, fuel, r, t')
  {
    if r.0.Threw? {
      Chain(p, c, a, c1, t.steps, Dispatch(p, t.m));
    } else {
      Chain(p, c, a, c1, t.steps, At(t.pc, t.m));
    }
    t' := t.(steps := a + t.steps);
  }

  /** A part that threw or ran out of fuel ends the whole, whatever it had pushed before. */
  lemma Abrupt(p: Program, c: Config, m: State, a: nat, c1: Config, m1: State, end1: nat, keep1: bool, cx1: Ctx,
               end: nat, keep: bool, cx: Ctx, n: nat, n1: nat, fuel: nat, fuel1: nat, r: Result, t: Wit) returns (t': Wit)
    requires Reaches(p, c, a, c1) && Undisturbed(m, m1, n) && n <= n1
    requires m.stack <= m1.stack && m.iters <= m1.iters
    requires Ends(p, c1, m1, end1, keep1, cx1, n1, fuel1, r, t) && fuel <= fuel1 + a
    requires r.0.Threw? || r.0.Timeout?
    ensures Ends(p, c, m, end, keep, cx, n, fuel, r, t')
  {
    if r.0.Threw? {
      Chain(p, c, a, c1, t.steps, Dispatch(p, t.m));
    } else {
      Chain(p, c, a, c1, t.steps, At(t.pc, t.m));
    }
    t' := t.(steps := a + t.steps);
  }

  /** The error of an expression ends the statement. */
  lemma Failing(p: Program, pc: nat, m: State, end1: nat, end: nat, keep: bool, cx: Ctx, n: nat, n1: nat, fuel: nat,
                r: (Response, World), steps: nat, m': State) returns (t: Wit)
    requires Delivers(p, pc, m, end1, n1, r, steps, m') && r.0.Fail? && n <= n1
    ensures Ends(p, At(pc, m), m, end, keep, cx, n, fuel, (Threw(r.0.exc), r.1), t)
  {
    t := Plainly(steps, end, m', cx);
  }

  // ----- out of a loop -----

  lemma {:induction false} RunDiscards(p: Program, pc: nat, m: State, kinds: seq<LoopKind>) returns (steps: nat, m': State)
    requires Here(p, pc, Discards(kinds))
    requires Counters(kinds) <= |m.stack| && Iterators(kinds) <= |m.iters|
    ensures Reaches(p, At(pc, m), steps, At(pc + |Discards(kinds)|, m'))
    ensures m' == m.(stack := m.stack[..|m.stack| - Counters(kinds)], iters := m.iters[..|m.iters| - Iterators(kinds)])
    decreases |kinds|
  {
    hide Here;
    if kinds == [] {
      Stay(p, At(pc, m));
      steps, m' := 0, m;
    } else {
      var last, rest := kinds[|kinds| - 1], kinds[..|kinds| - 1];
      var head: Code := match last case Plain => [] case Counter => [Pop] case Iterating => [IterEnd];
      Split(p, pc, head, Discards(rest));
      Fetch(p, pc, head);
      if last.Plain? {
        steps, m' := RunDiscards(p, pc, m, rest);
      } else {
        One(p, At(pc, m));
        var m1 := if last.Counter? then m.Drop() else m.(iters := m.iters[..|m.iters| - 1]);
        steps, m' := RunDiscards(p, pc + 1, m1, rest);
        Chain(p, At(pc, m), 1, At(pc + 1, m1), steps, At(pc + |Discards(kinds)|, m'));
        steps := 1 + steps;
      }
    }
  }

  lemma Deeper(loops: seq<LoopInfo>, l: LoopInfo, lbl: Label)
    ensures LoopIndex(loops + [l], lbl) == if Hits(lbl, l.lbl) then Some(|loops|) else LoopIndex(loops, lbl)
  {
    assert (loops + [l])[..|loops|] == loops;
  }

  lemma {:induction false} IndexInRange(loops: seq<LoopInfo>, lbl: Label)
    ensures LoopIndex(loops, lbl).Some? ==> LoopIndex(loops, lbl).value < |loops|
    decreases |loops|
  {
    if loops != [] {
      IndexInRange(loops[..|loops| - 1], lbl);
    }
  }

  lemma {:induction false} CountsAdd(a: seq<LoopKind>, b: seq<LoopKind>)
    ensures Counters(a + b) == Counters(a) + Counters(b) && Iterators(a + b) == Iterators(a) + Iterators(b)
    decreases |b|
  {
    if b == [] {
      assert a + b == a;
    } else {
      assert (a + b)[..|a + b| - 1] == a + b[..|b| - 1];
      CountsAdd(a, b[..|b| - 1]);
    }
  }

  /** An exit that is not for the innermost loop: the same code, one more loop crossed. */
  lemma OuterExit(o: Outcome, cx: Ctx, l: LoopInfo, site: Ctx, ne: nat, pend: seq<LoopKind>)
    requires IsExit(o) && DepthsOk(cx)
    requires (o.Broke? || o.Continued?) ==> !Hits(o.lbl, l.lbl)
    ensures ExitCode(o, cx.Enter(l), site, ne, pend) == ExitCode(o, cx, site, ne, [l.kind] + pend)
    ensures Resolved(o, cx.Enter(l)) ==> Resolved(o, cx)
  {
    hide GenCleanups, LoopIndex;
    var cl := cx.Enter(l);
    if o.Broke? || o.Continued? {
      Deeper(cx.loops, l, o.lbl);
      IndexInRange(cx.loops, o.lbl);
      var i := LoopIndex(cx.loops, o.lbl);
      if i.Some? {
        assert cl.loops[i.value] == cx.loops[i.value];
        assert Kinds(cl.loops[i.value + 1..]) + pend == Kinds(cx.loops[i.value + 1..]) + ([l.kind] + pend);
      }
    } else {
      assert Kinds(cl.loops) + pend == Kinds(cx.loops) + ([l.kind] + pend);
    }
  }

  /** What stands after the discards of an exit for the loop `l` itself; a `break` also drops its counter. */
  function Farewell(o: Outcome, l: LoopInfo): Code
    requires o.Broke? || o.Continued?
  {
    (if o.Broke? && l.kind.Counter? then [Pop] else []) + [Goto(if o.Broke? then l.brk else l.cont)]
  }

  /** The code of an exit for the innermost loop: no cleanups, drop the inner loops, go. */
  lemma InnerExit(o: Outcome, cx: Ctx, l: LoopInfo, site: Ctx, ne: nat, pend: seq<LoopKind>)
    requires (o.Broke? || o.Continued?) && Hits(o.lbl, l.lbl) && l.depth == |cx.handlers|
    ensures ExitCode(o, cx.Enter(l), site, ne, pend)
         == Discards(pend) + Farewell(o, l)
  {
    Deeper(cx.loops, l, o.lbl);
    assert Kinds([]) + pend == pend;
    assert cx.handlers[|cx.handlers|..] == [];
    assert cx.Enter(l).loops[|cx.loops| + 1..] == [];
  }

  /** An exit for the innermost loop first drops the loops it crosses. */
  lemma DropInner(p: Program, c: Config, m: State, end: nat, cx: Ctx, l: LoopInfo, n: nat, fuel: nat, r: Result, t: Wit)
    returns (steps: nat, at: nat, m': State)
    requires (r.0.Broke? || r.0.Continued?) && Hits(r.0.lbl, l.lbl) && l.depth == |cx.handlers|
    requires Ends(p, c, m, end, false, cx.Enter(l), n, fuel, r, t)
    ensures Reaches(p, c, steps, At(at, m')) && Here(p, at, Farewell(r.0, l))
    ensures Undisturbed(m, m', n) && m'.w == r.1 && m'.exc == None && m'.stack == m.stack && m'.iters == m.iters
  {
    hide GenBlock, GenRange, ExecBlock, Here, ExitCode, Discards;
    InnerExit(r.0, cx, l, t.site, t.ne, t.pend);
    Split(p, t.pc, Discards(t.pend), Farewell(r.0, l));
    var k, m1 := RunDiscards(p, t.pc, t.m, t.pend);
    at, m' := t.pc + |Discards(t.pend)|, m1;
    Chain(p, c, t.steps, At(t.pc, t.m), k, At(at, m'));
    steps := t.steps + k;
  }

  /** The end of an iteration reaches the place where `continue` goes. */
  lemma ToHead(p: Program, pc: nat, m: State, end: nat, b: nat, cx: Ctx, l: LoopInfo, n: nat, fuel: nat, r: Result, t: Wit)
    returns (steps: nat, m': State)
    requires Goes(r.0, l.lbl) && l.depth == |cx.handlers|
    requires Ends(p, At(pc, m), m, end, false, cx.Enter(l), n, fuel, r, t)
    requires Moves(p, end, b, Target(p, l.cont))
    ensures Reaches(p, At(pc, m), steps, At(Target(p, l.cont), m'))
    ensures Undisturbed(m, m', n) && m'.w == r.1 && m'.exc == None && m'.stack == m.stack && m'.iters == m.iters
  {
    if r.0.Normal? {
      Move(p, At(pc, m), t.steps, end, t.m, b, Target(p, l.cont));
      steps, m' := t.steps + b, t.m;
    } else {
      hide Ends;
      var k, at, m1 := DropInner(p, At(pc, m), m, end, cx, l, n, fuel, r, t);
      Fetch(p, at, Farewell(r.0, l));
      Then(p, At(pc, m), k, At(at, m1));
      steps, m' := k + 1, m1;
    }
  }

  /** A `break` for this loop also drops the loop's own counter. */
  lemma ToBreak(p: Program, pc: nat, m: State, end: nat, cx: Ctx, l: LoopInfo, n: nat, fuel: nat, r: Result, t: Wit)
    returns (steps: nat, m': State)
    requires r.0.Broke? && Hits(r.0.lbl, l.lbl) && l.depth == |cx.handlers|
    requires Ends(p, At(pc, m), m, end, false, cx.Enter(l), n, fuel, r, t)
    requires l.kind.Counter? ==> |m.stack| > 0
    ensures Reaches(p, At(pc, m), steps, At(Target(p, l.brk), m'))
    ensures Undisturbed(m, m', n) && m'.w == r.1 && m'.exc == None && m'.iters == m.iters
    ensures m'.stack == if l.kind.Counter? then m.stack[..|m.stack| - 1] else m.stack
  {
    hide Ends;
    var k, at, m1 := DropInner(p, At(pc, m), m, end, cx, l, n, fuel, r, t);
    Fetch(p, at, Farewell(r.0, l));
    Then(p, At(pc, m), k, At(at, m1));
    steps, m' := k + 1, m1;
    if l.kind.Counter? {
      m' := m1.Drop();
      Then(p, At(pc, m), steps, At(at + 1, m'));
      steps := steps + 1;
    }
  }

  /** Any other end of the body is an end of the loop, with one more loop to drop. */
  lemma ThroughLoop(p: Program, c: Config, m: State, a: nat, pc1: nat, m1: State, end1: nat, end: nat, cx: Ctx, l: LoopInfo,
                    n: nat, n1: nat, fuel: nat, fuel1: nat, r: Result, t: Wit) returns (t': Wit)
    requires Reaches(p, c, a, At(pc1, m1)) && Undisturbed(m, m1, n) && n <= n1 && DepthsOk(cx)
    requires m.stack <= m1.stack && |m1.stack| == |m.stack| + (if l.kind.Counter? then 1 else 0)
    requires m.iters <= m1.iters && |m1.iters| == |m.iters| + (if l.kind.Iterating? then 1 else 0)
    requires Ends(p, At(pc1, m1), m1, end1, false, cx.Enter(l), n1, fuel1, r, t) && fuel <= fuel1 + a
    requires !Goes(r.0, l.lbl) && !(r.0.Broke? && Hits(r.0.lbl, l.lbl))
    ensures Ends(p, c, m, end, false, cx, n, fuel, if l.kind.Iterating? then ThroughFor(r) else r, t')
  {
    hide GenBlock, GenRange, ExecBlock, Here, ExitCode;
    if r.0.Threw? || r.0.Timeout? {
      t' := Abrupt(p, c, m, a, At(pc1, m1), m1, end1, false, cx.Enter(l), end, false, cx, n, n1, fuel, fuel1, r, t);
      ThroughAbrupt(r);
    } else {
      CrossLoop(p, m, m1, cx, l, n, n1, r, t);
      Chain(p, c, a, At(pc1, m1), t.steps, At(t.pc, t.m));
      t' := t.(steps := a + t.steps, pend := [l.kind] + t.pend);
    }
  }

  lemma ThroughAbrupt(r: Result)
    requires r.0.Threw? || r.0.Timeout?
    ensures ThroughFor(r) == r
  {
  }

  /** An exit that crosses the loop `l` has one more loop to drop. */
  lemma CrossLoop(p: Program, m: State, m1: State, cx: Ctx, l: LoopInfo, n: nat, n1: nat, r: Result, t: Wit)
    requires IsExit(r.0) && n <= n1 && DepthsOk(cx) && ((r.0.Broke? || r.0.Continued?) ==> !Hits(r.0.lbl, l.lbl))
    requires m.stack <= m1.stack && |m1.stack| == |m.stack| + (if l.kind.Counter? then 1 else 0)
    requires m.iters <= m1.iters && |m1.iters| == |m.iters| + (if l.kind.Iterating? then 1 else 0)
    requires Leaving(p, m1, cx.Enter(l), n1, r.0, t)
    ensures var q := if l.kind.Iterating? then ThroughFor(r) else r;
            IsExit(q.0) && q.1 == r.1 && Leaving(p, m, cx, n, q.0, t.(pend := [l.kind] + t.pend))
  {
    hide GenBlock, GenRange, ExecBlock, Here, ExitCode;
    OuterExit(r.0, cx, l, t.site, t.ne, t.pend);
    Relabel(cx, r, t.(pend := [l.kind] + t.pend), l.kind.Iterating?);
    CountsAdd([l.kind], t.pend);
    assert Counters([l.kind]) == (if l.kind.Counter? then 1 else 0) by { assert Counters([]) == 0; assert [l.kind][..0] == []; }
    assert Iterators([l.kind]) == (if l.kind.Iterating? then 1 else 0) by { assert Iterators([]) == 0; assert [l.kind][..0] == []; }
  }

  /** The counts in a returned outcome do not change the code of the exit. */
  lemma Relabel(cx: Ctx, r: Result, t: Wit, through: bool)
    requires IsExit(r.0)
    ensures var o := (if through then ThroughFor(r) else r).0;
            ExitCode(o, cx, t.site, t.ne, t.pend) == ExitCode(r.0, cx, t.site, t.ne, t.pend)
  {
  }

  // ----- out of a handler region -----

  /** An exit from a region: the cleanup of its handler, then the exit of what is around it. */
  lemma RegionExit(o: Outcome, cx: Ctx, h: Handler, site: Ctx, ne: nat, pend: seq<LoopKind>)
    requires IsExit(o) && DepthsOk(cx) && Resolved(o, cx)
    ensures var one := GenCleanup(h, site, ne);
            ExitCode(o, cx.Open(h), site, ne, pend) == one.code + ExitCode(o, cx, site, one.next, pend)
  {
    hide GenCleanup, GenRange;
    var hs := cx.handlers + [h];
    IndexInRange(cx.loops, if o.Broke? || o.Continued? then o.lbl else None);
    var d := ExitDepth(o, cx);
    assert d <= |cx.handlers| && ExitDepth(o, cx.Open(h)) == d;
    assert hs[d..][..|hs[d..]| - 1] == cx.handlers[d..];
    var one := GenCleanup(h, site, ne);
    var rest := GenCleanups(cx.handlers[d..], site, one.next);
    assert GenCleanups(hs[d..], site, ne) == Emit(one.code + rest.code, rest.next);
  }

  /** An exception inside a region arrives at its handler with both stacks cut back. */
  lemma Caught(p: Program, pc: nat, m: State, a: nat, pc1: nat, m1: State, e: Value, b: nat, m': State, f: TryFrame)
    returns (steps: nat, m2: State)
    requires Reaches(p, At(pc, m), a, At(pc1, m1))
    requires m1.tries == m.tries + [f] && f.height == |m.stack| && f.iters == |m.iters|
    requires m1.stack == m.stack && m1.iters == m.iters
    requires Thrown(p, At(pc1, m1), m1, e, b, m') && m'.tries == m1.tries
    ensures Reaches(p, At(pc, m), steps, At(Target(p, f.catchLbl), m2))
    ensures m2 == m'.(stack := m.stack, iters := m.iters)
  {
    m2 := m'.(stack := m.stack, iters := m.iters);
    assert m'.stack[..f.height] == m.stack && m'.iters[..f.iters] == m.iters;
    assert Dispatch(p, m') == At(Target(p, f.catchLbl), m2);
    Chain(p, At(pc, m), a, At(pc1, m1), b, Dispatch(p, m'));
    steps := a + b;
  }
}
