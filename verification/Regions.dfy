/** What the code around a `with` or `try` body does once the body has ended. */
module Regions {
  import opened Wrappers
  import opened Syntax
  import opened Semantics
  import opened Machine
  import opened Codegen
  import opened Simulation
  import opened Exits
  import opened Steps

  // ----- with -----

  /** The pieces of the code after a `with` body, at `q`. */
  lemma LayWithLeave(p: Program, n: nat, k: nat, q: nat)
    requires Here(p, q, GenWithLeave(n, k))
    ensures Here(p, q, [EndTry]) && Here(p, q + 1, [Mark(k + 1)]) && Here(p, q + 2, [LoadFast(Temp(n)), Push(Unit)] + CALL_EXIT)
    ensures Here(p, q + 6, [Pop]) && Here(p, q + 7, [Goto(k + 3)]) && Here(p, q + 8, [Mark(k)])
    ensures Here(p, q + 9, [PushExc, StoreFast(Temp(n + 1)), PopTry])
    ensures Here(p, q + 12, [LoadFast(Temp(n)), LoadFast(Temp(n + 1))] + CALL_EXIT)
    ensures Here(p, q + 16, [GotoIf(k + 2), LoadFast(Temp(n + 1)), Raise]) && Here(p, q + 19, [Mark(k + 2)])
  {
    var code := GenWithLeave(n, k);
    assert code == [EndTry, Mark(k + 1), LoadFast(Temp(n)), Push(Unit), Load(WITH_EXIT), CallN(2), Pop, Goto(k + 3),
                    Mark(k), PushExc, StoreFast(Temp(n + 1)), PopTry, LoadFast(Temp(n)), LoadFast(Temp(n + 1)),
                    Load(WITH_EXIT), CallN(2), GotoIf(k + 2), LoadFast(Temp(n + 1)), Raise, Mark(k + 2)];
    Fetch(p, q, code);
  }

  /** The region is left by its end: `__exit__` gets no exception, its answer is dropped. */
  lemma WithNormal(p: Program, c: Config, m: State, a: nat, q: nat, m1: State, n: nat, k: nat, f: TryFrame, v: Value, keep: bool,
                   r: Value, end: nat, cx: Ctx, fuel: nat) returns (t: Wit)
    requires Linked(p) && CallsTidy(p.env) && Here(p, q, GenWithLeave(n, k)) && end > 0 && Here(p, end - 1, [Mark(k + 3)])
    requires f == TryFrame(k, k + 1, k + 3, |m.stack|, |m.iters|)
    requires Reaches(p, c, a, At(q, m1)) && m1.tries == m.tries + [f] && TempsKept(n, m.temps, m1.temps)
    requires m1.exc == None && m1.stack == m.stack + (if keep then [r] else []) && m1.iters == m.iters
    requires n in m1.temps && m1.temps[n] == v
    ensures Ends(p, c, m, end, keep, cx, n, fuel, WithExit(v, (Normal(r), m1.w), p.env), t)
  {
    LayWithLeave(p, n, k, q);
    var m2 := DoEndTry(p, c, a, q, m1, m.tries, f, q + 1);
    var m3 := DoExitCall(p, c, a + 2, q + 2, m2, n, Push(Unit), Unit);
    var (r1, w) := CallValue(Builtin(WITH_EXIT), [v, Unit], p.env, m1.w);
    if r1.Fail? {
      t := Plainly(a + 6, end, m3, cx);
    } else {
      t := WithDone(p, c, m, a + 6, q + 6, m2.(w := w), m3, r1.value, n, k, keep, r, end, cx, fuel);
    }
  }

  /** Drop the answer of `__exit__` and jump to the end. */
  lemma WithDone(p: Program, c: Config, m: State, a: nat, q: nat, m2: State, m3: State, answer: Value, n: nat, k: nat, keep: bool,
                 r: Value, end: nat, cx: Ctx, fuel: nat) returns (t: Wit)
    requires Linked(p) && Here(p, q, [Pop]) && Here(p, q + 1, [Goto(k + 3)]) && end > 0 && Here(p, end - 1, [Mark(k + 3)])
    requires Reaches(p, c, a, At(q, m3)) && m3 == m2.PushV(answer) && Undisturbed(m, m2, n)
    requires m2.exc == None && m2.stack == m.stack + (if keep then [r] else []) && m2.iters == m.iters
    ensures Ends(p, c, m, end, keep, cx, n, fuel, (Normal(r), m2.w), t)
  {
    var m4 := DoPop(p, c, m2, a, q, m3, answer, 0);
    PassGoto(p, q + 1, k + 3, end - 1);
    Move(p, c, a + 1, q + 1, m4, 2, end);
    t := Plainly(a + 3, end, m4, cx);
  }

  /** The region is left by an exception: keep it, close the region, ask `__exit__`. */
  lemma WithCaught(p: Program, pc: nat, m: State, a: nat, pc1: nat, m1: State, n: nat, k: nat, f: TryFrame, v: Value, e: Value,
                   b: nat, m2: State, q: nat) returns (steps: nat, m3: State)
    requires Linked(p) && CallsTidy(p.env) && Here(p, q, GenWithLeave(n, k)) && f == TryFrame(k, k + 1, k + 3, |m.stack|, |m.iters|)
    requires Reaches(p, At(pc, m), a, At(pc1, m1)) && m1.tries == m.tries + [f] && TempsKept(n, m.temps, m1.temps)
    requires m1.stack == m.stack && m1.iters == m.iters
    requires Undisturbed(m1, m2, n + 1) && Thrown(p, At(pc1, m1), m1, e, b, m2) && n in m1.temps && m1.temps[n] == v
    ensures m3 == m2.(stack := m.stack, iters := m.iters, tries := m.tries, exc := None, temps := m2.temps[n + 1 := e])
    ensures Reaches(p, At(pc, m), steps, At(q + 12, m3)) && Undisturbed(m, m3, n) && n in m3.temps && m3.temps[n] == v
  {
    LayWithLeave(p, n, k, q);
    var m4;
    steps, m4 := Caught(p, pc, m, a, pc1, m1, e, b, m2, f);
    Marked(p, q + 8, [Mark(k)], 0);
    PassMark(p, q + 8, k);
    Move(p, At(pc, m), steps, q + 8, m4, 1, q + 9);
    m3 := KeepException(p, At(pc, m), steps + 1, q + 9, m4, n, e, m.tries, f);
    steps := steps + 4;
  }

  lemma KeepException(p: Program, c: Config, a: nat, q: nat, m: State, n: nat, e: Value, tries: seq<TryFrame>, f: TryFrame)
    returns (m3: State)
    requires Reaches(p, c, a, At(q, m)) && Here(p, q, [PushExc, StoreFast(Temp(n + 1)), PopTry])
    requires m.exc == Some(e) && m.tries == tries + [f]
    ensures m3 == m.(tries := tries, exc := None, temps := m.temps[n + 1 := e]) && Reaches(p, c, a + 3, At(q + 3, m3))
  {
    hide Reaches, Run;
    Fetch(p, q, [PushExc, StoreFast(Temp(n + 1)), PopTry]);
    Then(p, c, a, At(q, m));
    var m1 := m.(temps := m.temps[n + 1 := e]);
    assert m.PushV(e).Drop() == m;
    Then(p, c, a + 1, At(q + 1, m.PushV(e)));
    assert m1.tries[..|m1.tries| - 1] == tries;
    m3 := m1.(tries := tries, exc := None);
    Then(p, c, a + 2, At(q + 2, m1));
  }

  /** `__exit__` answers: swallow the exception, or throw it again. */
  lemma WithAnswered(p: Program, c: Config, m: State, a: nat, q: nat, m1: State, n: nat, k: nat, v: Value, e: Value, keep: bool,
                     end: nat, cx: Ctx, fuel: nat) returns (t: Wit)
    requires Linked(p) && CallsTidy(p.env) && Here(p, q, GenWithLeave(n, k)) && end == q + (if keep then 22 else 21)
    requires (keep ==> Here(p, q + 20, [Push(Unit)])) && Here(p, end - 1, [Mark(k + 3)])
    requires Reaches(p, c, a, At(q + 12, m1)) && Undisturbed(m, m1, n) && m1.exc == None && m1.stack == m.stack && m1.iters == m.iters
    requires n in m1.temps && m1.temps[n] == v && n + 1 in m1.temps && m1.temps[n + 1] == e
    ensures Ends(p, c, m, end, keep, cx, n, fuel, WithExit(v, (Threw(e), m1.w), p.env), t)
  {
    LayWithLeave(p, n, k, q);
    var m2 := DoExitCall(p, c, a, q + 12, m1, n, LoadFast(Temp(n + 1)), e);
    var (r, w) := CallValue(Builtin(WITH_EXIT), [v, e], p.env, m1.w);
    if r.Fail? {
      t := Plainly(a + 4, end, m2, cx);
    } else {
      t := WithVerdict(p, c, m, a + 4, q, m1.(w := w), m2, r.value, n, k, e, keep, end, cx, fuel);
    }
  }

  lemma WithVerdict(p: Program, c: Config, m: State, a: nat, q: nat, m1: State, m2: State, answer: Value, n: nat, k: nat, e: Value,
                    keep: bool, end: nat, cx: Ctx, fuel: nat) returns (t: Wit)
    requires Linked(p) && Here(p, q + 16, [GotoIf(k + 2), LoadFast(Temp(n + 1)), Raise]) && Here(p, q + 19, [Mark(k + 2)])
    requires end == q + (if keep then 22 else 21) && (keep ==> Here(p, q + 20, [Push(Unit)])) && Here(p, end - 1, [Mark(k + 3)])
    requires Reaches(p, c, a, At(q + 16, m2)) && m2 == m1.PushV(answer)
    requires Undisturbed(m, m1, n) && m1.exc == None && m1.stack == m.stack && m1.iters == m.iters
    requires n + 1 in m1.temps && m1.temps[n + 1] == e
    ensures Ends(p, c, m, end, keep, cx, n, fuel,
                 if Truthy(p.env, answer) then (Normal(Unit), m1.w) else (Threw(Raisable(p.env, e)), m1.w), t)
  {
    hide Run, Reaches, Ends, TempsKept;
    Fetch(p, q + 16, [GotoIf(k + 2), LoadFast(Temp(n + 1)), Raise]);
    assert m2.Drop() == m1;
    Then(p, c, a, At(q + 16, m2));
    if Truthy(p.env, answer) {
      Marked(p, q + 19, [Mark(k + 2)], 0);
      t := Swallowed(p, c, m, a + 1, q, m1, n, k, keep, end, cx, fuel);
    } else {
      Then(p, c, a + 1, At(q + 17, m1));
      Nth(p, q + 16, [GotoIf(k + 2), LoadFast(Temp(n + 1)), Raise], 2);
      t := DoRaise(p, c, m, a + 2, q + 18, m1.PushV(e), e, n, end, keep, cx, fuel);
    }
  }

  lemma Swallowed(p: Program, c: Config, m: State, a: nat, q: nat, m1: State, n: nat, k: nat, keep: bool, end: nat, cx: Ctx, fuel: nat)
    returns (t: Wit)
    requires Here(p, q + 19, [Mark(k + 2)]) && end == q + (if keep then 22 else 21)
    requires (keep ==> Here(p, q + 20, [Push(Unit)])) && Here(p, end - 1, [Mark(k + 3)])
    requires Reaches(p, c, a, At(q + 19, m1)) && Undisturbed(m, m1, n) && m1.exc == None && m1.stack == m.stack && m1.iters == m.iters
    ensures Ends(p, c, m, end, keep, cx, n, fuel, (Normal(Unit), m1.w), t)
  {
    PassMark(p, q + 19, k + 2);
    Move(p, c, a, q + 19, m1, 1, q + 20);
    PassMark(p, end - 1, k + 3);
    if keep {
      DoPush(p, c, a + 1, q + 20, m1, Unit);
      Move(p, c, a + 2, end - 1, m1.PushV(Unit), 1, end);
      t := Plainly(a + 3, end, m1.PushV(Unit), cx);
    } else {
      Move(p, c, a + 1, end - 1, m1, 1, end);
      t := Plainly(a + 2, end, m1, cx);
    }
  }

  /** The region is left by an exit: `__exit__` runs on the way out, then the exit goes on. */
  lemma WithLeft(p: Program, c: Config, m: State, n: nat, f: TryFrame, v: Value, o: Outcome, end: nat, keep: bool, cx: Ctx, fuel: nat, t1: Wit)
    returns (t: Wit)
    requires DepthsOk(cx) && IsExit(o) && Resolved(o, cx) && CallsTidy(p.env)
    requires Reaches(p, c, t1.steps, At(t1.pc, t1.m)) && t1.m.tries == m.tries + [f] && TempsKept(n, m.temps, t1.m.temps)
    requires t1.m.exc == None && n in t1.m.temps && t1.m.temps[n] == v
    requires Leaving(p, m, cx.Open(WithHandler(n)), n, o, t1)
    ensures Ends(p, c, m, end, keep, cx, n, fuel, WithExit(v, (o, t1.m.w), p.env), t)
  {
    hide GenBlock, GenRange, ExecBlock, Here;
    RegionExit(o, cx, WithHandler(n), t1.site, t1.ne, t1.pend);
    var call := [LoadFast(Temp(n)), Push(Unit)] + CALL_EXIT;
    var rest := ExitCode(o, cx, t1.site, t1.ne, t1.pend);
    LayWithCleanup(p, t1.pc, n, t1.site, t1.ne, rest);
    t := WithCleanup(p, c, m, n, f, v, o, end, keep, cx, fuel, t1, call, rest);
  }

  lemma LayWithCleanup(p: Program, pc: nat, n: nat, site: Ctx, ne: nat, rest: Code)
    requires Here(p, pc, GenCleanup(WithHandler(n), site, ne).code + rest)
    ensures GenCleanup(WithHandler(n), site, ne).next == ne
    ensures Here(p, pc, [PopTry]) && Here(p, pc + 1, [LoadFast(Temp(n)), Push(Unit)] + CALL_EXIT) && Here(p, pc + 5, [Pop])
    ensures Here(p, pc + 6, rest)
  {
    var code := GenCleanup(WithHandler(n), site, ne).code;
    var call := [LoadFast(Temp(n)), Push(Unit)] + CALL_EXIT;
    assert code == [PopTry] + (call + ([Pop] + []));
    Split(p, pc, code, rest);
    Parts4(p, pc, [PopTry], call, [Pop], []);
  }

  lemma WithCleanup(p: Program, c: Config, m: State, n: nat, f: TryFrame, v: Value, o: Outcome, end: nat, keep: bool, cx: Ctx, fuel: nat,
                    t1: Wit, call: Code, rest: Code) returns (t: Wit)
    requires IsExit(o) && Resolved(o, cx) && SiteOk(t1.site, cx) && n <= t1.ne && Loaded(m, o, t1.m, t1.pend) && CallsTidy(p.env)
    requires Reaches(p, c, t1.steps, At(t1.pc, t1.m)) && t1.m.tries == m.tries + [f] && TempsKept(n, m.temps, t1.m.temps)
    requires t1.m.exc == None && n in t1.m.temps && t1.m.temps[n] == v
    requires call == [LoadFast(Temp(n)), Push(Unit)] + CALL_EXIT && rest == ExitCode(o, cx, t1.site, t1.ne, t1.pend)
    requires Here(p, t1.pc, [PopTry]) && Here(p, t1.pc + 1, call) && Here(p, t1.pc + 5, [Pop]) && Here(p, t1.pc + 6, rest)
    ensures Ends(p, c, m, end, keep, cx, n, fuel, WithExit(v, (o, t1.m.w), p.env), t)
  {
    hide GenCleanups, Reaches, Run, CallValue, Step, Here, ExitCode, SiteOk;
    var m2 := DoPopTry(p, c, t1.steps, t1.pc, t1.m, m.tries, f);
    var m3 := DoExitCall(p, c, t1.steps + 1, t1.pc + 1, m2, n, Push(Unit), Unit);
    var (r, w) := CallValue(Builtin(WITH_EXIT), [v, Unit], p.env, t1.m.w);
    if r.Fail? {
      t := Plainly(t1.steps + 5, end, m3, cx);
    } else {
      var m4 := DoPop(p, c, m2.(w := w), t1.steps + 5, t1.pc + 5, m3, r.value, 0);
      t := t1.(steps := t1.steps + 6, m := m4, pc := t1.pc + 6);
    }
  }

  /** `as x`: the entered value is bound inside the region. */
  lemma DoAlias(p: Program, c: Config, a: nat, pc: nat, m: State, alias: Option<Name>, n: nat, v: Value) returns (steps: nat, m1: State)
    requires Reaches(p, c, a, At(pc, m)) && Here(p, pc, GenAlias(alias, n)) && n + 2 in m.temps && m.temps[n + 2] == v
    ensures m1 == m.(w := if alias.Some? then m.w.Set(alias.value, v) else m.w)
    ensures Reaches(p, c, steps, At(pc + |GenAlias(alias, n)|, m1)) && steps >= a
  {
    steps, m1 := a, m;
    if alias.Some? {
      Fetch(p, pc, [LoadFast(Temp(n + 2)), BindFast(alias.value)]);
      Then(p, c, a, At(pc, m));
      assert m.PushV(v).Drop() == m;
      Then(p, c, a + 1, At(pc + 1, m.PushV(v)));
      steps, m1 := a + 2, m.(w := m.w.Set(alias.value, v));
    }
  }

  /** The body of a `with` has ended with `r`. */
  lemma WithEnd(p: Program, pc: nat, m: State, a: nat, pc2: nat, m2: State, n: nat, k: nat, f: TryFrame, v: Value, q: nat,
                end: nat, keep: bool, cx: Ctx, fuel: nat, r: Result, t1: Wit) returns (t: Wit)
    requires Linked(p) && CallsTidy(p.env) && DepthsOk(cx) && Here(p, q, GenWithLeave(n, k)) && end == q + (if keep then 22 else 21) && n < k
    requires (keep ==> Here(p, q + 20, [Push(Unit)])) && Here(p, end - 1, [Mark(k + 3)])
    requires f == TryFrame(k, k + 1, k + 3, |m.stack|, |m.iters|)
    requires Reaches(p, At(pc, m), a, At(pc2, m2)) && m2.tries == m.tries + [f] && TempsKept(n, m.temps, m2.temps)
    requires m2.stack == m.stack && m2.iters == m.iters && n in m2.temps && m2.temps[n] == v
    requires Ends(p, At(pc2, m2), m2, q, keep, cx.Open(WithHandler(n)), k, fuel, r, t1)
    ensures Ends(p, At(pc, m), m, end, keep, cx, n, fuel, WithExit(v, r, p.env), t)
  {
    if r.0.Threw? {
      var steps, m3 := WithCaught(p, pc, m, a, pc2, m2, n, k, f, v, r.0.exc, t1.steps, t1.m, q);
      t := WithAnswered(p, At(pc, m), m, steps, q, m3, n, k, v, r.0.exc, keep, end, cx, fuel);
    } else {
      Chain(p, At(pc, m), a, At(pc2, m2), t1.steps, At(t1.pc, t1.m));
      t := t1.(steps := a + t1.steps);
      if !r.0.Timeout? {
        t := WithQuiet(p, pc, m, n, k, f, v, q, end, keep, cx, fuel, r, t);
      }
    }
  }

  /** The same for a body that did not throw. */
  lemma WithQuiet(p: Program, pc: nat, m: State, n: nat, k: nat, f: TryFrame, v: Value, q: nat,
                  end: nat, keep: bool, cx: Ctx, fuel: nat, r: Result, t1: Wit) returns (t: Wit)
    requires Linked(p) && CallsTidy(p.env) && DepthsOk(cx) && Here(p, q, GenWithLeave(n, k)) && n < k && end > 0 && Here(p, end - 1, [Mark(k + 3)])
    requires f == TryFrame(k, k + 1, k + 3, |m.stack|, |m.iters|) && !r.0.Threw? && !r.0.Timeout?
    requires Reaches(p, At(pc, m), t1.steps, At(t1.pc, t1.m)) && t1.m.tries == m.tries + [f] && TempsKept(n, m.temps, t1.m.temps)
    requires n in t1.m.temps && t1.m.temps[n] == v && t1.m.exc == None && t1.m.w == r.1
    requires if r.0.Normal? then t1.pc == q && t1.m.stack == m.stack + (if keep then [r.0.v] else []) && t1.m.iters == m.iters
             else Leaving(p, m, cx.Open(WithHandler(n)), k, r.0, t1)
    ensures Ends(p, At(pc, m), m, end, keep, cx, n, fuel, WithExit(v, r, p.env), t)
  {
    if r.0.Normal? {
      t := WithNormal(p, At(pc, m), m, t1.steps, q, t1.m, n, k, f, v, keep, r.0.v, end, cx, fuel);
    } else {
      t := WithLeft(p, At(pc, m), m, n, f, v, r.0, end, keep, cx, fuel, t1);
    }
  }

  // ----- try -----

  /** A `try` body is left by an exit: its frame goes, nothing else runs. */
  lemma TryLeft(p: Program, c: Config, m: State, n: nat, f: TryFrame, r: Result, end: nat, keep: bool, cx: Ctx, fuel: nat, t1: Wit)
    returns (t: Wit)
    requires DepthsOk(cx) && IsExit(r.0) && Resolved(r.0, cx)
    requires Reaches(p, c, t1.steps, At(t1.pc, t1.m)) && t1.m.tries == m.tries + [f] && TempsKept(n, m.temps, t1.m.temps)
    requires t1.m.exc == None && t1.m.w == r.1 && Leaving(p, m, cx.Open(TryHandler), n, r.0, t1)
    ensures Ends(p, c, m, end, keep, cx, n, fuel, r, t)
  {
    hide ExitCode, GenCleanups;
    RegionExit(r.0, cx, TryHandler, t1.site, t1.ne, t1.pend);
    Split(p, t1.pc, [PopTry], ExitCode(r.0, cx, t1.site, t1.ne, t1.pend));
    var m2 := DoPopTry(p, c, t1.steps, t1.pc, t1.m, m.tries, f);
    t := t1.(steps := t1.steps + 1, m := m2, pc := t1.pc + 1);
  }

  /** One typed clause: jump to it if the exception is of its type. */
  lemma RunTypeTest(p: Program, name: Name, lbl: nat, pc: nat, m: State, e: Value)
    requires Here(p, pc, [ExcMatch(name), GotoIf(lbl)]) && m.exc == Some(e)
    ensures Reaches(p, At(pc, m), 2, At(if p.env.isA(e, name) then Target(p, lbl) else pc + 2, m))
  {
    Fetch(p, pc, [ExcMatch(name), GotoIf(lbl)]);
    One(p, At(pc, m));
    var v := Bool(p.env.isA(e, name));
    assert m.PushV(v).Drop() == m;
    Then(p, At(pc, m), 1, At(pc + 1, m.PushV(v)));
  }

  /** The type tests find the first typed clause for the exception; clauses are numbered from `first`. */
  lemma {:induction false} RunTypeTests(p: Program, cs: Catches, first: nat, pc: nat, m: State, e: Value) returns (steps: nat)
    requires Here(p, pc, GenTypeTests(cs, first)) && m.exc == Some(e)
    ensures var r := SelectTyped(cs, e, p.env, first);
            Reaches(p, At(pc, m), steps, At(if r.Some? then Target(p, r.value) else pc + |GenTypeTests(cs, first)|, m))
    decreases cs
  {
    if cs.NoCatch? {
      Stay(p, At(pc, m));
      steps := 0;
    } else if cs.pattern.BindExc? && cs.pattern.typeName.Some? {
      var test := [ExcMatch(cs.pattern.typeName.value), GotoIf(first)];
      Split(p, pc, test, GenTypeTests(cs.rest, first + 1));
      RunTypeTest(p, cs.pattern.typeName.value, first, pc, m, e);
      steps := 2;
      if !p.env.isA(e, cs.pattern.typeName.value) {
        steps := RunTypeTests(p, cs.rest, first + 1, pc + 2, m, e);
        var r := SelectTyped(cs.rest, e, p.env, first + 1);
        Chain(p, At(pc, m), 2, At(pc + 2, m), steps,
              At(if r.Some? then Target(p, r.value) else pc + |GenTypeTests(cs, first)|, m));
        steps := 2 + steps;
      }
    } else {
      assert GenTypeTests(cs, first) == GenTypeTests(cs.rest, first + 1);
      steps := RunTypeTests(p, cs.rest, first + 1, pc, m, e);
    }
  }

  /** The label of the chosen clause. */
  function Chosen(cs: Catches, e: Value, env: Env, first: nat): Option<nat> {
    var typed := SelectTyped(cs, e, env, first);
    if typed.Some? then typed else SelectUntyped(cs, first)
  }

  lemma RunDispatch(p: Program, cs: Catches, first: nat, pc: nat, m: State, e: Value) returns (steps: nat)
    requires Here(p, pc, GenDispatch(cs, first)) && m.exc == Some(e)
    ensures var r := Chosen(cs, e, p.env, first);
            var last := pc + |GenDispatch(cs, first)| - 1;
            && Reaches(p, At(pc, m), steps, At(if r.Some? then Target(p, r.value) else last, m))
            && (r.None? ==> Here(p, last, [Rethrow]))
  {
    var untyped := SelectUntyped(cs, first);
    var tests := GenTypeTests(cs, first);
    var last := [if untyped.Some? then Goto(untyped.value) else Rethrow];
    Split(p, pc, tests, last);
    steps := RunTypeTests(p, cs, first, pc, m, e);
    if SelectTyped(cs, e, p.env, first).None? && untyped.Some? {
      Fetch(p, pc + |tests|, last);
      Then(p, At(pc, m), steps, At(pc + |tests|, m));
      steps := steps + 1;
    }
  }

  /** Numbering the clauses from `b` instead of `a` shifts the choice, which names a clause. */
  lemma {:induction false} TypedShift(cs: Catches, e: Value, env: Env, a: nat, b: nat)
    ensures var x, y := SelectTyped(cs, e, env, a), SelectTyped(cs, e, env, b);
            x.Some? == y.Some? && (x.Some? ==> a <= x.value < a + cs.Count() && y.value == x.value - a + b)
    decreases cs
  {
    if cs.Catch? { TypedShift(cs.rest, e, env, a + 1, b + 1); }
  }

  lemma {:induction false} UntypedShift(cs: Catches, a: nat, b: nat)
    ensures var x, y := SelectUntyped(cs, a), SelectUntyped(cs, b);
            x.Some? == y.Some? && (x.Some? ==> a <= x.value < a + cs.Count() && y.value == x.value - a + b)
    decreases cs
  {
    if cs.Catch? { UntypedShift(cs.rest, a + 1, b + 1); }
  }

  lemma ChosenIsSelected(cs: Catches, e: Value, env: Env, first: nat)
    ensures var x, y := Select(cs, e, env), Chosen(cs, e, env, first);
            x.Some? == y.Some? && (x.Some? ==> x.value < cs.Count() && y.value == x.value + first)
  {
    TypedShift(cs, e, env, 0, first);
    UntypedShift(cs, 0, first);
  }

  /** The head of a clause: bind the exception, close the region. */
  lemma RunCaught(p: Program, c: Config, a: nat, pc: nat, first: nat, pattern: CatchPattern, m: State, e: Value, tries: seq<TryFrame>, f: TryFrame)
    returns (steps: nat, m2: State)
    requires Reaches(p, c, a, At(pc, m)) && Here(p, pc, [Mark(first)]) && Here(p, pc + 1, GenCaught(pattern))
    requires m.exc == Some(e) && m.tries == tries + [f]
    ensures m2 == m.(w := BindCaught(pattern, e, m.w), tries := tries, exc := None)
    ensures Reaches(p, c, steps, At(pc + 1 + |GenCaught(pattern)|, m2)) && steps >= a
  {
    hide GenBlock, GenRange, ExecBlock;
    PassMark(p, pc, first);
    Move(p, c, a, pc, m, 1, pc + 1);
    steps := a + 1;
    var pc1, m1 := pc + 1, m;
    if pattern.BindExc? {
      var bind := [PushExc, BindFast(pattern.x)];
      Split(p, pc + 1, bind, [PopTry]);
      m1 := BindException(p, c, a + 1, pc + 1, m, e, pattern.x);
      steps, pc1 := a + 3, pc + 3;
    } else {
      assert GenCaught(pattern) == [PopTry];
    }
    m2 := DoPopTry(p, c, steps, pc1, m1, tries, f);
    steps := steps + 1;
  }

  lemma BindException(p: Program, c: Config, a: nat, pc: nat, m: State, e: Value, x: Name) returns (m1: State)
    requires Reaches(p, c, a, At(pc, m)) && Here(p, pc, [PushExc, BindFast(x)]) && m.exc == Some(e)
    ensures m1 == m.(w := m.w.Set(x, e)) && Reaches(p, c, a + 2, At(pc + 2, m1))
  {
    Fetch(p, pc, [PushExc, BindFast(x)]);
    Then(p, c, a, At(pc, m));
    assert m.PushV(e).Drop() == m;
    Then(p, c, a + 1, At(pc + 1, m.PushV(e)));
    m1 := m.(w := m.w.Set(x, e));
  }

  /** A `try` body has thrown: control is at the dispatch, the frame still open. */
  lemma TryCaught(p: Program, pc: nat, m: State, m1: State, n: nat, f: TryFrame, e: Value, b: nat, m2: State, n1: nat, q: nat)
    returns (steps: nat, m3: State)
    requires Linked(p) && Here(p, q, [Mark(n)]) && f == FrameOf(EnterTry(n, f.elseLbl, f.endLbl), m) && n <= n1
    requires Reaches(p, At(pc, m), 1, At(pc + 1, m1)) && m1 == m.(tries := m.tries + [f])
    requires Undisturbed(m1, m2, n1) && Thrown(p, At(pc + 1, m1), m1, e, b, m2)
    ensures Reaches(p, At(pc, m), steps, At(q + 1, m3)) && m3 == m2.(stack := m.stack, iters := m.iters)
    ensures m3.tries == m.tries + [f] && TempsKept(n, m.temps, m3.temps) && m3.exc == Some(e)
  {
    steps, m3 := Caught(p, pc, m, 1, pc + 1, m1, e, b, m2, f);
    Marked(p, q, [Mark(n)], 0);
    PassMark(p, q, n);
    Move(p, At(pc, m), steps, q, m3, 1, q + 1);
    steps := steps + 1;
  }
}
