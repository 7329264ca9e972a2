/** What single instructions of statement code do to a run. */
module Steps {
  import opened Wrappers
  import opened Syntax
  import opened Semantics
  import opened Machine
  import opened Codegen
  import opened Simulation
  import opened Exits

  /** An expression has left `v`; the next instruction takes it off again. */
  ghost predicate Pushed(p: Program, c: Config, m: State, a: nat, pc1: nat, m1: State, v: Value, n: nat) {
    && Reaches(p, c, a, At(pc1, m1)) && Undisturbed(m, m1, n)
    && m1.exc == None && m1.stack == m.stack + [v] && m1.iters == m.iters
  }

  lemma DoPop(p: Program, c: Config, m: State, a: nat, pc1: nat, m1: State, v: Value, n: nat) returns (m2: State)
    requires Pushed(p, c, m, a, pc1, m1, v, n) && Here(p, pc1, [Pop])
    ensures m2 == m1.(stack := m.stack) && Reaches(p, c, a + 1, At(pc1 + 1, m2))
  {
    Fetch(p, pc1, [Pop]);
    m2 := m1.(stack := m.stack);
    assert m1.Drop() == m2;
    Then(p, c, a, At(pc1, m1));
  }

  lemma DoBind(p: Program, c: Config, m: State, a: nat, pc1: nat, m1: State, v: Value, n: nat, x: Name) returns (m2: State)
    requires Pushed(p, c, m, a, pc1, m1, v, n)
    requires Here(p, pc1, [BindFast(x)]) || Here(p, pc1, [StoreFast(Local(x))])
    ensures m2 == m1.(stack := m.stack, w := m1.w.Set(x, v)) && Reaches(p, c, a + 1, At(pc1 + 1, m2))
  {
    if Here(p, pc1, [BindFast(x)]) { Fetch(p, pc1, [BindFast(x)]); } else { Fetch(p, pc1, [StoreFast(Local(x))]); }
    m2 := m1.(stack := m.stack, w := m1.w.Set(x, v));
    assert m1.Drop() == m1.(stack := m.stack);
    Then(p, c, a, At(pc1, m1));
  }

  lemma DoStoreTemp(p: Program, c: Config, m: State, a: nat, pc1: nat, m1: State, v: Value, n: nat, i: nat) returns (m2: State)
    requires Pushed(p, c, m, a, pc1, m1, v, n) && Here(p, pc1, [StoreFast(Temp(i))]) && n <= i
    ensures m2 == m1.(stack := m.stack, temps := m1.temps[i := v]) && Reaches(p, c, a + 1, At(pc1 + 1, m2))
    ensures Undisturbed(m, m2, n)
  {
    Fetch(p, pc1, [StoreFast(Temp(i))]);
    m2 := m1.(stack := m.stack, temps := m1.temps[i := v]);
    assert m1.Drop() == m1.(stack := m.stack);
    Then(p, c, a, At(pc1, m1));
  }

  lemma DoRaise(p: Program, c: Config, m: State, a: nat, pc1: nat, m1: State, v: Value, n: nat, end: nat, keep: bool, cx: Ctx, fuel: nat)
    returns (t: Wit)
    requires Pushed(p, c, m, a, pc1, m1, v, n) && Here(p, pc1, [Raise])
    ensures Ends(p, c, m, end, keep, cx, n, fuel, (Threw(Raisable(p.env, v)), m1.w), t)
  {
    Fetch(p, pc1, [Raise]);
    assert m1.Drop() == m1.(stack := m.stack);
    Then(p, c, a, At(pc1, m1));
    t := Plainly(a + 1, pc1, m1.(stack := m.stack, exc := Some(Raisable(p.env, v))), cx);
  }

  lemma DoPush(p: Program, c: Config, a: nat, pc1: nat, m1: State, v: Value)
    requires Reaches(p, c, a, At(pc1, m1)) && Here(p, pc1, [Push(v)])
    ensures Reaches(p, c, a + 1, At(pc1 + 1, m1.PushV(v)))
  {
    Fetch(p, pc1, [Push(v)]);
    Then(p, c, a, At(pc1, m1));
  }

  // ----- try frames -----

  function FrameOf(i: Instr, m: State): TryFrame
    requires i.EnterTry?
  {
    TryFrame(i.catchLbl, i.elseLbl, i.endLbl, |m.stack|, |m.iters|)
  }

  lemma DoEnterTry(p: Program, c: Config, a: nat, pc: nat, m: State, i: Instr)
    requires Reaches(p, c, a, At(pc, m)) && i.EnterTry? && Here(p, pc, [i])
    ensures Reaches(p, c, a + 1, At(pc + 1, m.(tries := m.tries + [FrameOf(i, m)])))
  {
    Fetch(p, pc, [i]);
    Then(p, c, a, At(pc, m));
  }

  /** A region ends normally: its frame goes, and control passes the mark of its else or end label. */
  lemma DoEndTry(p: Program, c: Config, a: nat, pc: nat, m: State, tries: seq<TryFrame>, f: TryFrame, at: nat)
    returns (m2: State)
    requires Linked(p) && Reaches(p, c, a, At(pc, m)) && Here(p, pc, [EndTry]) && m.tries == tries + [f]
    requires Here(p, at, [Mark(if f.elseLbl != 0 then f.elseLbl else f.endLbl)])
    ensures m2 == m.(tries := tries) && Reaches(p, c, a + 2, At(at + 1, m2))
  {
    Fetch(p, pc, [EndTry]);
    var lbl := if f.elseLbl != 0 then f.elseLbl else f.endLbl;
    Marked(p, at, [Mark(lbl)], 0);
    PassMark(p, at, lbl);
    m2 := m.(tries := tries);
    assert m.tries[..|m.tries| - 1] == tries && m.tries[|m.tries| - 1] == f;
    Then(p, c, a, At(pc, m));
    Move(p, c, a + 1, at, m2, 1, at + 1);
  }

  lemma DoPopTry(p: Program, c: Config, a: nat, pc: nat, m: State, tries: seq<TryFrame>, f: TryFrame) returns (m2: State)
    requires Reaches(p, c, a, At(pc, m)) && Here(p, pc, [PopTry]) && m.tries == tries + [f]
    ensures m2 == m.(tries := tries, exc := None) && Reaches(p, c, a + 1, At(pc + 1, m2))
  {
    Fetch(p, pc, [PopTry]);
    m2 := m.(tries := tries, exc := None);
    assert m.tries[..|m.tries| - 1] == tries;
    Then(p, c, a, At(pc, m));
  }

  /** `Rethrow` once the exception has been popped: a different exception is thrown. */
  lemma DoRethrowLost(p: Program, c: Config, m: State, a: nat, pc: nat, m1: State, n: nat, end: nat, keep: bool, cx: Ctx, fuel: nat)
    returns (t: Wit)
    requires Reaches(p, c, a, At(pc, m1)) && Here(p, pc, [Rethrow]) && m1.exc == None
    requires Undisturbed(m, m1, n) && m.stack <= m1.stack && m.iters <= m1.iters
    ensures Ends(p, c, m, end, keep, cx, n, fuel, (Threw(RETHROW_ERROR), m1.w), t)
  {
    Fetch(p, pc, [Rethrow]);
    Then(p, c, a, At(pc, m1));
    t := Plainly(a + 1, pc, m1.(exc := Some(RETHROW_ERROR)), cx);
  }

  /** `Rethrow` with the region's frame still open passes the exception on. */
  lemma DoRethrow(p: Program, c: Config, m: State, a: nat, pc: nat, m1: State, f: TryFrame, e: Value, n: nat,
                  end: nat, keep: bool, cx: Ctx, fuel: nat) returns (t: Wit)
    requires Reaches(p, c, a, At(pc, m1)) && Here(p, pc, [Rethrow]) && m1.exc == Some(e)
    requires m1.tries == m.tries + [f] && TempsKept(n, m.temps, m1.temps) && m1.stack == m.stack && m1.iters == m.iters
    ensures Ends(p, c, m, end, keep, cx, n, fuel, (Threw(e), m1.w), t)
  {
    Fetch(p, pc, [Rethrow]);
    Then(p, c, a, At(pc, m1));
    assert m1.tries[..|m1.tries| - 1] == m.tries;
    t := Plainly(a + 1, pc, m1.(tries := m.tries), cx);
  }

  // ----- loops -----

  /** The countdown: one down and into the body, or the counter is dropped and the loop is over. */
  lemma DoCountdown(p: Program, c: Config, a: nat, pc: nat, m: State, start: nat, done: nat, at: nat, stack: seq<Value>, v: Value)
    returns (steps: nat, m2: State)
    requires Linked(p) && Reaches(p, c, a, At(pc, m)) && Here(p, pc, [Mark(start), LoopCountdown(done)])
    requires Here(p, at, [Mark(done)]) && m.stack == stack + [v] && v.Num?
    ensures v.r > 0.0 ==> m2 == m.(stack := stack + [Num(v.r - 1.0)]) && Reaches(p, c, steps, At(pc + 2, m2))
    ensures v.r <= 0.0 ==> m2 == m.(stack := stack) && Reaches(p, c, steps, At(at + 1, m2))
    ensures steps > a
  {
    Fetch(p, pc, [Mark(start), LoopCountdown(done)]);
    Marked(p, at, [Mark(done)], 0);
    PassMark(p, at, done);
    Then(p, c, a, At(pc, m));
    Then(p, c, a + 1, At(pc + 1, m));
    assert m.Drop() == m.(stack := stack) && m.Top() == v;
    steps := a + 2;
    if v.r > 0.0 {
      m2 := m.(stack := stack + [Num(v.r - 1.0)]);
    } else {
      m2 := m.(stack := stack);
      Move(p, c, a + 2, at, m2, 1, at + 1);
      steps := a + 3;
    }
  }

  lemma DoBadCount(p: Program, c: Config, m: State, a: nat, pc: nat, m1: State, start: nat, done: nat, v: Value, n: nat,
                   end: nat, cx: Ctx, fuel: nat) returns (t: Wit)
    requires Pushed(p, c, m, a, pc, m1, v, n) && Here(p, pc, [Mark(start), LoopCountdown(done)]) && !v.Num?
    ensures Ends(p, c, m, end, false, cx, n, fuel, (Threw(LOOP_COUNT_ERROR), m1.w), t)
  {
    hide TempsKept, Reaches, Run, SiteOk;
    Fetch(p, pc, [Mark(start), LoopCountdown(done)]);
    Then(p, c, a, At(pc, m1));
    Then(p, c, a + 1, At(pc + 1, m1));
    assert m1.Drop() == m1.(stack := m.stack);
    t := Plainly(a + 2, pc, m1.(stack := m.stack, exc := Some(LOOP_COUNT_ERROR)), cx);
  }

  /** Making the iterator pushes an iterator frame, or fails. */
  lemma DoIterNew(p: Program, c: Config, m: State, a: nat, pc1: nat, m1: State, v: Value, n: nat) returns (m2: State)
    requires Pushed(p, c, m, a, pc1, m1, v, n) && Here(p, pc1, [IterNew])
    ensures var r := p.env.iter(m1.w.trace, v);
            var base := m1.(stack := m.stack, w := m1.w.Log(IterMade(v)));
            if r.Ret? then m2 == base.(iters := m.iters + [r.value]) && Reaches(p, c, a + 1, At(pc1 + 1, m2))
            else m2 == base.(exc := Some(r.exc)) && Reaches(p, c, a + 1, Dispatch(p, m2))
  {
    Fetch(p, pc1, [IterNew]);
    assert m1.Drop() == m1.(stack := m.stack);
    Then(p, c, a, At(pc1, m1));
    var r := p.env.iter(m1.w.trace, v);
    var base := m1.(stack := m.stack, w := m1.w.Log(IterMade(v)));
    m2 := if r.Ret? then base.(iters := m.iters + [r.value]) else base.(exc := Some(r.exc));
  }

  function IterHead(start: nat, done: nat, binder: Option<Name>): Code {
    [Mark(start), IterNext, GotoIfNot(done), if binder.Some? then BindFast(binder.value) else Pop]
  }

  /** Asking for the next item. */
  lemma Advance(p: Program, c: Config, a: nat, pc: nat, m: State, start: nat, done: nat, binder: Option<Name>,
                iters: seq<Value>, it: Value)
    requires Reaches(p, c, a, At(pc, m)) && m.iters == iters + [it] && m.exc == None
    requires Here(p, pc, IterHead(start, done, binder))
    ensures var m1 := m.(w := m.w.Log(IterAdvanced(it)));
            Reaches(p, c, a + 2, match p.env.next(m.w.trace, it)
              case Item(v) => At(pc + 2, m1.PushV(v).PushV(Bool(true)))
              case Exhausted => At(pc + 2, m1.PushV(Bool(false)))
              case NextFails(e) => Dispatch(p, m1.(exc := Some(e))))
  {
    Fetch(p, pc, IterHead(start, done, binder));
    Then(p, c, a, At(pc, m));
    Then(p, c, a + 1, At(pc + 1, m));
  }

  lemma EnterBody(p: Program, c: Config, a: nat, pc: nat, m: State, start: nat, done: nat, binder: Option<Name>, v: Value)
    returns (m2: State)
    requires Reaches(p, c, a, At(pc + 2, m.PushV(v).PushV(Bool(true))))
    requires Here(p, pc, IterHead(start, done, binder))
    ensures m2 == m.(w := if binder.Some? then m.w.Set(binder.value, v) else m.w)
    ensures Reaches(p, c, a + 2, At(pc + 4, m2))
  {
    Fetch(p, pc, IterHead(start, done, binder));
    var m1 := m.PushV(v);
    assert m1.PushV(Bool(true)).Drop() == m1 && m1.Drop() == m;
    Then(p, c, a, At(pc + 2, m1.PushV(Bool(true))));
    Then(p, c, a + 1, At(pc + 3, m1));
    m2 := m.(w := if binder.Some? then m.w.Set(binder.value, v) else m.w);
  }

  lemma SkipBody(p: Program, c: Config, a: nat, pc: nat, m: State, start: nat, done: nat, binder: Option<Name>, at: nat)
    requires Linked(p) && Reaches(p, c, a, At(pc + 2, m.PushV(Bool(false))))
    requires Here(p, pc, IterHead(start, done, binder)) && Here(p, at, [Mark(done)])
    ensures Reaches(p, c, a + 2, At(at + 1, m))
  {
    Fetch(p, pc, IterHead(start, done, binder));
    Marked(p, at, [Mark(done)], 0);
    PassMark(p, at, done);
    assert m.PushV(Bool(false)).Drop() == m;
    Then(p, c, a, At(pc + 2, m.PushV(Bool(false))));
    Move(p, c, a + 1, at, m, 1, at + 1);
  }

  /** Dropping the iterator frame at the end of a `for`. */
  lemma DoIterEnd(p: Program, c: Config, a: nat, pc: nat, m: State, iters: seq<Value>, it: Value) returns (m2: State)
    requires Reaches(p, c, a, At(pc, m)) && Here(p, pc, [IterEnd]) && m.iters == iters + [it]
    ensures m2 == m.(iters := iters) && Reaches(p, c, a + 1, At(pc + 1, m2))
  {
    Fetch(p, pc, [IterEnd]);
    m2 := m.(iters := iters);
    assert m.iters[..|m.iters| - 1] == iters;
    Then(p, c, a, At(pc, m));
  }

  // ----- with -----

  /** The context is kept and its `__enter__` looked up. */
  lemma DoEnterRead(p: Program, c: Config, m: State, a: nat, pc: nat, m1: State, v: Value, n: nat, k: nat)
    returns (ma: State)
    requires Pushed(p, c, m, a, pc, m1, v, n) && Here(p, pc, GenWithEnter(n, k))
    ensures var (r, w) := ReadAttr(v, WITH_ENTER, p.env, m1.w);
            && ma == m1.(stack := m.stack, temps := m1.temps[n := v], w := w)
            && Reaches(p, c, a + 3, if r.Ret? then At(pc + 3, ma.PushV(r.value)) else Dispatch(p, ma.(exc := Some(r.exc))))
  {
    hide Reaches, ReadAttr, Dispatch;
    Fetch(p, pc, GenWithEnter(n, k));
    var mb := m1.(stack := m.stack, temps := m1.temps[n := v]);
    assert m1.Drop() == m1.(stack := m.stack);
    Then(p, c, a, At(pc, m1));
    Then(p, c, a + 1, At(pc + 1, mb));
    assert mb.PushV(v).Drop() == mb;
    Then(p, c, a + 2, At(pc + 2, mb.PushV(v)));
    ma := mb.(w := ReadAttr(v, WITH_ENTER, p.env, m1.w).1);
  }

  /** `ctx.__enter__()`: keep the context, call, keep the result and open the region; or fail. */
  lemma DoWithEnter(p: Program, c: Config, m: State, a: nat, pc: nat, m1: State, v: Value, n: nat, k: nat)
    returns (steps: nat, m2: State, ok: bool)
    requires Pushed(p, c, m, a, pc, m1, v, n) && Here(p, pc, GenWithEnter(n, k)) && CallsTidy(p.env)
    ensures var (r1, w1) := ReadAttr(v, WITH_ENTER, p.env, m1.w);
            ok ==> r1.Ret? && CallValue(r1.value, [], p.env, w1).0.Ret?
    ensures var (r1, w1) := ReadAttr(v, WITH_ENTER, p.env, m1.w);
            var (r2, w2) := CallValue(if r1.Ret? then r1.value else Unit, [], p.env, w1);
            if r1.Fail? then !ok && EnterFails(p, c, m, steps, m2, n, r1.exc, w1)
            else if r2.Fail? then !ok && EnterFails(p, c, m, steps, m2, n, r2.exc, w2)
            else ok && Reaches(p, c, steps, At(pc + 6, m2))
                 && m2 == m1.(stack := m.stack, temps := m1.temps[n := v][n + 2 := r2.value], w := w2,
                              tries := m.tries + [TryFrame(k, k + 1, k + 3, |m.stack|, |m.iters|)])
  {
    hide Reaches, ReadAttr, CallValue, Dispatch;
    Fetch(p, pc, GenWithEnter(n, k));
    var ma := DoEnterRead(p, c, m, a, pc, m1, v, n, k);
    var (r1, w1) := ReadAttr(v, WITH_ENTER, p.env, m1.w);
    if r1.Fail? {
      ok, steps, m2 := false, a + 3, ma.(exc := Some(r1.exc));
    } else {
      steps, m2, ok := DoEnterCall(p, c, m, a + 3, pc + 3, ma, r1.value, n, k);
    }
  }

  ghost predicate EnterFails(p: Program, c: Config, m: State, steps: nat, m2: State, n: nat, e: Value, w: World) {
    Undisturbed(m, m2, n) && m2.w == w && Thrown(p, c, m, e, steps, m2)
  }

  lemma DoEnterCall(p: Program, c: Config, m: State, a: nat, pc: nat, m1: State, f: Value, n: nat, k: nat)
    returns (steps: nat, m2: State, ok: bool)
    requires Reaches(p, c, a, At(pc, m1.PushV(f))) && m1.exc == None && m1.stack == m.stack && m1.iters == m.iters && CallsTidy(p.env)
    requires Undisturbed(m, m1, n) && pc + 3 <= |p.code| && p.code[pc] == CallN(0) && p.code[pc + 1] == StoreFast(Temp(n + 2))
    requires p.code[pc + 2] == EnterTry(k, k + 1, k + 3)
    ensures var (r, w) := CallValue(f, [], p.env, m1.w);
            if r.Fail? then !ok && EnterFails(p, c, m, steps, m2, n, r.exc, w)
            else ok && Reaches(p, c, steps, At(pc + 3, m2))
                 && m2 == m1.(temps := m1.temps[n + 2 := r.value], w := w,
                              tries := m.tries + [TryFrame(k, k + 1, k + 3, |m.stack|, |m.iters|)])
  {
    hide Run, CallValue;
    var (r, w) := CallValue(f, [], p.env, m1.w);
    var mb := m1.PushV(f);
    assert mb.stack == m1.stack + ([] + [f]);
    TidyCallStep(p, pc, mb, m1.stack, [], f);
    Then(p, c, a, At(pc, mb));
    var mc := m1.(w := w);
    assert mb.(stack := m1.stack, w := w) == mc;
    if r.Fail? {
      ok, steps, m2 := false, a + 1, mc.(exc := Some(r.exc));
    } else {
      var md := mc.(temps := mc.temps[n + 2 := r.value]);
      assert mc.PushV(r.value).Drop() == mc;
      Then(p, c, a + 1, At(pc + 1, mc.PushV(r.value)));
      Then(p, c, a + 2, At(pc + 2, md));
      ok, steps, m2 := true, a + 3, md.(tries := m.tries + [TryFrame(k, k + 1, k + 3, |m.stack|, |m.iters|)]);
    }
  }

  /** `__with_exit__(ctx, exc)`, the exception pushed by the instruction `i`. */
  lemma DoExitCall(p: Program, c: Config, a: nat, pc: nat, m: State, ctx: nat, i: Instr, v: Value)
    returns (m2: State)
    requires Reaches(p, c, a, At(pc, m)) && m.exc == None && ctx in m.temps && CallsTidy(p.env)
    requires Here(p, pc, [LoadFast(Temp(ctx)), i] + CALL_EXIT)
    requires (i == Push(v)) || (i.LoadFast? && i.slot.Temp? && i.slot.id in m.temps && m.temps[i.slot.id] == v)
    ensures var (r, w) := CallValue(Builtin(WITH_EXIT), [m.temps[ctx], v], p.env, m.w);
            if r.Ret? then m2 == m.(w := w).PushV(r.value) && Reaches(p, c, a + 4, At(pc + 4, m2))
            else m2 == m.(w := w, exc := Some(r.exc)) && Reaches(p, c, a + 4, Dispatch(p, m2))
  {
    hide Reaches, CallValue;
    var code := [LoadFast(Temp(ctx)), i] + CALL_EXIT;
    assert code == [LoadFast(Temp(ctx)), i, Load(WITH_EXIT), CallN(2)];
    Fetch(p, pc, code);
    var x, f := m.temps[ctx], Builtin(WITH_EXIT);
    Then(p, c, a, At(pc, m));
    Then(p, c, a + 1, At(pc + 1, m.PushV(x)));
    Then(p, c, a + 2, At(pc + 2, m.PushV(x).PushV(v)));
    var mb := m.PushV(x).PushV(v).PushV(f);
    m2 := CallTwo(p, c, a + 3, pc + 3, m, mb, x, v, f);
  }

  lemma CallTwo(p: Program, c: Config, a: nat, pc: nat, m: State, mb: State, x: Value, v: Value, f: Value) returns (m2: State)
    requires Reaches(p, c, a, At(pc, mb)) && m.exc == None && pc < |p.code| && p.code[pc] == CallN(2) && CallsTidy(p.env)
    requires mb == m.PushV(x).PushV(v).PushV(f)
    ensures var (r, w) := CallValue(f, [x, v], p.env, m.w);
            if r.Ret? then m2 == m.(w := w).PushV(r.value) && Reaches(p, c, a + 1, At(pc + 1, m2))
            else m2 == m.(w := w, exc := Some(r.exc)) && Reaches(p, c, a + 1, Dispatch(p, m2))
  {
    assert mb.stack == m.stack + ([x, v] + [f]);
    TidyCallStep(p, pc, mb, m.stack, [x, v], f);
    var (r, w) := CallValue(f, [x, v], p.env, m.w);
    Then(p, c, a, At(pc, mb));
    assert mb.(stack := m.stack, w := w) == m.(w := w);
    m2 := if r.Ret? then m.(w := w).PushV(r.value) else m.(w := w, exc := Some(r.exc));
  }
}
