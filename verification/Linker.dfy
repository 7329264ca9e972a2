/** Labels become positions: the pass that rewrites every jump, and why the machine runs
    the rewritten code exactly as it runs the code with labels. */
module Linker {
  import opened Wrappers
  import opened Syntax
  import opened Semantics
  import opened Machine
  import opened Codegen
  import opened Simulation
  import opened Labels

  /** Where each label is marked; the last mark wins. */
  function Table(code: Code): map<nat, nat> {
    if code == [] then map[] else
    var t := Table(code[..|code| - 1]);
    var last := code[|code| - 1];
    if last.Mark? then t[last.lbl := |code| - 1] else t
  }

  predicate Defined(i: Instr, t: map<nat, nat>) {
    forall l :: l in Targets(i) ==> l in t
  }

  predicate Resolvable(code: Code, t: map<nat, nat>) {
    forall i :: 0 <= i < |code| ==> Defined(code[i], t)
  }

  /** Label 0 as the `else` label of a handler means that there is none, before and after. */
  function Absolute(i: Instr, t: map<nat, nat>): Instr
    requires Defined(i, t)
  {
    match i
    case Goto(l) => Goto(t[l])
    case GotoIf(l) => GotoIf(t[l])
    case GotoIfNot(l) => GotoIfNot(t[l])
    case LoopCountdown(l) => LoopCountdown(t[l])
    case EnterTry(c, e, d) => EnterTry(t[c], if e != 0 then t[e] else 0, t[d])
    case _ => i
  }

  function Relink(code: Code, t: map<nat, nat>): (r: Code)
    requires Resolvable(code, t)
    ensures |r| == |code|
  {
    seq(|code|, i requires 0 <= i < |code| => Absolute(code[i], t))
  }

  lemma {:induction false} TableSound(code: Code)
    ensures forall l :: l in Table(code) <==> Has(code, l)
    ensures forall l :: l in Table(code) ==> Table(code)[l] < |code| && code[Table(code)[l]] == Mark(l)
    decreases |code|
  {
    if code != [] {
      var front := code[..|code| - 1];
      TableSound(front);
      forall l: nat ensures l in Table(code) <==> Has(code, l) {
        if Has(front, l) {
          var i :| 0 <= i < |front| && front[i] == Mark(l);
          assert code[i] == Mark(l);
        }
        if Has(code, l) {
          var i :| 0 <= i < |code| && code[i] == Mark(l);
          if i < |code| - 1 { assert front[i] == Mark(l); }
        }
      }
    }
  }

  lemma TableStep(code: Code, n: nat)
    requires n < |code|
    ensures Table(code[..n + 1]) == if code[n].Mark? then Table(code[..n])[code[n].lbl := n] else Table(code[..n])
  {
    assert code[..n + 1][..n] == code[..n];
  }

  /** First collect the marks, then rewrite the jumps in place; a label without a mark is an error. */
  method ResolveLabels(code: array<Instr>) returns (undefined: bool)
    modifies code
    ensures undefined <==> !Resolvable(old(code[..]), Table(old(code[..])))
    ensures !undefined ==> code[..] == Relink(old(code[..]), Table(old(code[..])))
  {
    ghost var was := code[..];
    var labels: map<nat, nat> := map[];
    var i := 0;
    while i < code.Length
      invariant 0 <= i <= code.Length && code[..] == was && labels == Table(was[..i])
    {
      TableStep(was, i);
      if code[i].Mark? {
        labels := labels[code[i].lbl := i];
      }
      i := i + 1;
    }
    assert was[..i] == was;
    i := 0;
    undefined := false;
    while i < code.Length
      invariant 0 <= i <= code.Length && labels == Table(was) && |was| == code.Length
      invariant forall j :: 0 <= j < i ==> Defined(was[j], labels) && code[j] == Absolute(was[j], labels)
      invariant forall j :: i <= j < code.Length ==> code[j] == was[j]
      invariant !undefined
    {
      if !Known(code[i], labels) {
        undefined := true;
        return;
      }
      KnownIsDefined(code[i], labels);
      code[i] := Absolute(code[i], labels);
      i := i + 1;
    }
    assert Resolvable(was, labels);
    assert code[..] == Relink(was, labels);
  }

  /** The lookups the pass makes for one instruction. */
  predicate Known(i: Instr, t: map<nat, nat>)
    ensures Known(i, t) == Defined(i, t)
  {
    KnownIsDefined(i, t);
    match i
    case Goto(l) => l in t
    case GotoIf(l) => l in t
    case GotoIfNot(l) => l in t
    case LoopCountdown(l) => l in t
    case EnterTry(c, e, d) => c in t && (e != 0 ==> e in t) && d in t
    case _ => true
  }

  lemma KnownIsDefined(i: Instr, t: map<nat, nat>)
    ensures i.Goto? ==> Defined(i, t) == (i.lbl in t) && i.lbl in Targets(i)
    ensures i.EnterTry? ==> Defined(i, t) == (i.catchLbl in t && (i.elseLbl != 0 ==> i.elseLbl in t) && i.endLbl in t)
  {
    if i.Goto? {
      assert i.lbl in Targets(i);
    }
    if i.EnterTry? {
      assert i.catchLbl in Targets(i) && i.endLbl in Targets(i) && (i.elseLbl != 0 ==> i.elseLbl in Targets(i));
    }
  }

  // ----- the machine on rewritten code -----

  /** The `else` block of a handler is never at position 0, so the sentinel stays apart. */
  predicate ElseApart(code: Code, t: map<nat, nat>)
    requires Resolvable(code, t)
  {
    forall i :: 0 <= i < |code| && code[i].EnterTry? && code[i].elseLbl != 0 ==> Absolute(code[i], t).elseLbl != 0
  }

  ghost predicate Linkable(p: Program) {
    Resolvable(p.code, p.labels) && ElseApart(p.code, p.labels)
    && forall l :: l in p.labels ==> p.labels[l] < |p.code|
  }

  function Positions(n: nat): (r: map<nat, nat>)
    ensures forall i: nat :: (i in r <==> i < n) && (i in r ==> r[i] == i)
  {
    if n == 0 then map[] else Positions(n - 1)[n - 1 := n - 1]
  }

  /** After linking, a label is its own position. */
  function Linking(p: Program): Program
    requires Linkable(p)
  {
    Program(Relink(p.code, p.labels), Positions(|p.code|), p.env)
  }

  predicate FrameOk(f: TryFrame, t: map<nat, nat>) {
    f.catchLbl in t && f.endLbl in t && (f.elseLbl != 0 ==> f.elseLbl in t && t[f.elseLbl] != 0)
  }

  predicate FramesOk(fs: seq<TryFrame>, t: map<nat, nat>) {
    forall i :: 0 <= i < |fs| ==> FrameOk(fs[i], t)
  }

  function LinkFrame(f: TryFrame, t: map<nat, nat>): TryFrame
    requires FrameOk(f, t)
  {
    f.(catchLbl := t[f.catchLbl], elseLbl := if f.elseLbl != 0 then t[f.elseLbl] else 0, endLbl := t[f.endLbl])
  }

  function LinkFrames(fs: seq<TryFrame>, t: map<nat, nat>): (r: seq<TryFrame>)
    requires FramesOk(fs, t)
    ensures |r| == |fs| && forall i :: 0 <= i < |r| ==> r[i] == LinkFrame(fs[i], t)
  {
    if fs == [] then [] else LinkFrames(fs[..|fs| - 1], t) + [LinkFrame(fs[|fs| - 1], t)]
  }

  function LinkState(m: State, t: map<nat, nat>): State
    requires FramesOk(m.tries, t)
  {
    m.(tries := LinkFrames(m.tries, t))
  }

  predicate ConfigOk(c: Config, t: map<nat, nat>) {
    c.Stuck? || FramesOk(if c.At? then c.m.tries else c.left.tries, t)
  }

  function LinkConfig(c: Config, t: map<nat, nat>): Config
    requires ConfigOk(c, t)
  {
    match c
    case At(pc, m) => At(pc, LinkState(m, t))
    case Returns(v, m) => Returns(v, LinkState(m, t))
    case Uncaught(e, m) => Uncaught(e, LinkState(m, t))
    case Stuck => Stuck
  }

  lemma DispatchLinks(p: Program, m: State)
    requires Linkable(p) && FramesOk(m.tries, p.labels)
    ensures ConfigOk(Dispatch(p, m), p.labels)
    ensures Dispatch(Linking(p), LinkState(m, p.labels)) == LinkConfig(Dispatch(p, m), p.labels)
  {
  }

  lemma ThrowLinks(p: Program, m: State, e: Value)
    requires Linkable(p) && FramesOk(m.tries, p.labels)
    ensures ConfigOk(ThrowValue(p, m, e), p.labels)
    ensures ThrowValue(Linking(p), LinkState(m, p.labels), e) == LinkConfig(ThrowValue(p, m, e), p.labels)
  {
    DispatchLinks(p, m.(exc := Some(e)));
  }

  lemma ErrorLinks(p: Program, m: State, e: Value)
    requires Linkable(p) && FramesOk(m.tries, p.labels)
    ensures ConfigOk(HostError(p, m, e), p.labels)
    ensures HostError(Linking(p), LinkState(m, p.labels), e) == LinkConfig(HostError(p, m, e), p.labels)
  {
    DispatchLinks(p, m);
    DispatchLinks(p, m.(exc := Some(e)));
  }

  lemma AnswerLinks(p: Program, pc: nat, m: State, r: Response)
    requires Linkable(p) && FramesOk(m.tries, p.labels)
    ensures ConfigOk(Answer(p, pc, m, r), p.labels)
    ensures Answer(Linking(p), pc, LinkState(m, p.labels), r) == LinkConfig(Answer(p, pc, m, r), p.labels)
  {
    if r.Fail? { ErrorLinks(p, m, r.exc); }
  }

  lemma TargetLinks(p: Program, i: Instr, l: nat)
    requires Linkable(p) && Defined(i, p.labels) && l in Targets(i)
    ensures Target(Linking(p), p.labels[l]) == Target(p, l)
  {
  }

  lemma EnvLinks(p: Program)
    requires Linkable(p)
    ensures Linking(p).env == p.env
  {
  }

  lemma StepTwoLinks(p: Program, pc: nat, m: State, a: Value, b: Value, i: Instr)
    requires Linkable(p) && FramesOk(m.tries, p.labels) && Defined(i, p.labels)
    ensures var t := p.labels;
            ConfigOk(StepTwo(p, pc, m, a, b, i), t)
            && StepTwo(Linking(p), pc, LinkState(m, t), a, b, Absolute(i, t)) == LinkConfig(StepTwo(p, pc, m, a, b, i), t)
  {
    hide Linkable, FramesOk, LinkFrames, Positions, Defined, Linking, ApplyBinary, HostError, Answer;
    if i.BinaryOp? {
      EnvLinks(p);
      AnswerLinks(p, pc, m, ApplyBinary(p.env, i.bop, a, b));
    } else if i.Index? {
      ErrorLinks(p, m, INDEX_ERROR);
    } else if i.MatchEq? {
      EnvLinks(p);
    }
  }

  lemma BranchLinks(p: Program, pc: nat, m: State, v: Value, i: Instr)
    requires Linkable(p) && FramesOk(m.tries, p.labels) && Defined(i, p.labels) && (i.GotoIf? || i.GotoIfNot?)
    ensures var t := p.labels;
            ConfigOk(StepTop(p, pc, m, v, i), t)
            && StepTop(Linking(p), pc, LinkState(m, t), v, Absolute(i, t)) == LinkConfig(StepTop(p, pc, m, v, i), t)
  {
    assert i.lbl in Targets(i);
    TargetLinks(p, i, i.lbl);
    EnvLinks(p);
    hide Linkable, FramesOk, LinkFrames, Positions, Defined, Linking, HostError, Target, Truthy, StepTwo, Answer;
  }

  lemma CountdownLinks(p: Program, pc: nat, m: State, v: Value, i: Instr)
    requires Linkable(p) && FramesOk(m.tries, p.labels) && Defined(i, p.labels) && i.LoopCountdown?
    ensures var t := p.labels;
            ConfigOk(StepTop(p, pc, m, v, i), t)
            && StepTop(Linking(p), pc, LinkState(m, t), v, Absolute(i, t)) == LinkConfig(StepTop(p, pc, m, v, i), t)
  {
    assert i.lbl in Targets(i);
    TargetLinks(p, i, i.lbl);
    hide Linkable, FramesOk, LinkFrames, Positions, Defined, Linking, HostError, Target, StepTwo, Answer;
    ErrorLinks(p, m, LOOP_COUNT_ERROR);
  }

  /** Instructions on one value that can raise an error. */
  predicate MayFail(i: Instr) {
    i.UnaryOp? || i.GetAttr? || i.IterNew? || i.Raise? || i.ListLen?
  }

  lemma MayFailLinks(p: Program, pc: nat, m: State, v: Value, i: Instr)
    requires Linkable(p) && FramesOk(m.tries, p.labels) && MayFail(i)
    ensures var t := p.labels;
            ConfigOk(StepTop(p, pc, m, v, i), t)
            && StepTop(Linking(p), pc, LinkState(m, t), v, i) == LinkConfig(StepTop(p, pc, m, v, i), t)
  {
    hide StepTop, Linkable, FramesOk, Linking, LinkConfig, LinkState, ConfigOk;
    if i.UnaryOp? || i.GetAttr? {
      ReadLinks(p, pc, m, v, i);
    } else if i.IterNew? {
      IterNewLinks(p, pc, m, v, i);
    } else if i.Raise? {
      RaiseLinks(p, pc, m, v, i);
    } else {
      ListLenLinks(p, pc, m, v, i);
    }
  }

  lemma ReadLinks(p: Program, pc: nat, m: State, v: Value, i: Instr)
    requires Linkable(p) && FramesOk(m.tries, p.labels) && (i.UnaryOp? || i.GetAttr?)
    ensures var t := p.labels;
            ConfigOk(StepTop(p, pc, m, v, i), t)
            && StepTop(Linking(p), pc, LinkState(m, t), v, i) == LinkConfig(StepTop(p, pc, m, v, i), t)
  {
    EnvLinks(p);
    hide Linkable, FramesOk, LinkFrames, Positions, Linking, StepTwo, ApplyUnary, ReadAttr, Answer;
    if i.UnaryOp? {
      AnswerLinks(p, pc, m, ApplyUnary(p.env, i.op, v));
    } else {
      AnswerLinks(p, pc, m.(w := ReadAttr(v, i.field, p.env, m.w).1), ReadAttr(v, i.field, p.env, m.w).0);
    }
  }

  lemma RaiseLinks(p: Program, pc: nat, m: State, v: Value, i: Instr)
    requires Linkable(p) && FramesOk(m.tries, p.labels) && i.Raise?
    ensures var t := p.labels;
            ConfigOk(StepTop(p, pc, m, v, i), t)
            && StepTop(Linking(p), pc, LinkState(m, t), v, i) == LinkConfig(StepTop(p, pc, m, v, i), t)
  {
    EnvLinks(p);
    hide Linkable, FramesOk, LinkFrames, Positions, Linking, StepTwo, HostError, ThrowValue, LinkConfig, LinkState,
         ConfigOk;
    ThrowLinks(p, m, v);
    ErrorLinks(p, m, NOT_EXCEPTION_ERROR);
  }

  lemma IterNewLinks(p: Program, pc: nat, m: State, v: Value, i: Instr)
    requires Linkable(p) && FramesOk(m.tries, p.labels) && i.IterNew?
    ensures var t := p.labels;
            ConfigOk(StepTop(p, pc, m, v, i), t)
            && StepTop(Linking(p), pc, LinkState(m, t), v, i) == LinkConfig(StepTop(p, pc, m, v, i), t)
  {
    EnvLinks(p);
    hide Linkable, FramesOk, LinkFrames, Positions, Linking, StepTwo, HostError;
    if p.env.iter(m.w.trace, v).Fail? { ErrorLinks(p, m.(w := m.w.Log(IterMade(v))), p.env.iter(m.w.trace, v).exc); }
  }

  lemma ListLenLinks(p: Program, pc: nat, m: State, v: Value, i: Instr)
    requires Linkable(p) && FramesOk(m.tries, p.labels) && i.ListLen?
    ensures var t := p.labels;
            ConfigOk(StepTop(p, pc, m, v, i), t)
            && StepTop(Linking(p), pc, LinkState(m, t), v, i) == LinkConfig(StepTop(p, pc, m, v, i), t)
  {
    EnvLinks(p);
    hide Linkable, FramesOk, LinkFrames, Positions, Linking, StepTwo, HostError;
    ErrorLinks(p, m, LIST_LEN_ERROR);
  }

  lemma StepTopLinks(p: Program, pc: nat, m: State, v: Value, i: Instr)
    requires Linkable(p) && FramesOk(m.tries, p.labels) && Defined(i, p.labels)
    ensures var t := p.labels;
            ConfigOk(StepTop(p, pc, m, v, i), t)
            && StepTop(Linking(p), pc, LinkState(m, t), v, Absolute(i, t)) == LinkConfig(StepTop(p, pc, m, v, i), t)
  {
    hide StepTop, Linkable, FramesOk, LinkFrames, Positions, Linking, LinkState, LinkConfig, ConfigOk;
    if i.GotoIf? || i.GotoIfNot? {
      BranchLinks(p, pc, m, v, i);
    } else if i.LoopCountdown? {
      CountdownLinks(p, pc, m, v, i);
    } else if MayFail(i) {
      assert Absolute(i, p.labels) == i;
      MayFailLinks(p, pc, m, v, i);
    } else if Quiet(i) {
      QuietLinks(p, pc, m, v, i);
    } else {
      DeeperLinks(p, pc, m, v, i);
    }
  }

  /** Instructions on one value that neither fail nor jump. */
  predicate Quiet(i: Instr) {
    i.Pop? || i.StoreFast? || i.BindFast? || i.IsList?
  }

  lemma QuietLinks(p: Program, pc: nat, m: State, v: Value, i: Instr)
    requires Linkable(p) && FramesOk(m.tries, p.labels) && Defined(i, p.labels) && Quiet(i)
    ensures var t := p.labels;
            ConfigOk(StepTop(p, pc, m, v, i), t)
            && StepTop(Linking(p), pc, LinkState(m, t), v, Absolute(i, t)) == LinkConfig(StepTop(p, pc, m, v, i), t)
  {
    hide Linkable, FramesOk, LinkFrames, Positions, Linking, Defined, StepTwo;
  }

  lemma DeeperLinks(p: Program, pc: nat, m: State, v: Value, i: Instr)
    requires Linkable(p) && FramesOk(m.tries, p.labels) && Defined(i, p.labels) && !Quiet(i) && !MayFail(i) && !i.GotoIf? && !i.GotoIfNot? && !i.LoopCountdown?
    ensures var t := p.labels;
            ConfigOk(StepTop(p, pc, m, v, i), t)
            && StepTop(Linking(p), pc, LinkState(m, t), v, Absolute(i, t)) == LinkConfig(StepTop(p, pc, m, v, i), t)
  {
    hide Linkable, FramesOk, LinkFrames, Positions, Linking, Defined, StepTwo;
    if m.stack != [] { StepTwoLinks(p, pc, m.Drop(), m.Top(), v, i); }
  }

  /** The instruction at a position of the rewritten code. */
  lemma CodeLinks(p: Program, pc: nat)
    requires Linkable(p) && pc < |p.code|
    ensures Defined(p.code[pc], p.labels) && |Linking(p).code| == |p.code|
    ensures Linking(p).code[pc] == Absolute(p.code[pc], p.labels) && Linking(p).env == p.env
  {
  }

  /** One step on the rewritten code is one step on the code with labels. */
  lemma StepLinks(p: Program, c: Config)
    requires Linkable(p) && ConfigOk(c, p.labels)
    ensures ConfigOk(Step(p, c), p.labels) && Step(Linking(p), LinkConfig(c, p.labels)) == LinkConfig(Step(p, c), p.labels)
  {
    if c.At? && c.pc < |p.code| {
      var i := p.code[c.pc];
      if Consumes(i) { ConsumeLinks(p, c.pc, c.m); }
      else if i.IterNext? { IterNextLinks(p, c.pc, c.m); }
      else if i.EnterTry? { EnterTryLinks(p, c.pc, c.m); }
      else if i.EndTry? { EndTryLinks(p, c.pc, c.m); }
      else if i.PopTry? { PopTryLinks(p, c.pc, c.m); }
      else if i.Rethrow? { RethrowLinks(p, c.pc, c.m); }
      else if i.CallN? { CallLinks(p, c.pc, c.m, i.argc); }
      else { PlainLinks(p, c.pc, c.m); }
    }
  }

  /** Instructions that start by taking the top of the stack. */
  predicate Consumes(i: Instr) {
    i.Pop? || i.StoreFast? || i.BindFast? || i.UnaryOp? || i.GetAttr? || i.GotoIf? || i.GotoIfNot? || i.LoopCountdown?
    || i.IterNew? || i.Raise? || i.IsList? || i.ListLen? || i.BinaryOp? || i.MatchEq? || i.Index?
  }

  lemma ConsumeStep(p: Program, pc: nat, m: State)
    requires pc < |p.code| && Consumes(p.code[pc])
    ensures Step(p, At(pc, m)) == if m.stack == [] then Stuck else StepTop(p, pc, m.Drop(), m.Top(), p.code[pc])
  {
    hide StepTop, Dispatch, HostError, Answer;
  }

  lemma ConsumeLinks(p: Program, pc: nat, m: State)
    requires Linkable(p) && FramesOk(m.tries, p.labels) && pc < |p.code| && Consumes(p.code[pc])
    ensures var t := p.labels;
            ConfigOk(Step(p, At(pc, m)), t) && Step(Linking(p), At(pc, LinkState(m, t))) == LinkConfig(Step(p, At(pc, m)), t)
  {
    CodeLinks(p, pc);
    hide Linkable, FramesOk, LinkFrames, Positions, Defined, Linking, StepTop, Step;
    var i := p.code[pc];
    assert Consumes(Absolute(i, p.labels));
    ConsumeStep(p, pc, m);
    ConsumeStep(Linking(p), pc, LinkState(m, p.labels));
    if m.stack != [] { StepTopLinks(p, pc, m.Drop(), m.Top(), i); }
  }

  lemma PlainLinks(p: Program, pc: nat, m: State)
    requires Linkable(p) && FramesOk(m.tries, p.labels) && pc < |p.code| && !Consumes(p.code[pc])
    requires !p.code[pc].IterNext? && !p.code[pc].EnterTry? && !p.code[pc].EndTry? && !p.code[pc].PopTry? && !p.code[pc].Rethrow? && !p.code[pc].CallN?
    ensures var t := p.labels;
            ConfigOk(Step(p, At(pc, m)), t) && Step(Linking(p), At(pc, LinkState(m, t))) == LinkConfig(Step(p, At(pc, m)), t)
  {
    hide Linkable, FramesOk, LinkFrames, Positions, Defined, Linking, StepTop, Answer;
    CodeLinks(p, pc);
    var i := p.code[pc];
    match i
    case LoadGlobal(x) => AnswerLinks(p, pc, m, p.env.global(m.w.trace, x));
    case Goto(l) => KnownIsDefined(i, p.labels); TargetLinks(p, i, l);
    case _ =>
  }

  lemma IterNextLinks(p: Program, pc: nat, m: State)
    requires Linkable(p) && FramesOk(m.tries, p.labels) && pc < |p.code| && p.code[pc] == IterNext
    ensures var t := p.labels;
            ConfigOk(Step(p, At(pc, m)), t) && Step(Linking(p), At(pc, LinkState(m, t))) == LinkConfig(Step(p, At(pc, m)), t)
  {
    hide Linkable, FramesOk, LinkFrames, Positions, Defined, Linking, HostError, StepTop;
    CodeLinks(p, pc);
    if m.iters != [] {
      var it := m.iters[|m.iters| - 1];
      var r := p.env.next(m.w.trace, it);
      if r.NextFails? { ErrorLinks(p, m.(w := m.w.Log(IterAdvanced(it))), r.exc); }
    }
  }

  lemma EnterTryLinks(p: Program, pc: nat, m: State)
    requires Linkable(p) && FramesOk(m.tries, p.labels) && pc < |p.code| && p.code[pc].EnterTry?
    ensures var t := p.labels;
            ConfigOk(Step(p, At(pc, m)), t) && Step(Linking(p), At(pc, LinkState(m, t))) == LinkConfig(Step(p, At(pc, m)), t)
  {
    var t, i := p.labels, p.code[pc];
    var f := TryFrame(i.catchLbl, i.elseLbl, i.endLbl, |m.stack|, |m.iters|);
    NewFrameOk(p, pc, f);
    PushFrame(m.tries, f, t);
    hide Linkable, FramesOk, LinkFrames, Positions, Defined, Linking;
    CodeLinks(p, pc);
  }

  lemma NewFrameOk(p: Program, pc: nat, f: TryFrame)
    requires Linkable(p) && pc < |p.code| && p.code[pc].EnterTry?
    requires var i := p.code[pc]; f.catchLbl == i.catchLbl && f.elseLbl == i.elseLbl && f.endLbl == i.endLbl
    ensures FrameOk(f, p.labels)
  {
    KnownIsDefined(p.code[pc], p.labels);
  }

  lemma PushFrame(fs: seq<TryFrame>, f: TryFrame, t: map<nat, nat>)
    requires FramesOk(fs, t) && FrameOk(f, t)
    ensures FramesOk(fs + [f], t) && LinkFrames(fs + [f], t) == LinkFrames(fs, t) + [LinkFrame(f, t)]
  {
    assert (fs + [f])[..|fs|] == fs;
  }

  lemma PopFrame(fs: seq<TryFrame>, t: map<nat, nat>)
    requires FramesOk(fs, t) && fs != []
    ensures FramesOk(fs[..|fs| - 1], t) && FrameOk(fs[|fs| - 1], t)
    ensures LinkFrames(fs[..|fs| - 1], t) == LinkFrames(fs, t)[..|fs| - 1]
  {
  }

  lemma EndTryLinks(p: Program, pc: nat, m: State)
    requires Linkable(p) && FramesOk(m.tries, p.labels) && pc < |p.code| && p.code[pc] == EndTry
    ensures var t := p.labels;
            ConfigOk(Step(p, At(pc, m)), t) && Step(Linking(p), At(pc, LinkState(m, t))) == LinkConfig(Step(p, At(pc, m)), t)
  {
    assert Linking(p).code[pc] == EndTry;
    if m.tries != [] { PopFrame(m.tries, p.labels); }
  }

  lemma PopTryLinks(p: Program, pc: nat, m: State)
    requires Linkable(p) && FramesOk(m.tries, p.labels) && pc < |p.code| && p.code[pc] == PopTry
    ensures var t := p.labels;
            ConfigOk(Step(p, At(pc, m)), t) && Step(Linking(p), At(pc, LinkState(m, t))) == LinkConfig(Step(p, At(pc, m)), t)
  {
    assert Linking(p).code[pc] == PopTry;
    if m.tries != [] { PopFrame(m.tries, p.labels); }
  }

  lemma RethrowLinks(p: Program, pc: nat, m: State)
    requires Linkable(p) && FramesOk(m.tries, p.labels) && pc < |p.code| && p.code[pc] == Rethrow
    ensures var t := p.labels;
            ConfigOk(Step(p, At(pc, m)), t) && Step(Linking(p), At(pc, LinkState(m, t))) == LinkConfig(Step(p, At(pc, m)), t)
  {
    hide Linkable, FramesOk, LinkFrames, Positions, Defined, Linking, HostError, StepTop, Dispatch;
    CodeLinks(p, pc);
    if m.exc.None? {
      ErrorLinks(p, m, RETHROW_ERROR);
    } else {
      if m.tries != [] { PopFrame(m.tries, p.labels); }
      DispatchLinks(p, m.(tries := if m.tries == [] then [] else m.tries[..|m.tries| - 1]));
    }
  }

  lemma CallLinks(p: Program, pc: nat, m: State, argc: nat)
    requires Linkable(p) && FramesOk(m.tries, p.labels) && pc < |p.code| && p.code[pc] == CallN(argc)
    ensures var t := p.labels;
            ConfigOk(Step(p, At(pc, m)), t) && Step(Linking(p), At(pc, LinkState(m, t))) == LinkConfig(Step(p, At(pc, m)), t)
  {
    hide Linkable, FramesOk, LinkFrames, Positions, Defined, Linking, StepTop, Answer, HostError;
    CodeLinks(p, pc);
    if argc + 1 <= |m.stack| {
      var h := |m.stack| - 1 - argc;
      var f, args := m.Top(), m.stack[h..|m.stack| - 1];
      var (r, w1) := CallValue(f, args, p.env, m.w);
      var left := if r.Ret? then p.env.leaves(m.w.trace, f, args) else [];
      AnswerLinks(p, pc, m.(stack := m.stack[..h], iters := m.iters + left, w := w1), r);
    }
  }

  /** A whole run on the rewritten code is the run on the code with labels. */
  lemma {:induction false} RunLinks(p: Program, c: Config, n: nat)
    requires Linkable(p) && ConfigOk(c, p.labels)
    ensures ConfigOk(Run(p, c, n), p.labels) && Run(Linking(p), LinkConfig(c, p.labels), n) == LinkConfig(Run(p, c, n), p.labels)
    decreases n
  {
    if n > 0 {
      StepLinks(p, c);
      RunLinks(p, Step(p, c), n - 1);
    }
  }
}
