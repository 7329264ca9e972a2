/** What it means for a stretch of machine code to do what a construct means, and how
    such stretches are put together. */
module Simulation {
  import opened Wrappers
  import opened Syntax
  import opened Semantics
  import opened Machine
  import opened Codegen

  /** Every label is marked at the position the label table gives. */
  ghost predicate Linked(p: Program) {
    forall i :: 0 <= i < |p.code| && p.code[i].Mark? ==>
      p.code[i].lbl in p.labels && p.labels[p.code[i].lbl] == i
  }

  /** No call leaves an iterator frame behind. */
  ghost predicate CallsTidy(env: Env) {
    forall tr: Trace, f: Value, args: seq<Value> :: env.leaves(tr, f, args) == []
  }

  ghost predicate Ready(p: Program, cx: Ctx) {
    Linked(p) && cx.env == p.env && CallsTidy(cx.env)
  }

  // ----- runs -----

  /** The machine gets from `c` to `d` in `n` steps. (Quantified so that a proof that only
      composes runs never has to look inside one.) */
  ghost predicate Reaches(p: Program, c: Config, n: nat, d: Config) {
    forall k {:trigger Run(p, c, k)} :: k == n ==> Run(p, c, k) == d
  }

  lemma {:induction false} RunAdd(p: Program, c: Config, a: nat, b: nat)
    ensures Run(p, c, a + b) == Run(p, Run(p, c, a), b)
    decreases a
  {
    if a != 0 {
      RunAdd(p, Step(p, c), a - 1, b);
    }
  }

  lemma Chain(p: Program, c: Config, a: nat, d: Config, b: nat, e: Config)
    requires Reaches(p, c, a, d) && Reaches(p, d, b, e)
    ensures Reaches(p, c, a + b, e)
  {
    RunAdd(p, c, a, b);
    assert Run(p, c, a) == d && Run(p, d, b) == e;
  }

  lemma Stay(p: Program, c: Config)
    ensures Reaches(p, c, 0, c)
  {
    assert Run(p, c, 0) == c;
  }

  lemma One(p: Program, c: Config)
    ensures Reaches(p, c, 1, Step(p, c))
  {
    assert Run(p, c, 1) == Step(p, c);
  }

  lemma Then(p: Program, c: Config, a: nat, d: Config)
    requires Reaches(p, c, a, d)
    ensures Reaches(p, c, a + 1, Step(p, d))
  {
    One(p, d);
    Chain(p, c, a, d, 1, Step(p, d));
  }

  // ----- positions in the code -----

  /** The instructions `a` stand at `pc`. */
  ghost predicate Here(p: Program, pc: nat, a: Code) {
    pc + |a| <= |p.code| && forall i {:trigger a[i]} :: 0 <= i < |a| ==> p.code[pc + i] == a[i]
  }

  lemma Split(p: Program, pc: nat, a: Code, b: Code)
    requires Here(p, pc, a + b)
    ensures Here(p, pc, a) && Here(p, pc + |a|, b)
  {
    forall i | 0 <= i < |a|
      ensures p.code[pc + i] == a[i]
    {
      assert (a + b)[i] == a[i];
    }
    forall i | 0 <= i < |b|
      ensures p.code[pc + |a| + i] == b[i]
    {
      assert (a + b)[|a| + i] == b[i];
    }
  }

  lemma Parts4(p: Program, pc: nat, a: Code, b: Code, c: Code, d: Code)
    requires Here(p, pc, a + (b + (c + d)))
    ensures Here(p, pc, a) && Here(p, pc + |a|, b) && Here(p, pc + |a| + |b|, c) && Here(p, pc + |a| + |b| + |c|, d)
    ensures |a + (b + (c + d))| == |a| + |b| + |c| + |d|
  {
    Split(p, pc, a, b + (c + d));
    Split(p, pc + |a|, b, c + d);
    Split(p, pc + |a| + |b|, c, d);
  }

  lemma Parts5(p: Program, pc: nat, a: Code, b: Code, c: Code, d: Code, e: Code)
    requires Here(p, pc, a + (b + (c + (d + e))))
    ensures Here(p, pc, a) && Here(p, pc + |a|, b) && Here(p, pc + |a| + |b|, c)
    ensures Here(p, pc + |a| + |b| + |c|, d) && Here(p, pc + |a| + |b| + |c| + |d|, e)
    ensures |a + (b + (c + (d + e)))| == |a| + |b| + |c| + |d| + |e|
  {
    Parts4(p, pc, a, b, c, d + e);
    Split(p, pc + |a| + |b| + |c|, d, e);
  }

  lemma Parts7(p: Program, pc: nat, a: Code, b: Code, c: Code, d: Code, e: Code, f: Code, g: Code)
    requires Here(p, pc, a + (b + (c + (d + (e + (f + g))))))
    ensures Here(p, pc, a) && Here(p, pc + |a|, b) && Here(p, pc + |a| + |b|, c)
    ensures Here(p, pc + |a| + |b| + |c|, d) && Here(p, pc + |a| + |b| + |c| + |d|, e)
    ensures Here(p, pc + |a| + |b| + |c| + |d| + |e|, f) && Here(p, pc + |a| + |b| + |c| + |d| + |e| + |f|, g)
    ensures |a + (b + (c + (d + (e + (f + g)))))| == |a| + |b| + |c| + |d| + |e| + |f| + |g|
  {
    Parts4(p, pc, a, b, c, d + (e + (f + g)));
    Parts4(p, pc + |a| + |b| + |c|, d, e, f, g);
  }

  lemma Fetch(p: Program, pc: nat, a: Code)
    requires Here(p, pc, a)
    ensures forall j {:trigger p.code[j]} :: pc <= j < pc + |a| ==> p.code[j] == a[j - pc]
  {
    forall j | pc <= j < pc + |a|
      ensures p.code[j] == a[j - pc]
    {
      assert p.code[pc + (j - pc)] == a[j - pc];
    }
  }

  lemma Marked(p: Program, pc: nat, a: Code, i: nat)
    requires Linked(p) && Here(p, pc, a) && i < |a| && a[i].Mark?
    ensures Target(p, a[i].lbl) == pc + i
  {
    assert p.code[pc + i] == a[i];
  }

  /** Wherever the machine is, these steps only move it from `pc` to `end`. */
  ghost predicate Moves(p: Program, pc: nat, b: nat, end: nat) {
    forall s: State :: Reaches(p, At(pc, s), b, At(end, s))
  }

  lemma PassMark(p: Program, pc: nat, lbl: nat)
    requires Here(p, pc, [Mark(lbl)])
    ensures Moves(p, pc, 1, pc + 1)
  {
    Fetch(p, pc, [Mark(lbl)]);
    forall s: State ensures Reaches(p, At(pc, s), 1, At(pc + 1, s)) { One(p, At(pc, s)); }
  }

  /** A jump, and the mark it goes to. */
  lemma PassGoto(p: Program, pc: nat, lbl: nat, at: nat)
    requires Linked(p) && Here(p, pc, [Goto(lbl)]) && Here(p, at, [Mark(lbl)])
    ensures Moves(p, pc, 2, at + 1)
  {
    Fetch(p, pc, [Goto(lbl)]);
    Marked(p, at, [Mark(lbl)], 0);
    PassMark(p, at, lbl);
    forall s: State ensures Reaches(p, At(pc, s), 2, At(at + 1, s)) {
      One(p, At(pc, s));
      Chain(p, At(pc, s), 1, At(at, s), 1, At(at + 1, s));
    }
  }

  lemma Move(p: Program, c: Config, a: nat, pc: nat, m: State, b: nat, end: nat)
    requires Reaches(p, c, a, At(pc, m)) && Moves(p, pc, b, end)
    ensures Reaches(p, c, a + b, At(end, m))
  {
    Chain(p, c, a, At(pc, m), b, At(end, m));
  }

  lemma Nth(p: Program, pc: nat, a: Code, i: nat)
    requires Here(p, pc, a) && i < |a|
    ensures Here(p, pc + i, [a[i]])
  {
    assert p.code[pc + i] == a[i];
  }

  // ----- matching -----

  /** Temporaries numbered below `n` are untouched. */
  ghost predicate TempsKept(n: nat, a: map<nat, Value>, b: map<nat, Value>) {
    forall k: nat :: k < n ==> (k in a <==> k in b) && (k in a ==> a[k] == b[k])
  }

  ghost predicate Undisturbed(m: State, m': State, n: nat) {
    m'.tries == m.tries && TempsKept(n, m.temps, m'.temps)
  }

  /** An expression has pushed its value, or raised its error. */
  ghost predicate Delivers(p: Program, pc: nat, m: State, end: nat, n: nat, r: (Response, World), steps: nat, m': State) {
    && Undisturbed(m, m', n) && m'.w == r.1
    && (match r.0
        case Ret(v) =>
          && Reaches(p, At(pc, m), steps, At(end, m'))
          && m'.exc == None && m'.stack == m.stack + [v] && m'.iters == m.iters
        case Fail(e) => Fails(p, pc, m, e, steps, m'))
  }

  ghost predicate Fails(p: Program, pc: nat, m: State, e: Value, steps: nat, m': State) {
    && Reaches(p, At(pc, m), steps, Dispatch(p, m'))
    && m'.exc == Some(e) && m.stack <= m'.stack && m'.iters == m.iters
  }

  // ----- calls -----

  /** The arguments of a call and its callee, on top of the stack. */
  lemma Operands(s: seq<Value>, low: seq<Value>, args: seq<Value>, f: Value)
    requires s == low + (args + [f])
    ensures |s| == |low| + |args| + 1 && s[|s| - 1] == f
    ensures s[..|low|] == low && s[|low|..|s| - 1] == args
  {
  }

  /** A call takes its operands off the stack; what it leaves on the iterator stack stays there. */
  lemma CallStep(p: Program, pc: nat, m: State, low: seq<Value>, args: seq<Value>, f: Value)
    requires pc < |p.code| && p.code[pc] == CallN(|args|) && m.stack == low + (args + [f])
    ensures var (r, w1) := CallValue(f, args, p.env, m.w);
            var left := if r.Ret? then p.env.leaves(m.w.trace, f, args) else [];
            Step(p, At(pc, m)) == Answer(p, pc, m.(stack := low, iters := m.iters + left, w := w1), r)
  {
    hide StepTop, Answer;
    Operands(m.stack, low, args, f);
  }

  lemma TidyCallStep(p: Program, pc: nat, m: State, low: seq<Value>, args: seq<Value>, f: Value)
    requires CallsTidy(p.env) && pc < |p.code| && p.code[pc] == CallN(|args|) && m.stack == low + (args + [f])
    ensures var (r, w1) := CallValue(f, args, p.env, m.w);
            Step(p, At(pc, m)) == Answer(p, pc, m.(stack := low, w := w1), r)
  {
    hide Step, StepTop, Answer;
    CallStep(p, pc, m, low, args, f);
    assert p.env.leaves(m.w.trace, f, args) == [];
    assert m.iters + [] == m.iters;
  }
}
