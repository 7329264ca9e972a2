/** The stack machine: operand stack, iterator frames, try frames, slots. */
module Machine {
  import opened Wrappers
  import opened Syntax
  import opened Semantics

  /** A named local owns a slot; each compiler temporary owns one too, numbered from
      the same counter as the labels. */
  datatype Slot = Local(x: Name) | Temp(id: nat)

  datatype Instr =
    | Push(v: Value)
    | Pop
    | LoadFast(slot: Slot)
    | StoreFast(slot: Slot)
    | BindFast(x: Name)
    | LoadGlobal(x: Name)
    | Load(builtin: Name)
    | UnaryOp(op: UnOp)
    | BinaryOp(bop: BinOp)
    | TupleNew(n: nat)
    | GetAttr(field: Name)
    | CallN(argc: nat)
    | Mark(lbl: nat)
    | Goto(lbl: nat)
    | GotoIf(lbl: nat)
    | GotoIfNot(lbl: nat)
    | LoopCountdown(lbl: nat)
    | IterNew
    | IterNext
    | IterEnd
    | Raise
    | Rethrow
    | PushExc
    | ExcMatch(typeName: Name)
    | EnterTry(catchLbl: nat, elseLbl: nat, endLbl: nat)
    | EndTry
    | PopTry
    | IsList
    | ListLen
    | Index
    | MatchEq
    | RetTop
    | RetFast(slot: Slot)

  type Code = seq<Instr>

  /** What `EnterTry` remembers: where to go, and how high the two stacks were. */
  datatype TryFrame = TryFrame(catchLbl: nat, elseLbl: nat, endLbl: nat, height: nat, iters: nat)

  datatype State = State(
    stack: seq<Value>,
    iters: seq<Value>,
    tries: seq<TryFrame>,
    temps: map<nat, Value>,
    exc: Option<Value>,
    w: World)
  {
    function PushV(v: Value): State {
      this.(stack := stack + [v])
    }

    function Top(): Value
      requires |stack| > 0
    {
      stack[|stack| - 1]
    }

    function Drop(): State
      requires |stack| > 0
    {
      this.(stack := stack[..|stack| - 1])
    }

    function Read(s: Slot): Value {
      match s
      case Local(x) => w.Get(x)
      case Temp(i) => if i in temps then temps[i] else Unit
    }

    function Write(s: Slot, v: Value): State {
      match s
      case Local(x) => this.(w := w.Set(x, v))
      case Temp(i) => this.(temps := temps[i := v])
    }
  }

  datatype Config =
    | At(pc: nat, m: State)
    | Returns(v: Value, left: State)
    | Uncaught(exc: Value, left: State)
    | Stuck

  /** A code object, the positions of its labels, and the environment it runs in. */
  datatype Program = Program(code: Code, labels: map<nat, nat>, env: Env)

  /** The position a label stands for; past the end of the code if it has none. */
  function Target(p: Program, lbl: nat): nat {
    if lbl in p.labels then p.labels[lbl] else |p.code|
  }

  /** Jump to the innermost handler, cutting both stacks back to its heights; the
      frame stays open until the handler pops it. */
  function Dispatch(p: Program, m: State): Config {
    if m.exc.None? then Stuck
    else if m.tries == [] then Uncaught(m.exc.value, m)
    else
      var f := m.tries[|m.tries| - 1];
      At(Target(p, f.catchLbl),
         m.(stack := if f.height <= |m.stack| then m.stack[..f.height] else m.stack,
            iters := if f.iters <= |m.iters| then m.iters[..f.iters] else m.iters))
  }

  /** `throw` of an exception value replaces whatever was active. */
  function ThrowValue(p: Program, m: State, e: Value): Config {
    Dispatch(p, m.(exc := Some(e)))
  }

  /** An error raised by an instruction: an exception that is already active wins. */
  function HostError(p: Program, m: State, e: Value): Config {
    if m.exc.Some? then Dispatch(p, m) else ThrowValue(p, m, e)
  }

  function Answer(p: Program, pc: nat, m: State, r: Response): Config {
    match r
    case Ret(v) => At(pc + 1, m.PushV(v))
    case Fail(e) => HostError(p, m, e)
  }

  function Branch(p: Program, pc: nat, m: State, taken: bool, lbl: nat): Config {
    At(if taken then Target(p, lbl) else pc + 1, m)
  }

  function Step(p: Program, c: Config): Config {
    if !c.At? then c else
    var pc, m := c.pc, c.m;
    if pc >= |p.code| then Returns(Unit, m) else
    match p.code[pc]
    case Push(v) => At(pc + 1, m.PushV(v))
    case LoadFast(s) => At(pc + 1, m.PushV(m.Read(s)))
    case LoadGlobal(x) => Answer(p, pc, m, p.env.global(m.w.trace, x))
    case Load(name) => At(pc + 1, m.PushV(Builtin(name)))
    case Mark(_) => At(pc + 1, m)
    case Goto(l) => At(Target(p, l), m)
    case IterEnd => if m.iters == [] then At(pc + 1, m) else At(pc + 1, m.(iters := m.iters[..|m.iters| - 1]))
    case IterNext =>
      if m.iters == [] then Stuck else
      var it := m.iters[|m.iters| - 1];
      var m1 := m.(w := m.w.Log(IterAdvanced(it)));
      (match p.env.next(m.w.trace, it)
       case Item(v) => At(pc + 1, m1.PushV(v).PushV(Bool(true)))
       case Exhausted => At(pc + 1, m1.PushV(Bool(false)))
       case NextFails(e) => HostError(p, m1, e))
    case EnterTry(c, e, d) =>
      At(pc + 1, m.(tries := m.tries + [TryFrame(c, e, d, |m.stack|, |m.iters|)]))
    case EndTry =>
      if m.tries == [] then Stuck else
      var f := m.tries[|m.tries| - 1];
      At(Target(p, if f.elseLbl != 0 then f.elseLbl else f.endLbl),
         m.(tries := m.tries[..|m.tries| - 1]))
    case PopTry =>
      At(pc + 1, m.(tries := if m.tries == [] then [] else m.tries[..|m.tries| - 1], exc := None))
    case PushExc => if m.exc.None? then Stuck else At(pc + 1, m.PushV(m.exc.value))
    case ExcMatch(t) => At(pc + 1, m.PushV(Bool(m.exc.Some? && p.env.isA(m.exc.value, t))))
    case Rethrow =>
      if m.exc.None? then HostError(p, m, RETHROW_ERROR)
      else Dispatch(p, m.(tries := if m.tries == [] then [] else m.tries[..|m.tries| - 1]))
    case RetFast(s) => Returns(m.Read(s), m)
    case RetTop => if m.stack == [] then Returns(Unit, m) else Returns(m.Top(), m.Drop())
    case TupleNew(n) =>
      if n > |m.stack| then Stuck else
      var h := |m.stack| - n;
      At(pc + 1, m.(stack := m.stack[..h] + [Seq(m.stack[h..])]))
    case CallN(argc) =>
      if argc + 1 > |m.stack| then Stuck else
      var h := |m.stack| - 1 - argc;
      var f, args := m.Top(), m.stack[h..|m.stack| - 1];
      var (r, w1) := CallValue(f, args, p.env, m.w);
      var left := if r.Ret? then p.env.leaves(m.w.trace, f, args) else [];
      Answer(p, pc, m.(stack := m.stack[..h], iters := m.iters + left, w := w1), r)
    case i => if m.stack == [] then Stuck else StepTop(p, pc, m.Drop(), m.Top(), i)
  }

  /** Instructions that consume the top `v` of the operand stack. */
  function StepTop(p: Program, pc: nat, m: State, v: Value, i: Instr): Config {
    match i
    case Pop => At(pc + 1, m)
    case StoreFast(s) => At(pc + 1, m.Write(s, v))
    case BindFast(x) => At(pc + 1, m.Write(Local(x), v))
    case UnaryOp(op) => Answer(p, pc, m, ApplyUnary(p.env, op, v))
    case GetAttr(f) => var (r, w1) := ReadAttr(v, f, p.env, m.w); Answer(p, pc, m.(w := w1), r)
    case GotoIf(l) => Branch(p, pc, m, Truthy(p.env, v), l)
    case GotoIfNot(l) => Branch(p, pc, m, !Truthy(p.env, v), l)
    case LoopCountdown(l) =>
      if !v.Num? then HostError(p, m, LOOP_COUNT_ERROR)
      else if v.r > 0.0 then At(pc + 1, m.PushV(Num(v.r - 1.0)))
      else At(Target(p, l), m)
    case IterNew =>
      var m1 := m.(w := m.w.Log(IterMade(v)));
      (match p.env.iter(m.w.trace, v)
       case Ret(it) => At(pc + 1, m1.(iters := m1.iters + [it]))
       case Fail(e) => HostError(p, m1, e))
    case Raise =>
      if p.env.isException(v) then ThrowValue(p, m, v) else HostError(p, m, NOT_EXCEPTION_ERROR)
    case IsList => At(pc + 1, m.PushV(Bool(v.Seq?)))
    case ListLen => if v.Seq? then At(pc + 1, m.PushV(Num(|v.items| as real))) else HostError(p, m, LIST_LEN_ERROR)
    case _ => if m.stack == [] then Stuck else StepTwo(p, pc, m.Drop(), m.Top(), v, i)
  }

  /** Instructions that consume the two topmost values, `a` below `b`. */
  function StepTwo(p: Program, pc: nat, m: State, a: Value, b: Value, i: Instr): Config {
    match i
    case BinaryOp(op) => Answer(p, pc, m, ApplyBinary(p.env, op, a, b))
    case MatchEq => At(pc + 1, m.PushV(Bool(p.env.matchEq(a, b))))
    case Index =>
      if a.Seq? && b.Num? && 0.0 <= b.r && b.r.Floor < |a.items| && b.r.Floor as real == b.r
      then At(pc + 1, m.PushV(a.items[b.r.Floor])) else HostError(p, m, INDEX_ERROR)
    case _ => Stuck
  }

  function Run(p: Program, c: Config, n: nat): Config
    decreases n
  {
    if n == 0 then c else Run(p, Step(p, c), n - 1)
  }
}
