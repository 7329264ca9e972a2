/** The machine on cold instructions, the machine on the hot stream, and why every hot step is
    one, two or three cold steps. */
module HotRefinement {
  import opened HotCode

  // ----- values and states -----

  /** Integers are exact; those that fit in 64 bits are held inline, which is what the fast paths test. */
  datatype Val = Int(n: int) | Bool(b: bool) | Heap(id: nat) | Empty

  datatype Answer = Got(v: Val) | Err(id: nat)

  /** Instructions whose meaning is not looked into. */
  datatype Effect =
    | DoCall(argc: nat) | DoCallGlobal(idx: nat, argc: nat) | DoCallSelf(argc: nat) | DoLoadGlobal(idx: nat) | DoStoreGlobal(idx: nat)
    | DoAddText | DoAddList | DoBind(slot: nat, isConst: bool) | DoOther(id: nat)

  /** `frames` are the slots of the lightweight calls, innermost last, `rets` their return
      positions; `rest` is everything else. */
  datatype State = State(stack: seq<Val>, frames: seq<seq<Val>>, rets: seq<nat>, rest: nat) {
    function PushV(v: Val): State {
      this.(stack := stack + [v])
    }

    function Drop(k: nat): State
      requires k <= |stack|
    {
      this.(stack := stack[..|stack| - k])
    }

    function Top(): Val
      requires |stack| > 0
    {
      stack[|stack| - 1]
    }

    function Under(): Val
      requires |stack| > 1
    {
      stack[|stack| - 2]
    }

    function Leave(): State
      requires |rets| > 0
    {
      this.(frames := if frames == [] then [] else frames[..|frames| - 1], rets := rets[..|rets| - 1])
    }
  }

  datatype Config =
    | At(pc: nat, m: State)
    | Pending(leave: bool, v: Val, m: State)
    | Failed(err: nat, m: State)
    | Panicked
    | Underflow

  datatype Countdown = Stop | Next(v: Val) | Bad(id: nat)

  datatype Env = Env(
    arith: (ArithOp, Val, Val) -> Answer,
    cmp: (CmpOp, Val, Val) -> Answer,
    truthy: Val -> bool,
    countdown: Val -> Countdown,
    loadSlot: (nat, nat) -> Val,
    storeSlot: (nat, nat, Val) -> nat,
    isConst: (nat, nat) -> bool,
    effect: (Effect, nat, State) -> Config)

  /** `moduleEnd` is the length of the code of the module, which need not be that of the function. */
  datatype Program = Program(code: Code, env: Env, lightweight: bool, entry: nat, frameSlots: nat, maxDepth: nat, moduleEnd: nat)

  const ZERO_DIV: nat := 0
  const CONST_STORE: nat := 1
  const RECURSION: nat := 2
  const GOTO_RANGE: nat := 3

  predicate Small(n: int) {
    -P63 <= n < P63
  }

  // ----- shared operations -----

  function FloorMod(x: int, y: int): int
    requires y != 0
  {
    if y > 0 then x % y else -((-x) % (-y))
  }

  function Calc(env: Env, op: ArithOp, a: Val, b: Val): Answer {
    if !a.Int? || !b.Int? then env.arith(op, a, b) else
    match op
    case Add => Got(Int(a.n + b.n))
    case Sub => Got(Int(a.n - b.n))
    case Mul => Got(Int(a.n * b.n))
    case Mod => if b.n == 0 then Err(ZERO_DIV) else Got(Int(FloorMod(a.n, b.n)))
    case Div => env.arith(op, a, b)
  }

  function Holds(c: CmpOp, x: int, y: int): bool {
    match c
    case Le => x <= y
    case Lt => x < y
    case Gt => x > y
    case Ge => x >= y
    case Eq => x == y
    case Ne => x != y
  }

  function Comp(env: Env, c: CmpOp, a: Val, b: Val): Answer {
    if a.Int? && b.Int? then Got(Bool(Holds(c, a.n, b.n))) else env.cmp(c, a, b)
  }

  function True(env: Env, v: Val): bool {
    match v
    case Bool(b) => b
    case Int(n) => n != 0
    case _ => env.truthy(v)
  }

  function Load(p: Program, m: State, slot: nat): Val {
    if m.frames == [] then p.env.loadSlot(m.rest, slot) else
    var top := m.frames[|m.frames| - 1];
    if slot < |top| then top[slot] else Empty
  }

  function Grow(slots: seq<Val>, n: nat): (r: seq<Val>)
    ensures |r| >= n
  {
    if |slots| >= n then slots else slots + seq(n - |slots|, _ => Empty)
  }

  function Store(p: Program, m: State, slot: nat, v: Val): State {
    if m.frames == [] then m.(rest := p.env.storeSlot(m.rest, slot, v)) else
    var k := |m.frames| - 1;
    m.(frames := m.frames[k := Grow(m.frames[k], slot + 1)[slot := v]])
  }

  function Push(pc: nat, m: State, a: Answer): Config {
    match a
    case Got(v) => At(pc, m.PushV(v))
    case Err(e) => Failed(e, m)
  }

  function StoreTop(p: Program, pc: nat, m: State, slot: nat): Config {
    if p.env.isConst(m.rest, slot) then Failed(CONST_STORE, m)
    else if m.stack == [] then Underflow
    else At(pc + 1, Store(p, m.Drop(1), slot, m.Top()))
  }

  function Jump(p: Program, m: State, target: nat): Config {
    if target > |p.code| then Failed(GOTO_RANGE, m) else At(target, m)
  }

  /** A recursive call in a frame of its own, returning to `back`. */
  function LightCall(p: Program, back: nat, m: State, slots: seq<Val>): Config {
    if |m.frames| >= p.maxDepth then Failed(RECURSION, m)
    else At(p.entry, m.(frames := m.frames + [slots], rets := m.rets + [back]))
  }

  function SelfCallStep(p: Program, pc: nat, m: State, argc: nat): Config {
    if m.frames == [] && !p.lightweight then p.env.effect(DoCallSelf(argc), pc, m)
    else if |m.stack| < argc then Underflow
    else
      var args := m.stack[|m.stack| - argc..];
      LightCall(p, pc + 1, m.Drop(argc), if argc == 1 then args else Grow(args, p.frameSlots))
  }

  /** The value on top of the operand stack is returned; a lightweight caller finds it there. */
  function ReturnTop(m: State, leave: bool): Config {
    if m.rets != [] then At(m.rets[|m.rets| - 1], m.Leave())
    else if m.stack == [] then Pending(leave, Empty, m)
    else Pending(leave, m.Top(), m.Drop(1))
  }

  function ReturnSlot(p: Program, m: State, slot: nat): Config {
    var v := Load(p, m, slot);
    if m.rets != [] then At(m.rets[|m.rets| - 1], m.Leave().PushV(v)) else Pending(false, v, m)
  }

  function CalcTop(p: Program, pc: nat, m: State, op: ArithOp): Config {
    if |m.stack| < 2 then Underflow else Push(pc + 1, m.Drop(2), Calc(p.env, op, m.Under(), m.Top()))
  }

  function CompTop(p: Program, pc: nat, m: State, c: CmpOp): Config {
    if |m.stack| < 2 then Underflow else Push(pc + 1, m.Drop(2), Comp(p.env, c, m.Under(), m.Top()))
  }

  function CompSlot(p: Program, pc: nat, m: State, c: CmpOp, slot: nat, imm: int): Config {
    Push(pc + 1, m, Comp(p.env, c, Load(p, m, slot), Int(imm)))
  }

  function AddInto(p: Program, pc: nat, m: State, slot: nat, a: Val, b: Val): Config {
    if p.env.isConst(m.rest, slot) then Failed(CONST_STORE, m) else
    match Calc(p.env, Add, a, b)
    case Got(v) => At(pc + 1, Store(p, m, slot, v))
    case Err(e) => Failed(e, m)
  }

  function Test(p: Program, pc: nat, m: State, sense: bool, target: nat): Config {
    if m.stack == [] then Underflow
    else if True(p.env, m.Top()) == sense then Jump(p, m.Drop(1), target)
    else At(pc + 1, m.Drop(1))
  }

  function CountDown(p: Program, pc: nat, m: State, target: nat): Config {
    if m.stack == [] then Underflow else
    match m.Top()
    case Int(n) => if n <= 0 then Jump(p, m.Drop(1), target) else At(pc + 1, m.Drop(1).PushV(Int(n - 1)))
    case v =>
      match p.env.countdown(v)
      case Stop => Jump(p, m.Drop(1), target)
      case Next(v') => At(pc + 1, m.Drop(1).PushV(v'))
      case Bad(e) => Failed(e, m.Drop(1))
  }

  // ----- the cold machine -----

  function Step(p: Program, c: Config): Config {
    if !c.At? || c.pc >= |p.code| then c else
    var pc, m := c.pc, c.m;
    match p.code[pc]
    case PushSmall(n) => At(pc + 1, m.PushV(Int(n)))
    case PushBool(b) => At(pc + 1, m.PushV(Bool(b)))
    case LoadFast(s) => At(pc + 1, m.PushV(Load(p, m, s)))
    case StoreFast(s) => StoreTop(p, pc, m, s)
    case BindFast(s, isConst) =>
      if !isConst && !UsesNameMap(p.code) then StoreTop(p, pc, m, s) else p.env.effect(DoBind(s, isConst), pc, m)
    case LoadGlobal(i) => p.env.effect(DoLoadGlobal(i), pc, m)
    case StoreGlobal(i) => p.env.effect(DoStoreGlobal(i), pc, m)
    case Arith(op, _) => CalcTop(p, pc, m, op)
    case Compare(cmp, _) => CompTop(p, pc, m, cmp)
    case AddText => p.env.effect(DoAddText, pc, m)
    case AddList => p.env.effect(DoAddList, pc, m)
    case LoadFastSubImm(s, imm) => Push(pc + 1, m, Calc(p.env, Sub, Load(p, m, s), Int(imm)))
    case LoadFastLeImm(s, imm) => CompSlot(p, pc, m, Le, s, imm)
    case LoadFastLtImm(s, imm) => CompSlot(p, pc, m, Lt, s, imm)
    case LoadFastGtImm(s, imm) => CompSlot(p, pc, m, Gt, s, imm)
    case LoadFastEqImm(s, imm) => CompSlot(p, pc, m, Eq, s, imm)
    case LoadFastAddImmStore(s, imm) => AddInto(p, pc, m, s, Load(p, m, s), Int(imm))
    case LoadFastAddStore(d, s) => AddInto(p, pc, m, d, Load(p, m, d), Load(p, m, s))
    case LoadFastSqrGt(a, b) => SquareGt(p, pc, m, Load(p, m, a), Load(p, m, b))
    case LoadFastModEq0(a, b) => ModEq0(p, pc, m, Load(p, m, a), Load(p, m, b))
    case Goto(t) => Jump(p, m, t)
    case GotoIf(t) => Test(p, pc, m, true, t)
    case GotoIfNot(t) => Test(p, pc, m, false, t)
    case LoopCountdown(t) => CountDown(p, pc, m, t)
    case CallSelf(argc) => SelfCallStep(p, pc, m, argc)
    case Call(argc) => p.env.effect(DoCall(argc), pc, m)
    case CallGlobal(i, argc) => p.env.effect(DoCallGlobal(i, argc), pc, m)
    case Ret => ReturnTop(m, false)
    case RetLeave => ReturnTop(m, true)
    case RetFast(s) => ReturnSlot(p, m, s)
    case Label => At(pc + 1, m)
    case Other(id, _) => p.env.effect(DoOther(id), pc, m)
  }

  function SquareGt(p: Program, pc: nat, m: State, d: Val, n: Val): Config {
    match Calc(p.env, Mul, d, d)
    case Got(v) => Push(pc + 1, m, Comp(p.env, Gt, v, n))
    case Err(e) => Failed(e, m)
  }

  function ModEq0(p: Program, pc: nat, m: State, a: Val, b: Val): Config {
    match Calc(p.env, Mod, a, b)
    case Got(v) => Push(pc + 1, m, Comp(p.env, Eq, v, Int(0)))
    case Err(e) => Failed(e, m)
  }

  function Run(p: Program, c: Config, n: nat): Config
    decreases n
  {
    if n == 0 then c else Run(p, Step(p, c), n - 1)
  }

  // ----- the hot machine -----

  datatype Inline = NotInline | Inline(n: int)

  /** The slot of the current lightweight frame, if it holds an inline integer. */
  function SlotInt(m: State, slot: nat): Inline {
    if m.frames == [] then NotInline else
    var top := m.frames[|m.frames| - 1];
    if slot < |top| && top[slot].Int? && Small(top[slot].n) then Inline(top[slot].n) else NotInline
  }

  /** Both topmost operands are inline integers. */
  predicate SmallPair(m: State) {
    |m.stack| >= 2 && m.Top().Int? && m.Under().Int? && Small(m.Top().n) && Small(m.Under().n)
  }

  /** The remainder of machine division, which has the sign of the dividend. */
  function TruncRem(x: int, y: int): int
    requires y != 0
  {
    var size := if x < 0 then -x else x;
    var base := if y < 0 then -y else y;
    if x < 0 then -(size % base) else size % base
  }

  /** The fast remainder: corrected to the sign of the divisor. */
  function FastMod(x: int, y: int): int
    requires y != 0
  {
    var r := TruncRem(x, y);
    if x == -P63 && y == -1 then 0 else if r != 0 && (r < 0) != (y < 0) then r + y else r
  }

  function FastCalc(op: ArithOp, x: int, y: int): Inline {
    match op
    case Add => if Small(x + y) then Inline(x + y) else NotInline
    case Sub => if Small(x - y) then Inline(x - y) else NotInline
    case Mul => if Small(x * y) then Inline(x * y) else NotInline
    case Mod => if y == 0 then NotInline else Inline(FastMod(x, y))
    case Div => NotInline
  }

  function HotCalc(p: Program, pc: nat, m: State, op: ArithOp): Config {
    if SmallPair(m) && FastCalc(op, m.Under().n, m.Top().n).Inline?
    then At(pc + 1, m.Drop(2).PushV(Int(FastCalc(op, m.Under().n, m.Top().n).n)))
    else CalcTop(p, pc, m, op)
  }

  function HotComp(p: Program, pc: nat, m: State, c: CmpOp): Config {
    if SmallPair(m) then At(pc + 1, m.Drop(2).PushV(Bool(Holds(c, m.Under().n, m.Top().n)))) else CompTop(p, pc, m, c)
  }

  function HotCompSlot(p: Program, pc: nat, m: State, c: CmpOp, arg: int): Config {
    var (slot, imm) := DecodeSlotImm(arg);
    var x := SlotInt(m, slot);
    if x.Inline? then At(pc + 1, m.PushV(Bool(Holds(c, x.n, imm)))) else Step(p, At(pc, m))
  }

  function HotTest(p: Program, pc: nat, m: State, sense: bool, target: nat): Config {
    if m.stack == [] then Underflow
    else At(if True(p.env, m.Top()) == sense then target else pc + 1, m.Drop(1))
  }

  function HotCountDown(p: Program, pc: nat, m: State, target: nat): Config {
    if m.stack != [] && m.Top().Int? && Small(m.Top().n) then
      if m.Top().n <= 0 then At(target, m.Drop(1)) else At(pc + 1, m.Drop(1).PushV(Int(m.Top().n - 1)))
    else Step(p, At(pc, m))
  }

  /** Operations on two inline integers of the frame. */
  function HotPair(p: Program, pc: nat, m: State, op: Op, arg: int): Config {
    var (a, b) := DecodeTwoSlots(arg);
    var x, y := SlotInt(m, a), SlotInt(m, b);
    if !x.Inline? || !y.Inline? then Step(p, At(pc, m)) else
    match op
    case H_LOAD_FAST_ADD_STORE =>
      if !Small(x.n + y.n) then Step(p, At(pc, m))
      else if p.env.isConst(m.rest, a) then Failed(CONST_STORE, m)
      else At(pc + 1, Store(p, m, a, Int(x.n + y.n)))
    case H_LOAD_FAST_SQR_GT => At(pc + 1, m.PushV(Bool(x.n * x.n > y.n)))
    case _ =>
      if y.n == 0 then Failed(ZERO_DIV, m)
      else if x.n == -P63 && y.n == -1 then Panicked
      else At(pc + 1, m.PushV(Bool(TruncRem(x.n, y.n) == 0)))
  }

  /** Operations on a frame slot and an immediate; the fused ones skip what they cover. */
  function HotImm(p: Program, h: HotCode, pc: nat, m: State, op: Op, arg: int): Config
    requires |h.args| == |p.code| && pc < |p.code|
  {
    var (slot, imm) := DecodeSlotImm(arg);
    var x := SlotInt(m, slot);
    if !x.Inline? then Step(p, At(pc, m)) else
    match op
    case H_LOAD_FAST_SUB_IMM => At(pc + 1, m.PushV(Int(x.n - imm)))
    case H_LOAD_FAST_ADD_IMM_STORE =>
      if !Small(x.n + imm) then Step(p, At(pc, m))
      else if p.env.isConst(m.rest, slot) then Failed(CONST_STORE, m)
      else At(pc + 1, Store(p, m, slot, Int(x.n + imm)))
    case H_CALL_SELF_FAST_SUB_IMM =>
      if !Small(x.n - imm) then Step(p, At(pc, m)) else LightCall(p, pc + 2, m, [Int(x.n - imm)])
    case H_GOTO_IF_NOT_FAST_LT_IMM =>
      if x.n < imm then At(pc + 2, m) else At(AsUsize(if pc + 1 < |h.args| then h.args[pc + 1] else 0), m)
    case _ =>
      if x.n >= imm then At(pc + 3, m) else ReturnSlot(p, m, AsUsize(if pc + 1 < |h.args| then h.args[pc + 1] else 0))
  }

  /** Numeric addition and return in one. */
  function HotAddRet(p: Program, pc: nat, m: State): Config {
    if SmallPair(m) && Small(m.Under().n + m.Top().n)
    then ReturnTop(m.Drop(2).PushV(Int(m.Under().n + m.Top().n)), false) else Step(p, At(pc, m))
  }

  /** How the hot machine runs a cold instruction: as the cold machine, but `RetFast` pushes the
      value and moves to where the code of the module would end, without ending the call. */
  function ColdStep(p: Program, c: Config): Config {
    if c.At? && c.pc < |p.code| && p.code[c.pc].RetFast?
    then At(p.moduleEnd, c.m.PushV(Load(p, c.m, p.code[c.pc].slot)))
    else Step(p, c)
  }

  function HotStep(p: Program, h: HotCode, c: Config): Config
    requires |h.ops| == |p.code| && |h.args| == |p.code|
  {
    if !c.At? || c.pc >= |p.code| then c else
    var pc, m, op, arg := c.pc, c.m, h.ops[c.pc], h.args[c.pc];
    match op
    case H_PUSH_SMALL => At(pc + 1, m.PushV(Int(arg)))
    case H_PUSH_BOOL => At(pc + 1, m.PushV(Bool(arg != 0)))
    case H_LOAD_FAST => At(pc + 1, m.PushV(Load(p, m, AsUsize(arg))))
    case H_STORE_FAST => StoreTop(p, pc, m, AsUsize(arg))
    case H_LOAD_GLOBAL => p.env.effect(DoLoadGlobal(AsUsize(arg)), pc, m)
    case H_STORE_GLOBAL => p.env.effect(DoStoreGlobal(AsUsize(arg)), pc, m)
    case H_ADD_NUM => HotCalc(p, pc, m, Add)
    case H_SUB_NUM => HotCalc(p, pc, m, Sub)
    case H_MUL_NUM => HotCalc(p, pc, m, Mul)
    case H_DIV_NUM => HotCalc(p, pc, m, Div)
    case H_MOD_NUM => HotCalc(p, pc, m, Mod)
    case H_LE => HotComp(p, pc, m, Le)
    case H_LT => HotComp(p, pc, m, Lt)
    case H_GT => HotComp(p, pc, m, Gt)
    case H_GE => HotComp(p, pc, m, Ge)
    case H_EQ => HotComp(p, pc, m, Eq)
    case H_NE => HotComp(p, pc, m, Ne)
    case H_LOAD_FAST_LE_IMM => HotCompSlot(p, pc, m, Le, arg)
    case H_LOAD_FAST_LT_IMM => HotCompSlot(p, pc, m, Lt, arg)
    case H_LOAD_FAST_GT_IMM => HotCompSlot(p, pc, m, Gt, arg)
    case H_LOAD_FAST_EQ_IMM => HotCompSlot(p, pc, m, Eq, arg)
    case H_GOTO => At(AsUsize(arg), m)
    case H_GOTO_IF => HotTest(p, pc, m, true, AsUsize(arg))
    case H_GOTO_IF_NOT => HotTest(p, pc, m, false, AsUsize(arg))
    case H_LOOP_COUNTDOWN => HotCountDown(p, pc, m, AsUsize(arg))
    case H_CALL_SELF => SelfCallStep(p, pc, m, AsUsize(arg))
    case H_CALL => p.env.effect(DoCall(AsUsize(arg)), pc, m)
    case H_CALL_GLOBAL => var (i, argc) := DecodeSlotImm(arg); p.env.effect(DoCallGlobal(i, AsUsize(argc)), pc, m)
    case H_RET => ReturnTop(m, false)
    case H_RET_LEAVE => ReturnTop(m, true)
    case H_RET_FAST => ReturnSlot(p, m, AsUsize(arg))
    case H_LABEL => At(pc + 1, m)
    case H_ADD_TEXT => p.env.effect(DoAddText, pc, m)
    case H_ADD_LIST => p.env.effect(DoAddList, pc, m)
    case H_LOAD_FAST_ADD_STORE => HotPair(p, pc, m, op, arg)
    case H_LOAD_FAST_SQR_GT => HotPair(p, pc, m, op, arg)
    case H_LOAD_FAST_MOD_EQ0 => HotPair(p, pc, m, op, arg)
    case H_ADD_NUM_RET => HotAddRet(p, pc, m)
    case H_COLD => ColdStep(p, c)
    case _ => HotImm(p, h, pc, m, op, arg)
  }

  function HotRun(p: Program, h: HotCode, c: Config, n: nat): Config
    requires |h.ops| == |p.code| && |h.args| == |p.code|
    decreases n
  {
    if n == 0 then c else HotRun(p, h, HotStep(p, h, c), n - 1)
  }

  // ----- what the format can hold -----

  predicate SlotImmFits(slot: nat, imm: int) {
    slot < P32 && -P31 <= imm < P31
  }

  /** Operands within the format, jumps within the code. */
  predicate Fits(i: Ins, size: nat) {
    match i
    case LoadFast(s) => s < P64
    case StoreFast(s) => s < P64
    case BindFast(s, _) => s < P64
    case RetFast(s) => s < P64
    case LoadGlobal(s) => s < P64
    case StoreGlobal(s) => s < P64
    case LoadFastSubImm(s, imm) => SlotImmFits(s, imm)
    case LoadFastLeImm(s, imm) => SlotImmFits(s, imm)
    case LoadFastLtImm(s, imm) => SlotImmFits(s, imm)
    case LoadFastGtImm(s, imm) => SlotImmFits(s, imm)
    case LoadFastEqImm(s, imm) => SlotImmFits(s, imm)
    case LoadFastAddImmStore(s, imm) => SlotImmFits(s, imm)
    case LoadFastAddStore(a, b) => a < P32 && b < P31
    case LoadFastSqrGt(a, b) => a < P32 && b < P31
    case LoadFastModEq0(a, b) => a < P32 && b < P31
    case CallGlobal(a, b) => a < P32 && b < P31
    case Goto(t) => t <= size
    case GotoIf(t) => t <= size
    case GotoIfNot(t) => t <= size
    case LoopCountdown(t) => t <= size
    case CallSelf(argc) => argc < P64
    case Call(argc) => argc < P64
    case _ => true
  }

  predicate AllFit(code: Code) {
    |code| < P64 && forall i :: 0 <= i < |code| ==> Fits(code[i], |code|)
  }

  lemma CastBack(n: nat)
    requires n < P64
    ensures AsUsize(AsI64(n)) == n
  {
  }

  lemma SlotImmBack(slot: nat, imm: int)
    requires SlotImmFits(slot, imm)
    ensures DecodeSlotImm(EncodeSlotImm(slot, imm)) == (slot, imm)
  {
    SlotImmExactly(slot, imm);
  }

  lemma TwoSlotsBack(a: nat, b: nat)
    requires a < P32 && b < P31
    ensures DecodeTwoSlots(EncodeTwoSlots(a, b)) == (a, b)
    ensures AsI64(b) == b && DecodeSlotImm(EncodeSlotImm(a, AsI64(b))) == (a, b)
  {
    TwoSlotsExactly(a, b);
    SlotImmExactly(a, b);
  }

  lemma MulBounds(y: int, t: int)
    requires y > 0
    ensures t >= 1 ==> y * t >= y
    ensures t <= -2 ==> y * t <= -2 * y
  {
    if t >= 1 { assert y * (t - 1) >= 0; }
    if t <= -2 { assert y * (-t - 2) >= 0; }
  }

  lemma Between(y: int, t: int, s: int)
    requires y > 0 && y * t == -s && 0 <= s < 2 * y
    ensures t == 0 || t == -1
  {
    MulBounds(y, t);
  }

  lemma ModulusFacts(a: nat, y: nat)
    requires y > 0
    ensures (-(a as int)) % y == if a % y == 0 then 0 else y - a % y
  {
    var m := -(a as int);
    var q, r, d, s := a / y, a % y, m / y, m % y;
    assert a == y * q + r && m == y * d + s;
    assert y * (d + q) == -(s + r);
    Between(y, d + q, s + r);
  }

  /** The corrected machine remainder is the floored one. */
  lemma FastModIsFloor(x: int, y: int)
    requires y != 0
    ensures FastMod(x, y) == FloorMod(x, y)
    ensures TruncRem(x, y) == 0 <==> FloorMod(x, y) == 0
  {
    var size: nat := if x < 0 then -x else x;
    var base: nat := if y < 0 then -y else y;
    ModulusFacts(size, base);
  }

  // ----- refinement -----

  /** The one case in which the hot machine fails where the cold one goes on: the remainder of the
      least 64-bit integer by -1, which the fused operation does not guard against. */
  predicate Panics(p: Program, c: Config) {
    c.At? && c.pc < |p.code| && p.code[c.pc].LoadFastModEq0?
    && SlotInt(c.m, p.code[c.pc].lhsSlot) == Inline(-P63) && SlotInt(c.m, p.code[c.pc].rhsSlot) == Inline(-1)
  }

  /** The other case: the return of a fused guard, reached as a cold instruction. */
  predicate Stranded(p: Program, c: Config) {
    c.At? && c.pc < |p.code| && p.code[c.pc].RetFast? && GroupAt(p.code, c.pc - 2).Guard?
  }

  predicate Departs(p: Program, c: Config) {
    Panics(p, c) || Stranded(p, c)
  }

  lemma SlotIntLoads(p: Program, m: State, slot: nat)
    ensures SlotInt(m, slot).Inline? ==> Load(p, m, slot) == Int(SlotInt(m, slot).n) && m.frames != []
  {
  }

  lemma HotCalcSame(p: Program, pc: nat, m: State, op: ArithOp)
    ensures HotCalc(p, pc, m, op) == CalcTop(p, pc, m, op)
  {
    if SmallPair(m) && op == Mod && m.Top().n != 0 { FastModIsFloor(m.Under().n, m.Top().n); }
  }

  lemma PairSame(p: Program, pc: nat, m: State)
    requires pc < |p.code| && Fits(p.code[pc], |p.code|) && !Panics(p, At(pc, m))
    requires p.code[pc].LoadFastAddStore? || p.code[pc].LoadFastSqrGt? || p.code[pc].LoadFastModEq0?
    ensures HotPair(p, pc, m, Alone(p.code[pc], UsesNameMap(p.code)).0, Alone(p.code[pc], UsesNameMap(p.code)).1) == Step(p, At(pc, m))
  {
    hide EncodeSlotImm, DecodeSlotImm, EncodeTwoSlots, DecodeTwoSlots, Load, Store, UsesNameMap, FastMod, FloorMod,
         TruncRem, AsUsize, AsI64, AsI32, CompTop, CalcTop, StoreTop, SelfCallStep, ReturnSlot, ReturnTop;
    match p.code[pc]
    case LoadFastAddStore(a, b) => TwoSlotsBack(a, b); SlotIntLoads(p, m, a); SlotIntLoads(p, m, b);
    case LoadFastSqrGt(a, b) => TwoSlotsBack(a, b); SlotIntLoads(p, m, a); SlotIntLoads(p, m, b);
    case LoadFastModEq0(a, b) =>
      TwoSlotsBack(a, b);
      SlotIntLoads(p, m, a);
      SlotIntLoads(p, m, b);
      if SlotInt(m, a).Inline? && SlotInt(m, b).Inline? && SlotInt(m, b).n != 0 { FastModIsFloor(SlotInt(m, a).n, SlotInt(m, b).n); }
  }

  lemma CompSlotSame(p: Program, pc: nat, m: State, c: CmpOp, slot: nat, imm: int)
    requires pc < |p.code| && SlotImmFits(slot, imm) && Step(p, At(pc, m)) == CompSlot(p, pc, m, c, slot, imm)
    ensures HotCompSlot(p, pc, m, c, EncodeSlotImm(slot, imm)) == Step(p, At(pc, m))
  {
    SlotImmBack(slot, imm);
    SlotIntLoads(p, m, slot);
  }

  lemma ImmSame(p: Program, h: HotCode, pc: nat, m: State)
    requires |h.args| == |p.code| && pc < |p.code| && Fits(p.code[pc], |p.code|)
    requires p.code[pc].LoadFastSubImm? || p.code[pc].LoadFastAddImmStore?
    ensures HotImm(p, h, pc, m, Alone(p.code[pc], UsesNameMap(p.code)).0, EncodeSlotImm(p.code[pc].slot, p.code[pc].imm)) == Step(p, At(pc, m))
  {
    SlotImmBack(p.code[pc].slot, p.code[pc].imm);
    SlotIntLoads(p, m, p.code[pc].slot);
  }

  predicate UsesSlot(i: Ins) {
    i.LoadFast? || i.StoreFast? || i.BindFast? || i.RetFast?
  }

  predicate UsesWorld(i: Ins) {
    i.LoadGlobal? || i.StoreGlobal? || i.CallSelf? || i.Call? || i.CallGlobal?
  }

  predicate Jumps(i: Ins) {
    i.Goto? || i.GotoIf? || i.GotoIfNot? || i.LoopCountdown?
  }

  predicate ComparesSlot(i: Ins) {
    i.LoadFastLeImm? || i.LoadFastLtImm? || i.LoadFastGtImm? || i.LoadFastEqImm?
  }

  predicate Combines(i: Ins) {
    i.LoadFastSubImm? || i.LoadFastAddImmStore? || i.LoadFastAddStore? || i.LoadFastSqrGt? || i.LoadFastModEq0?
  }

  lemma SlotRefines(p: Program, h: HotCode, pc: nat, m: State)
    requires |h.ops| == |p.code| && |h.args| == |p.code| && pc < |p.code| < P64 && Fits(p.code[pc], |p.code|)
    requires (h.ops[pc], h.args[pc]) == Alone(p.code[pc], UsesNameMap(p.code)) && UsesSlot(p.code[pc])
    ensures HotStep(p, h, At(pc, m)) == Step(p, At(pc, m))
  {
    hide Load, Store, UsesNameMap, HotCalc, HotComp, HotCompSlot, HotPair, HotImm, HotAddRet, CalcTop, CompTop,
         CompSlot, AddInto, SquareGt, ModEq0, AsUsize, AsI64, LightCall, SelfCallStep, StoreTop, ReturnTop,
         ReturnSlot;
    CastBack(p.code[pc].slot);
  }

  lemma WorldRefines(p: Program, h: HotCode, pc: nat, m: State)
    requires |h.ops| == |p.code| && |h.args| == |p.code| && pc < |p.code| < P64 && Fits(p.code[pc], |p.code|)
    requires (h.ops[pc], h.args[pc]) == Alone(p.code[pc], UsesNameMap(p.code)) && UsesWorld(p.code[pc])
    ensures HotStep(p, h, At(pc, m)) == Step(p, At(pc, m))
  {
    hide Load, Store, UsesNameMap, HotCalc, HotComp, HotCompSlot, HotPair, HotImm, HotAddRet, CalcTop, CompTop,
         CompSlot, AddInto, SquareGt, ModEq0, AsUsize, AsI64, LightCall, SelfCallStep, StoreTop, ReturnTop,
         ReturnSlot;
    match p.code[pc]
    case LoadGlobal(s) => CastBack(s);
    case StoreGlobal(s) => CastBack(s);
    case CallSelf(argc) => CastBack(argc);
    case Call(argc) => CastBack(argc);
    case CallGlobal(i, argc) => TwoSlotsBack(i, argc); CastBack(argc);
  }

  lemma JumpRefines(p: Program, h: HotCode, pc: nat, m: State)
    requires |h.ops| == |p.code| && |h.args| == |p.code| && pc < |p.code| < P64 && Fits(p.code[pc], |p.code|)
    requires (h.ops[pc], h.args[pc]) == Alone(p.code[pc], UsesNameMap(p.code)) && Jumps(p.code[pc])
    ensures HotStep(p, h, At(pc, m)) == Step(p, At(pc, m))
  {
    hide Load, Store, UsesNameMap, HotCalc, HotComp, HotCompSlot, HotPair, HotImm, HotAddRet, CalcTop, CompTop,
         CompSlot, AddInto, SquareGt, ModEq0, AsUsize, AsI64, LightCall, SelfCallStep, StoreTop, ReturnTop,
         ReturnSlot;
    CastBack(p.code[pc].target);
  }

  lemma CompareRefines(p: Program, h: HotCode, pc: nat, m: State)
    requires |h.ops| == |p.code| && |h.args| == |p.code| && pc < |p.code| < P64 && Fits(p.code[pc], |p.code|)
    requires (h.ops[pc], h.args[pc]) == Alone(p.code[pc], UsesNameMap(p.code)) && ComparesSlot(p.code[pc])
    ensures HotStep(p, h, At(pc, m)) == Step(p, At(pc, m))
  {
    hide Load, Store, UsesNameMap, HotCalc, HotComp, HotCompSlot, HotPair, HotImm, HotAddRet, CalcTop, CompTop,
         CompSlot, AddInto, SquareGt, ModEq0, AsUsize, AsI64, LightCall, SelfCallStep, StoreTop, ReturnTop,
         ReturnSlot, EncodeSlotImm;
    var s, imm := p.code[pc].slot, p.code[pc].imm;
    match p.code[pc]
    case LoadFastLeImm(_, _) => CompSlotSame(p, pc, m, Le, s, imm);
    case LoadFastLtImm(_, _) => CompSlotSame(p, pc, m, Lt, s, imm);
    case LoadFastGtImm(_, _) => CompSlotSame(p, pc, m, Gt, s, imm);
    case LoadFastEqImm(_, _) => CompSlotSame(p, pc, m, Eq, s, imm);
  }

  lemma CombineRefines(p: Program, h: HotCode, pc: nat, m: State)
    requires |h.ops| == |p.code| && |h.args| == |p.code| && pc < |p.code| < P64 && Fits(p.code[pc], |p.code|)
    requires (h.ops[pc], h.args[pc]) == Alone(p.code[pc], UsesNameMap(p.code)) && Combines(p.code[pc]) && !Panics(p, At(pc, m))
    ensures HotStep(p, h, At(pc, m)) == Step(p, At(pc, m))
  {
    if p.code[pc].LoadFastSubImm? || p.code[pc].LoadFastAddImmStore? { ImmRefines(p, h, pc, m); } else { PairRefines(p, h, pc, m); }
  }

  lemma ImmRefines(p: Program, h: HotCode, pc: nat, m: State)
    requires |h.ops| == |p.code| && |h.args| == |p.code| && pc < |p.code| < P64 && Fits(p.code[pc], |p.code|)
    requires (h.ops[pc], h.args[pc]) == Alone(p.code[pc], UsesNameMap(p.code)) && (p.code[pc].LoadFastSubImm? || p.code[pc].LoadFastAddImmStore?)
    ensures HotStep(p, h, At(pc, m)) == Step(p, At(pc, m))
  {
    ImmSame(p, h, pc, m);
    hide Step, Load, Store, UsesNameMap, HotCalc, HotComp, HotCompSlot, HotPair, HotImm, HotAddRet, CalcTop, CompTop,
         AsUsize, AsI64, LightCall, SelfCallStep, StoreTop, ReturnTop, ReturnSlot, EncodeSlotImm, EncodeTwoSlots;
  }

  lemma PairRefines(p: Program, h: HotCode, pc: nat, m: State)
    requires |h.ops| == |p.code| && |h.args| == |p.code| && pc < |p.code| < P64 && Fits(p.code[pc], |p.code|)
    requires (h.ops[pc], h.args[pc]) == Alone(p.code[pc], UsesNameMap(p.code)) && Combines(p.code[pc]) && !Panics(p, At(pc, m))
    requires !p.code[pc].LoadFastSubImm? && !p.code[pc].LoadFastAddImmStore?
    ensures HotStep(p, h, At(pc, m)) == Step(p, At(pc, m))
  {
    PairSame(p, pc, m);
    hide Step, Load, Store, UsesNameMap, HotCalc, HotComp, HotCompSlot, HotPair, HotImm, HotAddRet, CalcTop, CompTop,
         AsUsize, AsI64, LightCall, SelfCallStep, StoreTop, ReturnTop, ReturnSlot, EncodeSlotImm, EncodeTwoSlots;
  }

  /** An instruction outside all groups: one hot step is the cold step. */
  lemma AloneRefines(p: Program, h: HotCode, pc: nat, m: State)
    requires |h.ops| == |p.code| && |h.args| == |p.code| && pc < |p.code| < P64 && Fits(p.code[pc], |p.code|)
    requires (h.ops[pc], h.args[pc]) == Alone(p.code[pc], UsesNameMap(p.code)) && !Panics(p, At(pc, m))
    ensures HotStep(p, h, At(pc, m)) == Step(p, At(pc, m))
  {
    if UsesSlot(p.code[pc]) { SlotRefines(p, h, pc, m); }
    else if UsesWorld(p.code[pc]) { WorldRefines(p, h, pc, m); }
    else if Jumps(p.code[pc]) { JumpRefines(p, h, pc, m); }
    else if ComparesSlot(p.code[pc]) { CompareRefines(p, h, pc, m); }
    else if Combines(p.code[pc]) { CombineRefines(p, h, pc, m); }
    else { PlainRefines(p, h, pc, m); }
  }

  lemma PlainRefines(p: Program, h: HotCode, pc: nat, m: State)
    requires |h.ops| == |p.code| && |h.args| == |p.code| && pc < |p.code| < P64 && Fits(p.code[pc], |p.code|)
    requires (h.ops[pc], h.args[pc]) == Alone(p.code[pc], UsesNameMap(p.code))
    requires !UsesSlot(p.code[pc]) && !UsesWorld(p.code[pc]) && !Jumps(p.code[pc]) && !ComparesSlot(p.code[pc]) && !Combines(p.code[pc])
    ensures HotStep(p, h, At(pc, m)) == Step(p, At(pc, m))
  {
    hide HotCalc, CalcTop, HotCompSlot, HotPair, HotImm, HotAddRet, LightCall, SelfCallStep, ReturnTop, StoreTop,
         AddInto, SquareGt, ModEq0, CompSlot, ReturnSlot, Load, Store, EncodeSlotImm, EncodeTwoSlots;
    if p.code[pc].Arith? { HotCalcSame(p, pc, m, p.code[pc].op); }
  }

  lemma TwoSteps(p: Program, c: Config)
    ensures Run(p, c, 2) == Step(p, Step(p, c))
    ensures Run(p, c, 3) == Step(p, Step(p, Step(p, c)))
    ensures Run(p, c, 1) == Step(p, c)
  {
    assert Run(p, c, 1) == Step(p, c);
    assert Run(p, Step(p, c), 1) == Step(p, Step(p, c));
    assert Run(p, c, 2) == Run(p, Step(p, c), 1);
    assert Run(p, Step(p, Step(p, c)), 1) == Step(p, Step(p, Step(p, c)));
    assert Run(p, Step(p, c), 2) == Run(p, Step(p, Step(p, c)), 1);
    assert Run(p, c, 3) == Run(p, Step(p, c), 2);
  }

  /** `a + b` and return. */
  lemma AddRetRefines(p: Program, pc: nat, m: State) returns (k: nat)
    requires pc + 1 < |p.code| && p.code[pc].Arith? && p.code[pc].op == Add && p.code[pc + 1] == Ret
    ensures 1 <= k <= 2 && HotAddRet(p, pc, m) == Run(p, At(pc, m), k)
  {
    TwoSteps(p, At(pc, m));
    k := if SmallPair(m) && Small(m.Under().n + m.Top().n) then 2 else 1;
  }

  /** `self(x - imm)`. */
  lemma SelfCallRefines(p: Program, h: HotCode, pc: nat, m: State) returns (k: nat)
    requires |h.args| == |p.code| && pc + 1 < |p.code| && p.code[pc].LoadFastSubImm? && p.code[pc + 1] == CallSelf(1)
    requires SlotImmFits(p.code[pc].slot, p.code[pc].imm)
    ensures 1 <= k <= 2
    ensures HotImm(p, h, pc, m, H_CALL_SELF_FAST_SUB_IMM, EncodeSlotImm(p.code[pc].slot, p.code[pc].imm)) == Run(p, At(pc, m), k)
  {
    TwoSteps(p, At(pc, m));
    hide Run, Step, Load, EncodeSlotImm, DecodeSlotImm, AsUsize, ReturnSlot;
    var slot, imm := p.code[pc].slot, p.code[pc].imm;
    SlotImmBack(slot, imm);
    SlotIntLoads(p, m, slot);
    var x := SlotInt(m, slot);
    k := 1;
    if x.Inline? && Small(x.n - imm) {
      k := 2;
      SubImmStep(p, pc, m, x.n);
      SelfCallOne(p, pc + 1, m, Int(x.n - imm));
    }
  }

  lemma SubImmStep(p: Program, pc: nat, m: State, n: int)
    requires pc < |p.code| && p.code[pc].LoadFastSubImm? && Load(p, m, p.code[pc].slot) == Int(n) && Small(n)
    requires Small(n - p.code[pc].imm) && SlotImmFits(p.code[pc].slot, p.code[pc].imm)
    ensures Step(p, At(pc, m)) == At(pc + 1, m.PushV(Int(n - p.code[pc].imm)))
  {
    hide Load, SlotInt;
  }

  lemma SelfCallOne(p: Program, pc: nat, m: State, v: Val)
    requires pc < |p.code| && p.code[pc] == CallSelf(1) && m.frames != []
    ensures Step(p, At(pc, m.PushV(v))) == LightCall(p, pc + 1, m, [v])
  {
    hide LightCall;
    var m1 := m.PushV(v);
    assert m1.Drop(1) == m && m1.stack[|m1.stack| - 1..] == [v];
  }

  lemma LtImmStep(p: Program, pc: nat, m: State, n: int)
    requires pc < |p.code| && p.code[pc].LoadFastLtImm? && Load(p, m, p.code[pc].slot) == Int(n) && Small(n)
    ensures Step(p, At(pc, m)) == At(pc + 1, m.PushV(Bool(n < p.code[pc].imm)))
  {
    hide Load;
  }

  lemma TestStep(p: Program, pc: nat, m: State, b: bool, target: nat)
    requires pc < |p.code| && p.code[pc] == GotoIfNot(target) && target <= |p.code|
    ensures Step(p, At(pc, m.PushV(Bool(b)))) == At(if b then pc + 1 else target, m)
  {
    assert m.PushV(Bool(b)).Drop(1) == m;
  }

  lemma GuardReturns(p: Program, pc: nat, m: State, ret: nat)
    requires pc < |p.code| && p.code[pc] == RetFast(ret)
    ensures Step(p, At(pc, m)) == ReturnSlot(p, m, ret)
  {
    hide ReturnSlot;
  }

  /** Compare and branch; the target is read from the slot that is skipped. */
  lemma BranchRefines(p: Program, h: HotCode, pc: nat, m: State, target: nat) returns (k: nat)
    requires |h.args| == |p.code| < P64 && pc + 1 < |p.code| && p.code[pc].LoadFastLtImm? && p.code[pc + 1] == GotoIfNot(target)
    requires SlotImmFits(p.code[pc].slot, p.code[pc].imm) && target <= |p.code| && h.args[pc + 1] == AsI64(target)
    ensures 1 <= k <= 2
    ensures HotImm(p, h, pc, m, H_GOTO_IF_NOT_FAST_LT_IMM, EncodeSlotImm(p.code[pc].slot, p.code[pc].imm)) == Run(p, At(pc, m), k)
  {
    TwoSteps(p, At(pc, m));
    hide Run, Step, Load, EncodeSlotImm, DecodeSlotImm, AsUsize, AsI64, ReturnSlot;
    var slot, imm := p.code[pc].slot, p.code[pc].imm;
    SlotImmBack(slot, imm);
    CastBack(target);
    SlotIntLoads(p, m, slot);
    var x := SlotInt(m, slot);
    k := 1;
    if x.Inline? {
      k := 2;
      LtImmStep(p, pc, m, x.n);
      TestStep(p, pc + 1, m, x.n < imm, target);
    }
  }

  /** `if x < imm { return y }`; the slot of `y` is read from the slot that is skipped. */
  lemma GuardRefines(p: Program, h: HotCode, pc: nat, m: State, ret: nat) returns (k: nat)
    requires |h.args| == |p.code| < P64 && pc + 2 < |p.code| && p.code[pc].LoadFastLtImm? && p.code[pc + 1] == GotoIfNot(pc + 3)
    requires p.code[pc + 2] == RetFast(ret) && ret < P64 && h.args[pc + 1] == AsI64(ret)
    requires SlotImmFits(p.code[pc].slot, p.code[pc].imm)
    ensures 1 <= k <= 3
    ensures HotImm(p, h, pc, m, H_RET_FAST_IF_LT_IMM, EncodeSlotImm(p.code[pc].slot, p.code[pc].imm)) == Run(p, At(pc, m), k)
  {
    TwoSteps(p, At(pc, m));
    hide Run, Step, Load, EncodeSlotImm, DecodeSlotImm, AsUsize, AsI64, ReturnSlot;
    var slot, imm := p.code[pc].slot, p.code[pc].imm;
    SlotImmBack(slot, imm);
    CastBack(ret);
    SlotIntLoads(p, m, slot);
    var x := SlotInt(m, slot);
    k := 1;
    if x.Inline? {
      LtImmStep(p, pc, m, x.n);
      TestStep(p, pc + 1, m, x.n < imm, pc + 3);
      if x.n < imm { GuardReturns(p, pc + 2, m, ret); }
      k := if x.n < imm then 3 else 2;
    }
  }

  /** The hot stream refines the cold one: from any state, at any position, inside a fused group or
      not, one hot step is one, two or three cold steps, but for the unguarded remainder and the
      return of a guard whose fast path did not apply. In both of these it is another step. */
  lemma StepRefines(p: Program, h: HotCode, c: Config) returns (k: nat)
    requires Encodes(h, p.code) && AllFit(p.code)
    ensures 1 <= k <= 3
    ensures !Departs(p, c) ==> HotStep(p, h, c) == Run(p, c, k)
    ensures Panics(p, c) ==> HotStep(p, h, c) == Panicked
    ensures Stranded(p, c) ==> HotStep(p, h, c) == At(p.moduleEnd, c.m.PushV(Load(p, c.m, p.code[c.pc].slot)))
    ensures Departs(p, c) ==> HotStep(p, h, c) != Step(p, c)
  {
    hide Step, Run, HotStep, Panics, AllFit, GroupAt;
    k := 1;
    TwoSteps(p, c);
    if !(c.At? && c.pc < |p.code|) {
      EndedMoves(p, h, c);
    } else if GroupAt(p.code, c.pc).NoGroup? {
      OutsideHeads(p, h, c.pc, c.m);
    } else {
      k := HeadRefines(p, h, c.pc, c.m);
    }
  }

  lemma EndedMoves(p: Program, h: HotCode, c: Config)
    requires Encodes(h, p.code) && !(c.At? && c.pc < |p.code|)
    ensures HotStep(p, h, c) == Step(p, c) && !Departs(p, c)
  {
  }

  /** At the first of a group, the one hot step is the whole group, or its first instruction when
      the fast path does not apply. */
  lemma HeadRefines(p: Program, h: HotCode, pc: nat, m: State) returns (k: nat)
    requires Encodes(h, p.code) && AllFit(p.code) && pc < |p.code| && !GroupAt(p.code, pc).NoGroup?
    ensures 1 <= k <= 3 && !Departs(p, At(pc, m)) && HotStep(p, h, At(pc, m)) == Run(p, At(pc, m), k)
  {
    hide Step, Run, HotStep, HotImm, HotAddRet, AllFit, Encodes, EncodeSlotImm, AsI64;
    HeadStep(p, h, pc, m);
    SkippedSlot(p, h, pc);
    FitsAt(p, pc);
    match GroupAt(p.code, pc)
    case AddThenRet => k := AddRetRefines(p, pc, m);
    case SelfCall => k := SelfCallRefines(p, h, pc, m);
    case Guard(ret) => k := GuardRefines(p, h, pc, m, ret);
    case Branch(target) => k := BranchRefines(p, h, pc, m, target);
    case NoGroup =>
  }

  lemma HeadStep(p: Program, h: HotCode, pc: nat, m: State)
    requires Encodes(h, p.code) && pc < |p.code| && !GroupAt(p.code, pc).NoGroup?
    ensures |h.args| == |p.code|
    ensures GroupAt(p.code, pc).AddThenRet? ==> HotStep(p, h, At(pc, m)) == HotAddRet(p, pc, m)
    ensures GroupAt(p.code, pc).SelfCall? ==>
              HotStep(p, h, At(pc, m)) == HotImm(p, h, pc, m, H_CALL_SELF_FAST_SUB_IMM, EncodeSlotImm(p.code[pc].slot, p.code[pc].imm))
    ensures GroupAt(p.code, pc).Guard? ==>
              HotStep(p, h, At(pc, m)) == HotImm(p, h, pc, m, H_RET_FAST_IF_LT_IMM, EncodeSlotImm(p.code[pc].slot, p.code[pc].imm))
    ensures GroupAt(p.code, pc).Branch? ==>
              HotStep(p, h, At(pc, m)) == HotImm(p, h, pc, m, H_GOTO_IF_NOT_FAST_LT_IMM, EncodeSlotImm(p.code[pc].slot, p.code[pc].imm))
  {
    hide Step, HotImm, HotAddRet, Alone, EncodeSlotImm, AsI64;
    assert (h.ops[pc], h.args[pc]) == HotAt(p.code, pc);
  }

  lemma FitsAt(p: Program, pc: nat)
    requires AllFit(p.code) && pc < |p.code|
    ensures |p.code| < P64
    ensures p.code[pc].LoadFastSubImm? || p.code[pc].LoadFastLtImm? ==> SlotImmFits(p.code[pc].slot, p.code[pc].imm)
  {
    assert Fits(p.code[pc], |p.code|);
  }

  /** The slot after a fused compare holds what the fused operation needs. */
  lemma SkippedSlot(p: Program, h: HotCode, pc: nat)
    requires Encodes(h, p.code) && AllFit(p.code) && pc < |p.code|
    ensures GroupAt(p.code, pc).Guard? ==> h.args[pc + 1] == AsI64(GroupAt(p.code, pc).slot) && GroupAt(p.code, pc).slot < P64
    ensures GroupAt(p.code, pc).Branch? ==> h.args[pc + 1] == AsI64(GroupAt(p.code, pc).target) && GroupAt(p.code, pc).target <= |p.code|
  {
    var g := GroupAt(p.code, pc);
    if g.Guard? || g.Branch? {
      assert (h.ops[pc + 1], h.args[pc + 1]) == HotAt(p.code, pc + 1);
      assert Fits(p.code[pc + 1], |p.code|);
    }
    if g.Guard? { assert Fits(p.code[pc + 2], |p.code|); }
  }

  /** Not the first of a group: either a skipped slot, where the cold instruction runs, or alone. */
  lemma OutsideHeads(p: Program, h: HotCode, pc: nat, m: State)
    requires Encodes(h, p.code) && AllFit(p.code) && pc < |p.code| && GroupAt(p.code, pc).NoGroup?
    ensures !Departs(p, At(pc, m)) ==> HotStep(p, h, At(pc, m)) == Step(p, At(pc, m))
    ensures Panics(p, At(pc, m)) ==> HotStep(p, h, At(pc, m)) == Panicked
    ensures Stranded(p, At(pc, m)) ==> HotStep(p, h, At(pc, m)) == At(p.moduleEnd, m.PushV(Load(p, m, p.code[pc].slot)))
    ensures Departs(p, At(pc, m)) ==> HotStep(p, h, At(pc, m)) != Step(p, At(pc, m))
  {
    var code := p.code;
    var before := GroupAt(code, pc - 1);
    if Panics(p, At(pc, m)) {
      PanicDiffers(p, h, pc, m);
    } else if before.SelfCall? || before.Guard? || before.Branch? || GroupAt(code, pc - 2).Guard? {
      hide Step, Load, UsesNameMap, GroupAt, AllFit, SlotInt;
      assert (h.ops[pc], h.args[pc]) == HotAt(code, pc);
      assert h.ops[pc] == H_COLD;
      if Stranded(p, At(pc, m)) { StrandedDiffers(p, pc, m); }
    } else {
      assert Fits(code[pc], |code|);
      AloneRefines(p, h, pc, m);
    }
  }

  lemma PanicDiffers(p: Program, h: HotCode, pc: nat, m: State)
    requires Encodes(h, p.code) && AllFit(p.code) && pc < |p.code| && GroupAt(p.code, pc).NoGroup? && Panics(p, At(pc, m))
    ensures HotStep(p, h, At(pc, m)) == Panicked && Step(p, At(pc, m)) != Panicked
  {
    var code := p.code;
    assert (h.ops[pc], h.args[pc]) == HotAt(code, pc) && Fits(code[pc], |code|);
    TwoSlotsBack(code[pc].lhsSlot, code[pc].rhsSlot);
  }

  /** Moving to a position never is what returning does. */
  lemma StrandedDiffers(p: Program, pc: nat, m: State)
    requires pc < |p.code| && p.code[pc].RetFast?
    ensures Step(p, At(pc, m)) != At(p.moduleEnd, m.PushV(Load(p, m, p.code[pc].slot)))
  {
    if m.rets != [] { assert |m.Leave().rets| < |m.rets|; }
  }

  /** `if x < 2 { return x }` for an integer below 64 bits: the cold machine returns it, the hot one
      moves to where the module's code ends; if that is not inside the function, its call returns nothing. */
  lemma BigGuardExample(p: Program, h: HotCode, rest: nat)
    requires p.code == [LoadFastLtImm(0, 2), GotoIfNot(3), RetFast(0)] && Encodes(h, p.code)
    ensures var m := State([], [[Int(-P63 - 1)]], [], rest);
            Run(p, At(0, m), 3) == Pending(false, Int(-P63 - 1), m)
            && HotRun(p, h, At(0, m), 3) == At(p.moduleEnd, m.PushV(Int(-P63 - 1)))
            && (p.moduleEnd >= 3 ==> Ended(p, HotRun(p, h, At(0, m), 3)))
  {
    var v := Int(-P63 - 1);
    var m := State([], [[v]], [], rest);
    var m1 := m.PushV(Bool(true));
    BigGuardHot(p, h, m, m1);
    BigGuardCold(p, m, m1);
    hide Step, HotStep, Encodes;
    TwoSteps(p, At(0, m));
    assert HotRun(p, h, At(2, m), 1) == HotRun(p, h, HotStep(p, h, At(2, m)), 0);
    assert HotRun(p, h, At(1, m1), 2) == HotRun(p, h, HotStep(p, h, At(1, m1)), 1);
    assert HotRun(p, h, At(0, m), 3) == HotRun(p, h, HotStep(p, h, At(0, m)), 2);
  }

  lemma BigGuardCold(p: Program, m: State, m1: State)
    requires p.code == [LoadFastLtImm(0, 2), GotoIfNot(3), RetFast(0)]
    requires m.frames == [[Int(-P63 - 1)]] && m.rets == [] && m1 == m.PushV(Bool(true))
    ensures Step(p, At(0, m)) == At(1, m1) && Step(p, At(1, m1)) == At(2, m) && Step(p, At(2, m)) == Pending(false, Int(-P63 - 1), m)
  {
    assert m1.Drop(1) == m;
  }

  lemma BigGuardHot(p: Program, h: HotCode, m: State, m1: State)
    requires p.code == [LoadFastLtImm(0, 2), GotoIfNot(3), RetFast(0)] && Encodes(h, p.code)
    requires m.frames == [[Int(-P63 - 1)]] && m.rets == [] && m1 == m.PushV(Bool(true))
    ensures HotStep(p, h, At(0, m)) == Step(p, At(0, m)) && HotStep(p, h, At(1, m1)) == Step(p, At(1, m1))
    ensures HotStep(p, h, At(2, m)) == At(p.moduleEnd, m.PushV(Int(-P63 - 1)))
  {
    hide Step, ReturnSlot, Jump, LightCall;
    assert GroupAt(p.code, 0) == Guard(0);
    assert (h.ops[0], h.args[0]) == HotAt(p.code, 0);
    assert (h.ops[1], h.args[1]) == HotAt(p.code, 1);
    assert (h.ops[2], h.args[2]) == HotAt(p.code, 2);
    SlotImmBack(0, 2);
    hide EncodeSlotImm, DecodeSlotImm;
    assert !SlotInt(m, 0).Inline?;
  }

  lemma {:induction false} RunAdd(p: Program, c: Config, a: nat, b: nat)
    ensures Run(p, c, a + b) == Run(p, Run(p, c, a), b)
    decreases a
  {
    if a > 0 { RunAdd(p, Step(p, c), a - 1, b); }
  }

  /** Any number of hot steps are at least as many cold steps. */
  lemma {:induction false} RunRefines(p: Program, h: HotCode, c: Config, n: nat) returns (k: nat)
    requires Encodes(h, p.code) && AllFit(p.code)
    requires forall j :: 0 <= j < n ==> !Departs(p, HotRun(p, h, c, j))
    ensures n <= k <= 3 * n && HotRun(p, h, c, n) == Run(p, c, k)
    decreases n
  {
    if n == 0 {
      k := 0;
    } else {
      assert HotRun(p, h, c, 0) == c;
      var one := StepRefines(p, h, c);
      var c1 := HotStep(p, h, c);
      forall j | 0 <= j < n - 1 ensures !Departs(p, HotRun(p, h, c1, j)) {
        assert HotRun(p, h, c, j + 1) == HotRun(p, h, c1, j);
      }
      var more := RunRefines(p, h, c1, n - 1);
      RunAdd(p, c, one, more);
      k := one + more;
    }
  }

  predicate Ended(p: Program, c: Config) {
    !c.At? || c.pc >= |p.code|
  }

  lemma {:induction false} EndedStays(p: Program, c: Config, n: nat)
    requires Ended(p, c)
    ensures Run(p, c, n) == c
    decreases n
  {
    if n > 0 { EndedStays(p, c, n - 1); }
  }

  /** A run that ends on the cold code ends on the hot stream, after no more steps and with the
      same result. */
  lemma SameResult(p: Program, h: HotCode, c: Config, n: nat)
    requires Encodes(h, p.code) && AllFit(p.code)
    requires forall j :: 0 <= j < n ==> !Departs(p, HotRun(p, h, c, j))
    requires Ended(p, Run(p, c, n))
    ensures HotRun(p, h, c, n) == Run(p, c, n)
  {
    hide HotStep, Step, AllFit, Encodes, Departs;
    var k := RunRefines(p, h, c, n);
    RunAdd(p, c, n, k - n);
    EndedStays(p, Run(p, c, n), k - n);
  }

  // ----- code that never departs -----

  /** No fused guard, and no fused remainder test of two different slots. */
  predicate Plain(code: Code) {
    forall i :: 0 <= i < |code| ==> !GroupAt(code, i).Guard? && (code[i].LoadFastModEq0? ==> code[i].lhsSlot == code[i].rhsSlot)
  }

  /** The hot machine can depart from the cold one, from some state, exactly when the code has a fused
      guard or a fused remainder test of two different slots. */
  lemma DepartsExactly(p: Program)
    ensures (forall c :: !Departs(p, c)) <==> Plain(p.code)
  {
    if !Plain(p.code) {
      var i :| 0 <= i < |p.code| && (GroupAt(p.code, i).Guard? || (p.code[i].LoadFastModEq0? && p.code[i].lhsSlot != p.code[i].rhsSlot));
      if GroupAt(p.code, i).Guard? {
        assert Stranded(p, At(i + 2, State([], [], [], 0)));
        assert Departs(p, At(i + 2, State([], [], [], 0)));
      } else {
        var a, b := p.code[i].lhsSlot, p.code[i].rhsSlot;
        var slots := Grow(Grow([], a + 1), b + 1)[a := Int(-P63)][b := Int(-1)];
        assert slots[a] == Int(-P63) && slots[b] == Int(-1);
        assert Panics(p, At(i, State([], [slots], [], 0)));
        assert Departs(p, At(i, State([], [slots], [], 0)));
      }
    }
  }

  /** Such code gives the same result on the hot stream, whatever its states are. */
  lemma PlainCodeAgrees(p: Program, h: HotCode, c: Config, n: nat)
    requires Encodes(h, p.code) && AllFit(p.code) && Plain(p.code)
    ensures exists k :: n <= k <= 3 * n && HotRun(p, h, c, n) == Run(p, c, k)
    ensures Ended(p, Run(p, c, n)) ==> HotRun(p, h, c, n) == Run(p, c, n)
  {
    hide HotStep, Step, AllFit, Encodes, Departs, Plain;
    DepartsExactly(p);
    var k := RunRefines(p, h, c, n);
    if Ended(p, Run(p, c, n)) { SameResult(p, h, c, n); }
  }
}
