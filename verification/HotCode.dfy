/** The compact operation stream beside a code array: one operation and one operand for each
    instruction, with some groups of instructions fused into their first. */
module HotCode {

  datatype ArithOp = Add | Sub | Mul | Div | Mod

  datatype CmpOp = Le | Lt | Gt | Ge | Eq | Ne

  /** Cold instructions. `typed` are the variants for two numbers; `usesNames` marks the other
      instructions that need the map from names to slots. */
  datatype Ins =
    | PushSmall(n: int)
    | PushBool(b: bool)
    | LoadFast(slot: nat)
    | StoreFast(slot: nat)
    | BindFast(slot: nat, isConst: bool)
    | LoadGlobal(idx: nat)
    | StoreGlobal(idx: nat)
    | Arith(op: ArithOp, typed: bool)
    | Compare(cmp: CmpOp, typed: bool)
    | AddText
    | AddList
    | LoadFastSubImm(slot: nat, imm: int)
    | LoadFastLeImm(slot: nat, imm: int)
    | LoadFastLtImm(slot: nat, imm: int)
    | LoadFastGtImm(slot: nat, imm: int)
    | LoadFastEqImm(slot: nat, imm: int)
    | LoadFastAddImmStore(slot: nat, imm: int)
    | LoadFastAddStore(dst: nat, src: nat)
    | LoadFastSqrGt(sqrSlot: nat, rhsSlot: nat)
    | LoadFastModEq0(lhsSlot: nat, rhsSlot: nat)
    | Goto(target: nat)
    | GotoIf(target: nat)
    | GotoIfNot(target: nat)
    | LoopCountdown(target: nat)
    | CallSelf(argc: nat)
    | Call(argc: nat)
    | CallGlobal(idx: nat, argc: nat)
    | Ret
    | RetLeave
    | RetFast(slot: nat)
    | Label
    | Other(id: nat, usesNames: bool)

  datatype Op =
    | H_PUSH_SMALL | H_LOAD_FAST | H_ADD_NUM | H_SUB_NUM | H_MUL_NUM | H_DIV_NUM | H_MOD_NUM
    | H_LE | H_LT | H_GT | H_GE | H_EQ | H_NE
    | H_GOTO | H_GOTO_IF | H_GOTO_IF_NOT | H_CALL_SELF | H_RET | H_RET_LEAVE | H_RET_FAST | H_LABEL
    | H_ADD_TEXT | H_ADD_LIST | H_STORE_FAST | H_LOOP_COUNTDOWN | H_LOAD_FAST_SUB_IMM | H_LOAD_FAST_LE_IMM
    | H_LOAD_GLOBAL | H_STORE_GLOBAL | H_CALL | H_CALL_GLOBAL | H_PUSH_BOOL
    | H_LOAD_FAST_LT_IMM | H_LOAD_FAST_GT_IMM | H_LOAD_FAST_EQ_IMM
    | H_LOAD_FAST_ADD_IMM_STORE | H_LOAD_FAST_SQR_GT | H_LOAD_FAST_MOD_EQ0 | H_LOAD_FAST_ADD_STORE
    | H_CALL_SELF_FAST_SUB_IMM | H_GOTO_IF_NOT_FAST_LT_IMM | H_RET_FAST_IF_LT_IMM | H_ADD_NUM_RET
    | H_COLD

  type Code = seq<Ins>

  datatype HotCode = HotCode(ops: seq<Op>, args: seq<int>)

  // ----- operands in 64 bits -----

  const P31 := 0x8000_0000
  const P32 := 0x1_0000_0000
  const P63 := 0x8000_0000_0000_0000
  const P64 := 0x1_0000_0000_0000_0000

  /** The low 32 bits as a signed number. */
  function AsI32(n: int): int {
    var low := n % P32;
    if low < P31 then low else low - P32
  }

  function AsI64(n: int): int {
    var low := n % P64;
    if low < P63 then low else low - P64
  }

  function AsUsize(n: int): nat {
    n % P64
  }

  /** The slot in the low half, the immediate in the high half: the halves do not overlap, so
      joining their bits is adding. */
  function EncodeSlotImm(slot: nat, imm: int): int {
    slot % P32 + AsI32(imm) * P32
  }

  /** An arithmetic shift right by 32 is division rounding down. */
  function DecodeSlotImm(arg: int): (nat, int) {
    (arg % P32, AsI32(arg / P32))
  }

  function EncodeTwoSlots(a: nat, b: nat): int {
    EncodeSlotImm(a, AsI64(b))
  }

  function DecodeTwoSlots(arg: int): (nat, nat) {
    var (a, b) := DecodeSlotImm(arg);
    (a, AsUsize(b))
  }

  lemma Halves(slot: nat, imm: int)
    ensures DecodeSlotImm(EncodeSlotImm(slot, imm)) == (slot % P32, AsI32(imm))
  {
    var low, high := slot % P32, AsI32(imm);
    assert (low + high * P32) % P32 == low && (low + high * P32) / P32 == high;
    assert AsI32(high) == high;
  }

  /** Packing a slot and an immediate loses nothing exactly when the slot fits in 32 bits and the
      immediate is a signed 32-bit number. */
  lemma SlotImmExactly(slot: nat, imm: int)
    ensures DecodeSlotImm(EncodeSlotImm(slot, imm)) == (slot, imm) <==> slot < P32 && -P31 <= imm < P31
  {
    Halves(slot, imm);
  }

  /** Packing two slots loses nothing exactly when the first fits in 32 bits and the second in 31,
      or is one of the highest 2^31 numbers of a machine word. */
  lemma TwoSlotsExactly(a: nat, b: nat)
    requires b < P64
    ensures DecodeTwoSlots(EncodeTwoSlots(a, b)) == (a, b) <==> a < P32 && (b < P31 || b >= P64 - P31)
  {
    Halves(a, AsI64(b));
    assert AsI32(AsI64(b)) == AsI32(b) by {
      assert P64 == P32 * P32;
      assert AsI64(b) % P32 == b % P32;
    }
  }

  // ----- the specification of the encoding -----

  /** A group of instructions, at its first. */
  datatype Group = NoGroup | AddThenRet | SelfCall | Guard(slot: nat) | Branch(target: nat)

  function GroupAt(code: Code, i: int): Group {
    if !(0 <= i && i + 1 < |code|) then NoGroup else
    match code[i]
    case Arith(Add, _) => if code[i + 1] == Ret then AddThenRet else NoGroup
    case LoadFastSubImm(_, _) => if code[i + 1] == CallSelf(1) then SelfCall else NoGroup
    case LoadFastLtImm(_, _) =>
      if !code[i + 1].GotoIfNot? then NoGroup
      else if i + 2 < |code| && code[i + 2].RetFast? && code[i + 1].target == i + 3 then Guard(code[i + 2].slot)
      else Branch(code[i + 1].target)
    case _ => NoGroup
  }

  predicate UsesNameMap(code: Code) {
    exists i :: 0 <= i < |code| && NeedsNames(code[i])
  }

  predicate NeedsNames(i: Ins) {
    (i.Other? && i.usesNames) || (i.BindFast? && i.isConst)
  }

  /** What one instruction becomes on its own. */
  function Alone(i: Ins, names: bool): (Op, int) {
    match i
    case PushSmall(n) => (H_PUSH_SMALL, n)
    case PushBool(b) => (H_PUSH_BOOL, if b then 1 else 0)
    case LoadFast(s) => (H_LOAD_FAST, AsI64(s))
    case StoreFast(s) => (H_STORE_FAST, AsI64(s))
    case BindFast(s, isConst) => if !isConst && !names then (H_STORE_FAST, AsI64(s)) else (H_COLD, 0)
    case LoadGlobal(s) => (H_LOAD_GLOBAL, AsI64(s))
    case StoreGlobal(s) => (H_STORE_GLOBAL, AsI64(s))
    case Arith(op, _) =>
      (match op case Add => H_ADD_NUM case Sub => H_SUB_NUM case Mul => H_MUL_NUM case Div => H_DIV_NUM case Mod => H_MOD_NUM, 0)
    case Compare(c, _) =>
      (match c case Le => H_LE case Lt => H_LT case Gt => H_GT case Ge => H_GE case Eq => H_EQ case Ne => H_NE, 0)
    case AddText => (H_ADD_TEXT, 0)
    case AddList => (H_ADD_LIST, 0)
    case LoadFastSubImm(s, imm) => (H_LOAD_FAST_SUB_IMM, EncodeSlotImm(s, imm))
    case LoadFastLeImm(s, imm) => (H_LOAD_FAST_LE_IMM, EncodeSlotImm(s, imm))
    case LoadFastLtImm(s, imm) => (H_LOAD_FAST_LT_IMM, EncodeSlotImm(s, imm))
    case LoadFastGtImm(s, imm) => (H_LOAD_FAST_GT_IMM, EncodeSlotImm(s, imm))
    case LoadFastEqImm(s, imm) => (H_LOAD_FAST_EQ_IMM, EncodeSlotImm(s, imm))
    case LoadFastAddImmStore(s, imm) => (H_LOAD_FAST_ADD_IMM_STORE, EncodeSlotImm(s, imm))
    case LoadFastAddStore(d, s) => (H_LOAD_FAST_ADD_STORE, EncodeTwoSlots(d, s))
    case LoadFastSqrGt(a, b) => (H_LOAD_FAST_SQR_GT, EncodeTwoSlots(a, b))
    case LoadFastModEq0(a, b) => (H_LOAD_FAST_MOD_EQ0, EncodeTwoSlots(a, b))
    case Goto(t) => (H_GOTO, AsI64(t))
    case GotoIf(t) => (H_GOTO_IF, AsI64(t))
    case GotoIfNot(t) => (H_GOTO_IF_NOT, AsI64(t))
    case LoopCountdown(t) => (H_LOOP_COUNTDOWN, AsI64(t))
    case CallSelf(argc) => (H_CALL_SELF, AsI64(argc))
    case Call(argc) => (H_CALL, AsI64(argc))
    case CallGlobal(g, argc) => (H_CALL_GLOBAL, EncodeSlotImm(g, AsI64(argc)))
    case Ret => (H_RET, 0)
    case RetLeave => (H_RET_LEAVE, 0)
    case RetFast(s) => (H_RET_FAST, AsI64(s))
    case Label => (H_LABEL, 0)
    case Other(_, _) => (H_COLD, 0)
  }

  /** The first of a group carries the fused operation; the slots a fused operation skips are cold
      and hold what it still needs: the branch target, or the slot to return. */
  function HotAt(code: Code, i: nat): (Op, int)
    requires i < |code|
  {
    match GroupAt(code, i)
    case AddThenRet => (H_ADD_NUM_RET, 0)
    case SelfCall => (H_CALL_SELF_FAST_SUB_IMM, EncodeSlotImm(code[i].slot, code[i].imm))
    case Guard(_) => (H_RET_FAST_IF_LT_IMM, EncodeSlotImm(code[i].slot, code[i].imm))
    case Branch(_) => (H_GOTO_IF_NOT_FAST_LT_IMM, EncodeSlotImm(code[i].slot, code[i].imm))
    case NoGroup =>
      match GroupAt(code, i - 1)
      case SelfCall => (H_COLD, 0)
      case Guard(slot) => (H_COLD, AsI64(slot))
      case Branch(target) => (H_COLD, AsI64(target))
      case _ => if GroupAt(code, i - 2).Guard? then (H_COLD, 0) else Alone(code[i], UsesNameMap(code))
  }

  ghost predicate Encodes(h: HotCode, code: Code) {
    && |h.ops| == |code| && |h.args| == |code|
    && forall i :: 0 <= i < |code| ==> (h.ops[i], h.args[i]) == HotAt(code, i)
  }

  // ----- the encoder -----

  method FindNameMap(code: Code) returns (found: bool)
    ensures found == UsesNameMap(code)
  {
    found := false;
    for i := 0 to |code|
      invariant found <==> exists j :: 0 <= j < i && NeedsNames(code[j])
    {
      if NeedsNames(code[i]) {
        found := true;
      }
    }
  }

  /** One pass over the code, looking one instruction back and two ahead. */
  method Encode(code: Code) returns (h: HotCode)
    ensures Encodes(h, code)
  {
    var names := FindNameMap(code);
    var ops: seq<Op>, args: seq<int> := [], [];
    for index := 0 to |code|
      invariant |ops| == index && |args| == index
      invariant forall i :: 0 <= i < index ==> (ops[i], args[i]) == HotAt(code, i)
    {
      var op, arg := EncodeOne(code, index, names);
      ops, args := ops + [op], args + [arg];
    }
    h := HotCode(ops, args);
  }

  method EncodeOne(code: Code, index: nat, names: bool) returns (op: Op, arg: int)
    requires index < |code| && names == UsesNameMap(code)
    ensures (op, arg) == HotAt(code, index)
  {
    var ins := code[index];
    if ins.Arith? && ins.op == Add && index + 1 < |code| && code[index + 1] == Ret {
      return H_ADD_NUM_RET, 0;
    }
    if ins.LoadFastSubImm? && index + 1 < |code| && code[index + 1] == CallSelf(1) {
      return H_CALL_SELF_FAST_SUB_IMM, EncodeSlotImm(ins.slot, ins.imm);
    }
    if ins.LoadFastLtImm? {
      if index + 2 < |code| && code[index + 1].GotoIfNot? && code[index + 2].RetFast? {
        if code[index + 1].target == index + 3 {
          return H_RET_FAST_IF_LT_IMM, EncodeSlotImm(ins.slot, ins.imm);
        }
      }
      if index + 1 < |code| && code[index + 1].GotoIfNot? {
        return H_GOTO_IF_NOT_FAST_LT_IMM, EncodeSlotImm(ins.slot, ins.imm);
      }
    }
    // The fused instruction before advances over this one.
    if ins == CallSelf(1) && index >= 1 && code[index - 1].LoadFastSubImm? {
      return H_COLD, 0;
    }
    if ins.GotoIfNot? {
      if index >= 1 && code[index - 1].LoadFastLtImm? && index + 1 < |code| && code[index + 1].RetFast? {
        if ins.target == index + 2 {
          return H_COLD, AsI64(code[index + 1].slot);
        }
      }
      if index >= 1 && code[index - 1].LoadFastLtImm? {
        return H_COLD, AsI64(ins.target);
      }
    }
    if ins.RetFast? {
      if index >= 2 && code[index - 2].LoadFastLtImm? && code[index - 1].GotoIfNot? {
        if code[index - 1].target == index + 1 {
          return H_COLD, 0;
        }
      }
    }
    var alone := Alone(ins, names);
    return alone.0, alone.1;
  }
}
