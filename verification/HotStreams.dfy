/** The hot streams of the cache are those of the hot encoder: tags become instructions, operations bytes. */
module HotStreams {
  import H = HotCode
  import opened ProgramCodec
  import opened CodecRoundTrip
  import opened CodecFacts

  // ----- instructions by their tags -----

  /** The number among the operands at `i`. */
  function NumAt(fs: Fields, i: nat): nat {
    if fs.NoField? then 0 else if i > 0 then NumAt(fs.tail, i - 1)
    else match fs.head case U32(n) => n case _ => 0
  }

  function ImmAt(fs: Fields, i: nat): int {
    if fs.NoField? then 0 else if i > 0 then ImmAt(fs.tail, i - 1)
    else match fs.head case I64(n) => n case _ => 0
  }

  predicate FlagAt(fs: Fields, i: nat) {
    if fs.NoField? then false else if i > 0 then FlagAt(fs.tail, i - 1) else fs.head == Flag(true)
  }

  /** Pushed constants that have operations of their own. */
  function Pushed(fs: Fields): H.Ins {
    if fs.MoreFields? && fs.head.Val? && fs.head.v.Bool? then H.PushBool(fs.head.v.b)
    else if fs.MoreFields? && fs.head.Val? && fs.head.v.Small? then H.PushSmall(fs.head.v.n)
    else H.Other(1, false)
  }

  const ARITH: map<int, H.ArithOp> := map[4 := H.Add, 5 := H.Add, 8 := H.Sub, 9 := H.Sub, 10 := H.Mul, 11 := H.Mul, 12 := H.Div, 13 := H.Div, 14 := H.Mod, 15 := H.Mod]
  const COMPARE: map<int, H.CmpOp> := map[29 := H.Eq, 30 := H.Eq, 31 := H.Ne, 32 := H.Ne, 33 := H.Lt, 34 := H.Lt, 35 := H.Le, 36 := H.Le, 37 := H.Gt, 38 := H.Gt, 39 := H.Ge, 40 := H.Ge]

  /** By name: `Load`, `Store`, `NewVar`, `NewVarOrLoad`, `DelName`. */
  const BY_NAME := {44, 46, 48, 49, 83}

  function ColdOf(ins: Ins): H.Ins {
    if ins.Unwritable? then H.Other(0, false) else
    var t, fs := ins.tag as int, ins.fields;
    if t == 1 then Pushed(fs)
    else if t == 2 then H.PushSmall(ImmAt(fs, 0))
    else if t in ARITH then H.Arith(ARITH[t], t % 2 == 1)
    else if t in COMPARE then H.Compare(COMPARE[t], t % 2 == 0)
    else if t == 6 then H.AddText
    else if t == 7 then H.AddList
    else if t == 45 then H.LoadGlobal(NumAt(fs, 0))
    else if t == 47 then H.StoreGlobal(NumAt(fs, 0))
    else if t == 50 then H.LoadFast(NumAt(fs, 0))
    else if t == 51 then H.StoreFast(NumAt(fs, 0))
    else if t == 52 then H.LoadFastSubImm(NumAt(fs, 0), ImmAt(fs, 1))
    else if t == 53 then H.LoadFastLeImm(NumAt(fs, 0), ImmAt(fs, 1))
    else if t == 54 then H.BindFast(NumAt(fs, 0), FlagAt(fs, 2))
    else if t == 57 then H.Label
    else if t == 58 then H.Goto(NumAt(fs, 0))
    else if t == 59 then H.GotoIf(NumAt(fs, 0))
    else if t == 60 then H.GotoIfNot(NumAt(fs, 0))
    else if t == 61 then H.LoopCountdown(NumAt(fs, 0))
    else if t == 62 then H.Call(NumAt(fs, 0))
    else if t == 63 then H.CallGlobal(NumAt(fs, 0), NumAt(fs, 1))
    else if t == 64 then H.CallSelf(NumAt(fs, 0))
    else if t == 71 then H.Ret
    else if t == 72 then H.RetFast(NumAt(fs, 0))
    else if t == 73 then H.RetLeave
    else if t == 123 then H.LoadFastLtImm(NumAt(fs, 0), ImmAt(fs, 1))
    else if t == 124 then H.LoadFastGtImm(NumAt(fs, 0), ImmAt(fs, 1))
    else if t == 125 then H.LoadFastEqImm(NumAt(fs, 0), ImmAt(fs, 1))
    else if t == 126 then H.LoadFastAddImmStore(NumAt(fs, 0), ImmAt(fs, 1))
    else if t == 127 then H.LoadFastSqrGt(NumAt(fs, 0), NumAt(fs, 1))
    else if t == 128 then H.LoadFastModEq0(NumAt(fs, 0), NumAt(fs, 1))
    else if t == 129 then H.LoadFastAddStore(NumAt(fs, 0), NumAt(fs, 1))
    else H.Other(t, t in BY_NAME)
  }

  function Colds(code: Code): H.Code {
    if code.NoIns? then [] else [ColdOf(code.head)] + Colds(code.tail)
  }

  // ----- operations as bytes -----

  function OpByte(op: H.Op): Byte {
    match op
    case H_PUSH_SMALL => 0 case H_LOAD_FAST => 1 case H_ADD_NUM => 2 case H_SUB_NUM => 3 case H_MUL_NUM => 4 case H_DIV_NUM => 5
    case H_LE => 6 case H_LT => 7 case H_GT => 8 case H_GE => 9 case H_EQ => 10 case H_NE => 11
    case H_GOTO => 12 case H_GOTO_IF => 13 case H_GOTO_IF_NOT => 14 case H_CALL_SELF => 15
    case H_RET => 16 case H_RET_LEAVE => 17 case H_RET_FAST => 18 case H_LABEL => 19 case H_ADD_TEXT => 20 case H_ADD_LIST => 21
    case H_STORE_FAST => 22 case H_LOOP_COUNTDOWN => 23 case H_LOAD_FAST_SUB_IMM => 24 case H_LOAD_FAST_LE_IMM => 25
    case H_MOD_NUM => 26 case H_LOAD_GLOBAL => 27 case H_STORE_GLOBAL => 28 case H_CALL => 29 case H_CALL_GLOBAL => 30
    case H_PUSH_BOOL => 31 case H_LOAD_FAST_LT_IMM => 32 case H_LOAD_FAST_GT_IMM => 33 case H_LOAD_FAST_EQ_IMM => 34
    case H_LOAD_FAST_ADD_IMM_STORE => 35 case H_LOAD_FAST_SQR_GT => 36 case H_LOAD_FAST_MOD_EQ0 => 37 case H_LOAD_FAST_ADD_STORE => 38
    case H_CALL_SELF_FAST_SUB_IMM => 39 case H_GOTO_IF_NOT_FAST_LT_IMM => 40 case H_RET_FAST_IF_LT_IMM => 41 case H_ADD_NUM_RET => 42
    case H_COLD => 255
  }

  function Stream(h: H.HotCode): Hot {
    Hot(seq(|h.ops|, i requires 0 <= i < |h.ops| => OpByte(h.ops[i])), h.args)
  }

  /** The encoder as a function: what `HotCode.Encode` is proved to give. */
  function Encoded(code: H.Code): H.HotCode {
    H.HotCode(seq(|code|, i requires 0 <= i < |code| => H.HotAt(code, i).0), seq(|code|, i requires 0 <= i < |code| => H.HotAt(code, i).1))
  }

  lemma EncodedOnly(code: H.Code, h: H.HotCode)
    ensures H.Encodes(h, code) <==> h == Encoded(code)
  {
    var e := Encoded(code);
    if H.Encodes(h, code) {
      forall i | 0 <= i < |code| ensures h.ops[i] == e.ops[i] && h.args[i] == e.args[i] { assert (h.ops[i], h.args[i]) == H.HotAt(code, i); }
      assert h.ops == e.ops && h.args == e.args;
    }
  }

  /** The codec makes its hot streams with the encoder. */
  ghost predicate Encoding(k: Codec) {
    forall code :: k.hot(code) == Stream(Encoded(Colds(code)))
  }

  /** What the loader does for a function body. */
  method MakeStream(code: Code) returns (hot: Hot)
    ensures forall k: Codec :: Encoding(k) ==> hot == k.hot(code)
  {
    var h := H.Encode(Colds(code));
    EncodedOnly(Colds(code), h);
    hot := Stream(h);
  }

  // ----- across the cache -----

  /** What is dropped from constants has no part in the stream. */
  lemma {:induction false} ColdsKept(k: Codec, code: Code)
    ensures Colds(KeptCode(k, code)) == Colds(code)
    decreases code
  {
    if code.MoreIns? {
      ColdsKept(k, code.tail);
      if code.head.Ins? { FieldsKept(k, code.head.fields); }
    }
  }

  lemma {:induction false} FieldsKept(k: Codec, fs: Fields)
    ensures Pushed(KeptFields(k, fs)) == Pushed(fs)
    ensures forall i: nat :: NumAt(KeptFields(k, fs), i) == NumAt(fs, i) && ImmAt(KeptFields(k, fs), i) == ImmAt(fs, i)
                        && FlagAt(KeptFields(k, fs), i) == FlagAt(fs, i)
    decreases fs
  {
    if fs.MoreFields? {
      FieldsKept(k, fs.tail);
      forall i: nat ensures NumAt(KeptFields(k, fs), i) == NumAt(fs, i) && ImmAt(KeptFields(k, fs), i) == ImmAt(fs, i)
                         && FlagAt(KeptFields(k, fs), i) == FlagAt(fs, i) {
        if i > 0 {
          assert NumAt(KeptFields(k, fs.tail), i - 1) == NumAt(fs.tail, i - 1);
          assert ImmAt(KeptFields(k, fs.tail), i - 1) == ImmAt(fs.tail, i - 1);
          assert FlagAt(KeptFields(k, fs.tail), i - 1) == FlagAt(fs.tail, i - 1);
        }
      }
    }
  }

  /** A program whose stream is the encoding of its code comes back with that same stream. */
  lemma StreamComesBack(k: Codec, p: Program)
    requires Encoding(k) && p.hot == Stream(Encoded(Colds(p.code)))
    ensures KeptProgram(k, p).hot == p.hot
  {
    ColdsKept(k, p.code);
  }

  lemma FunctionStreamComesBack(k: Codec, f: Function)
    requires Encoding(k) && f.hot == Stream(Encoded(Colds(f.body)))
    ensures KeptFunc(k, f.name, f).hot == f.hot
  {
    ColdsKept(k, f.body);
  }

  /** Whatever bytes are read, the stream of the program is the encoding of its code. */
  lemma LoadedStreamEncodes(k: Codec, b: Bytes)
    requires Encoding(k) && NumbersParse(k) && GetProgram(k, b).Got?
    ensures var p := GetProgram(k, b).v;
            exists h: H.HotCode :: H.Encodes(h, Colds(p.code)) && p.hot == Stream(h)
  {
    ProgramRebuilt(k, b);
    var code := Colds(GetProgram(k, b).v.code);
    EncodedOnly(code, Encoded(code));
    assert H.Encodes(Encoded(code), code);
  }
}
