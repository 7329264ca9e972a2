/** The byte format of compiled programs: what is written and what is read back. */
module ProgramCodec {
  import opened Wrappers

  type Byte = n: int | 0 <= n < 256

  type Bytes = seq<Byte>

  // ----- programs -----

  /** Dict keys and set elements are values that can be keys. `Wide` is a number that does not fit
      in 64 bits, written as text; `Opaque` is any constant that cannot be written. */
  datatype Value =
    | Nil | Bool(b: bool) | Small(n: int) | Wide(id: nat) | Text(s: Bytes) | TypeRef(s: Bytes) | Blob(bytes: Bytes)
    | Func(f: Function)
    | Tuple(items: Values) | FrozenList(items: Values) | FrozenDict(entries: Entries) | FrozenSet(items: Values)
    | Opaque

  datatype Values = NoValue | MoreValues(head: Value, tail: Values) {
    function Count(): nat {
      if NoValue? then 0 else 1 + tail.Count()
    }
  }

  datatype Entries = NoEntry | MoreEntries(key: Value, val: Value, tail: Entries) {
    function Count(): nat {
      if NoEntry? then 0 else 1 + tail.Count()
    }
  }

  /** `note` stands for what is dropped when it is written: the type and default expressions. */
  datatype Param = Param(name: Bytes, variadic: bool, kwvariadic: bool, implicit: bool, strong: bool, note: nat)

  datatype Hot = Hot(ops: Bytes, args: seq<int>)

  /** `refused` are the parts for which a function is not written at all: captured variables, a
      display name, a return type or wrapper, defaults, patterns. `note` is what is dropped: the
      checked types, the source, and all of the module environment but its names. */
  datatype Function = Function(
    name: Bytes, flags: Byte, entryPc: nat, frameSlots: nat, fastLocals: nat, entryLabel: nat, hotArgc: nat,
    params: seq<Param>, hot: Hot, body: Code, lineMap: seq<nat>, columnMap: seq<nat>,
    variadic: Option<nat>, kwvariadic: Option<nat>, sourceFile: Bytes, env: Option<seq<Bytes>>, refused: bool, note: nat)

  datatype Code = NoIns | MoreIns(head: Ins, tail: Code) {
    function Count(): nat {
      if NoIns? then 0 else 1 + tail.Count()
    }
  }

  /** An instruction by its tag, with its operands in the order they are written; or one of the
      macro and type instructions, which cannot be written. */
  datatype Ins = Ins(tag: Byte, fields: Fields) | Unwritable

  datatype Fields = NoField | MoreFields(head: Field, tail: Fields)

  datatype Field = U32(n: nat) | I64(i: int) | Str(s: Bytes) | Strs(ss: seq<Bytes>) | Flag(b: bool) | Val(v: Value)

  datatype Kind = KU32 | KI64 | KStr | KStrs | KFlag | KVal

  datatype Program = Program(
    hot: Hot, lineMap: seq<nat>, columnMap: seq<nat>, globals: seq<Bytes>, frameSlots: nat, localToGlobal: seq<(nat, nat)>,
    code: Code, functions: Functions, refused: bool)

  /** The functions of a program, each with the name it is stored under. */
  datatype Functions = NoFunction | MoreFunctions(name: Bytes, f: Function, tail: Functions) {
    function Count(): nat {
      if NoFunction? then 0 else 1 + tail.Count()
    }
  }

  /** What the format takes from elsewhere: UTF-8, the text of wide numbers, the hot encoder, and
      the version of the package. */
  datatype Codec = Codec(
    utf8: Bytes -> bool, show: nat -> Bytes, parse: Bytes -> Option<Value>, whole: nat -> bool, hot: Code -> Hot, version: Bytes)

  const MAX_BLOB := 16 * 1024 * 1024
  const MAX_ITEMS := 1_000_000
  const MAX_DEPTH := 128
  const MAGIC: Bytes := [0x54, 0x49, 0x56, 0x43]
  const FORMAT := 1

  /** The operands of each instruction. */
  function Shape(tag: Byte): Option<seq<Kind>> {
    if tag == 0 || tag > 130 then None else Some(
    if tag == 1 then [KVal]
    else if tag == 2 then [KI64]
    else if tag in {44, 46, 49, 83, 84, 85, 86, 96, 99, 107, 108} then [KStr]
    else if tag in {45, 47, 50, 51, 57, 58, 59, 60, 61, 62, 64, 72, 74, 75, 76, 77, 101, 109, 120, 121} then [KU32]
    else if tag == 48 then [KStr, KFlag]
    else if tag in {52, 53, 123, 124, 125, 126} then [KU32, KI64]
    else if tag in {63, 102, 127, 128, 129} then [KU32, KU32]
    else if tag == 54 then [KU32, KStr, KFlag]
    else if tag == 93 then [KU32, KU32, KU32]
    else if tag == 106 then [KStrs]
    else [])
  }

  predicate Shaped(fs: Fields, kinds: seq<Kind>) {
    if fs.NoField? then kinds == [] else kinds != [] && KindOf(fs.head) == kinds[0] && Shaped(fs.tail, kinds[1..])
  }

  function KindOf(f: Field): Kind {
    match f
    case U32(_) => KU32
    case I64(_) => KI64
    case Str(_) => KStr
    case Strs(_) => KStrs
    case Flag(_) => KFlag
    case Val(_) => KVal
  }

  // ----- writing -----

  /** `k` bytes, the lowest first. */
  function Little(n: nat, k: nat): Bytes {
    if k == 0 then [] else [n % 256] + Little(n / 256, k - 1)
  }

  function PutU32(n: nat): Bytes {
    Little(n % 0x1_0000_0000, 4)
  }

  function PutI64(n: int): Bytes {
    Little(n % 0x1_0000_0000_0000_0000, 8)
  }

  function PutFlag(b: bool): Bytes {
    if b then [1] else [0]
  }

  function PutStr(s: Bytes): Bytes {
    PutU32(|s|) + s
  }

  function StrItems(ss: seq<Bytes>): Bytes {
    if ss == [] then [] else PutStr(ss[0]) + StrItems(ss[1..])
  }

  function PutStrs(ss: seq<Bytes>): Bytes {
    PutU32(|ss|) + StrItems(ss)
  }

  function NumItems(xs: seq<nat>): Bytes {
    if xs == [] then [] else PutU32(xs[0]) + NumItems(xs[1..])
  }

  function PutNums(xs: seq<nat>): Bytes {
    PutU32(|xs|) + NumItems(xs)
  }

  function PairItems(xs: seq<(nat, nat)>): Bytes {
    if xs == [] then [] else PutU32(xs[0].0) + (PutU32(xs[0].1) + PairItems(xs[1..]))
  }

  function PutOption(o: Option<nat>): Bytes {
    match o
    case None => [0]
    case Some(n) => [1] + PutU32(n)
  }

  function ArgItems(xs: seq<int>): Bytes {
    if xs == [] then [] else PutI64(xs[0]) + ArgItems(xs[1..])
  }

  function PutHot(h: Hot): Bytes {
    PutStr(h.ops) + (PutU32(|h.args|) + ArgItems(h.args))
  }

  function PutParam(p: Param): Bytes {
    PutStr(p.name) + (PutFlag(p.variadic) + (PutFlag(p.kwvariadic) + (PutFlag(p.implicit) + PutFlag(p.strong))))
  }

  function ParamItems(ps: seq<Param>): Bytes {
    if ps == [] then [] else PutParam(ps[0]) + ParamItems(ps[1..])
  }

  function PutEnv(env: Option<seq<Bytes>>): Bytes {
    match env
    case None => [0]
    case Some(names) => [1] + PutStrs(names)
  }

  function Cat(a: Option<Bytes>, b: Option<Bytes>): Option<Bytes> {
    if a.None? || b.None? then None else Some(a.value + b.value)
  }

  function After(a: Bytes, b: Option<Bytes>): Option<Bytes> {
    if b.None? then None else Some(a + b.value)
  }

  function PutValue(k: Codec, v: Value, depth: nat): Option<Bytes>
    decreases v, 1
  {
    if depth > MAX_DEPTH then None else
    match v
    case Nil => Some([0])
    case Bool(b) => Some([1] + PutFlag(b))
    case Small(n) => Some([2] + PutI64(n))
    case Text(s) => Some([3] + PutStr(s))
    case TypeRef(s) => Some([4] + PutStr(s))
    case Blob(b) => Some([5] + PutStr(b))
    case Func(f) => After([6], PutFunc(k, f.name, f))
    case Wide(id) => Some([7] + PutStr(k.show(id)))
    case Tuple(items) => After([8] + PutU32(items.Count()), PutItems(k, items, depth + 1))
    case FrozenList(items) => After([9] + PutU32(items.Count()), PutItems(k, items, depth + 1))
    case FrozenDict(entries) => After([10] + PutU32(entries.Count()), PutEntries(k, entries, depth + 1))
    case FrozenSet(items) => After([11] + PutU32(items.Count()), PutItems(k, items, depth + 1))
    case Opaque => None
  }

  function PutItems(k: Codec, vs: Values, depth: nat): Option<Bytes>
    decreases vs, 0
  {
    if vs.NoValue? then Some([]) else Cat(PutValue(k, vs.head, depth), PutItems(k, vs.tail, depth))
  }

  function PutEntries(k: Codec, es: Entries, depth: nat): Option<Bytes>
    decreases es, 0
  {
    if es.NoEntry? then Some([]) else
    Cat(PutValue(k, es.key, depth), Cat(PutValue(k, es.val, depth), PutEntries(k, es.tail, depth)))
  }

  /** The fixed part of a function before its code. */
  function PutHead(name: Bytes, f: Function): Bytes {
    PutStr(name) + ([f.flags] + (PutU32(f.entryPc) + (PutU32(f.frameSlots) + (PutU32(f.fastLocals) + (PutU32(f.entryLabel)
    + (Little(f.hotArgc % 0x1_0000, 2) + (PutU32(|f.params|) + (ParamItems(f.params) + PutHot(f.hot)))))))))
  }

  /** The part after it. */
  function PutTail(f: Function): Bytes {
    PutNums(f.lineMap) + (PutNums(f.columnMap) + (PutOption(f.variadic) + (PutOption(f.kwvariadic)
    + (PutStr(f.sourceFile) + PutEnv(f.env)))))
  }

  function PutFunc(k: Codec, name: Bytes, f: Function): Option<Bytes>
    decreases f, 1
  {
    if f.refused then None else
    After(PutHead(name, f), Cat(PutCode(k, f.body), Some(PutTail(f))))
  }

  function PutCode(k: Codec, code: Code): Option<Bytes>
    decreases code, 1
  {
    After(PutU32(code.Count()), InsItems(k, code))
  }

  function InsItems(k: Codec, code: Code): Option<Bytes>
    decreases code, 0
  {
    if code.NoIns? then Some([]) else Cat(PutIns(k, code.head), InsItems(k, code.tail))
  }

  function PutIns(k: Codec, i: Ins): Option<Bytes>
    decreases i, 0
  {
    if i.Unwritable? then None else After([i.tag], PutFields(k, i.fields))
  }

  function PutFields(k: Codec, fs: Fields): Option<Bytes>
    decreases fs, 0
  {
    if fs.NoField? then Some([]) else Cat(PutField(k, fs.head), PutFields(k, fs.tail))
  }

  function PutField(k: Codec, f: Field): Option<Bytes>
    decreases f, 0
  {
    match f
    case U32(n) => Some(PutU32(n))
    case I64(i) => Some(PutI64(i))
    case Str(s) => Some(PutStr(s))
    case Strs(ss) => Some(PutStrs(ss))
    case Flag(b) => Some(PutFlag(b))
    case Val(v) => PutValue(k, v, 0)
  }

  function FunctionItems(k: Codec, fs: Functions): Option<Bytes> {
    if fs.NoFunction? then Some([]) else Cat(PutFunc(k, fs.name, fs.f), FunctionItems(k, fs.tail))
  }

  /** Everything before the code. */
  function PutTop(k: Codec, p: Program): Bytes {
    MAGIC + (Little(FORMAT, 2) + (PutStr(k.version) + (PutHot(p.hot) + (PutNums(p.lineMap) + (PutNums(p.columnMap)
    + (PutStrs(p.globals) + (PutU32(p.frameSlots) + (PutU32(|p.localToGlobal|) + PairItems(p.localToGlobal)))))))))
  }

  function PutProgram(k: Codec, p: Program): Option<Bytes> {
    if p.refused then None else
    After(PutTop(k, p), Cat(PutCode(k, p.code), After(PutU32(p.functions.Count()), FunctionItems(k, p.functions))))
  }

  // ----- reading -----

  /** A value and the position after it. */
  datatype Read<+T> = Got(v: T, next: nat) | Bad {
    function Cast<U>(): Read<U>
      requires Bad?
    {
      Bad
    }
  }

  function GetByte(b: Bytes, i: nat): (r: Read<Byte>)
    requires i <= |b|
    ensures r.Got? ==> r.next == i + 1 <= |b|
  {
    if i < |b| then Got(b[i], i + 1) else Bad
  }

  function GetFlag(b: Bytes, i: nat): (r: Read<bool>)
    requires i <= |b|
    ensures r.Got? ==> r.next == i + 1 <= |b|
  {
    if i < |b| then Got(b[i] != 0, i + 1) else Bad
  }

  function FromLittle(s: Bytes): nat {
    if s == [] then 0 else s[0] + 256 * FromLittle(s[1..])
  }

  function GetFixed(b: Bytes, i: nat, k: nat): (r: Read<nat>)
    requires i <= |b|
    ensures r.Got? ==> r.next == i + k <= |b|
  {
    if i + k <= |b| then Got(FromLittle(b[i..i + k]), i + k) else Bad
  }

  function Signed(n: nat): int {
    if n < 0x8000_0000_0000_0000 then n else n - 0x1_0000_0000_0000_0000
  }

  function GetI64(b: Bytes, i: nat): (r: Read<int>)
    requires i <= |b|
    ensures r.Got? ==> r.next == i + 8 <= |b|
  {
    var r := GetFixed(b, i, 8);
    if r.Bad? then Bad else Got(Signed(r.v), r.next)
  }

  /** A length is refused above its limit, and when fewer bytes than that are left. */
  function GetCount(b: Bytes, i: nat, max: nat): (r: Read<nat>)
    requires i <= |b|
    ensures r.Got? ==> r.next == i + 4 <= |b| && r.v <= max && r.v <= |b| - r.next
  {
    var r := GetFixed(b, i, 4);
    if r.Bad? || r.v > max || r.v > |b| - r.next then Bad else r
  }

  function GetBlob(b: Bytes, i: nat): (r: Read<Bytes>)
    requires i <= |b|
    ensures r.Got? ==> i < r.next <= |b|
  {
    var n := GetCount(b, i, MAX_BLOB);
    if n.Bad? then Bad else Got(b[n.next..n.next + n.v], n.next + n.v)
  }

  function GetStr(k: Codec, b: Bytes, i: nat): (r: Read<Bytes>)
    requires i <= |b|
    ensures r.Got? ==> i < r.next <= |b|
  {
    var r := GetBlob(b, i);
    if r.Bad? || !k.utf8(r.v) then Bad else r
  }

  function GetStrItems(k: Codec, b: Bytes, i: nat, n: nat): (r: Read<seq<Bytes>>)
    requires i <= |b|
    ensures r.Got? ==> i <= r.next <= |b|
    decreases n
  {
    if n == 0 then Got([], i) else
    var s := GetStr(k, b, i);
    if s.Bad? then Bad else
    var rest := GetStrItems(k, b, s.next, n - 1);
    if rest.Bad? then Bad else Got([s.v] + rest.v, rest.next)
  }

  function GetStrs(k: Codec, b: Bytes, i: nat): (r: Read<seq<Bytes>>)
    requires i <= |b|
    ensures r.Got? ==> i < r.next <= |b|
  {
    var n := GetCount(b, i, MAX_ITEMS);
    if n.Bad? then Bad else GetStrItems(k, b, n.next, n.v)
  }

  function GetNumItems(b: Bytes, i: nat, n: nat): (r: Read<seq<nat>>)
    requires i <= |b|
    ensures r.Got? ==> i <= r.next <= |b|
    decreases n
  {
    if n == 0 then Got([], i) else
    var x := GetFixed(b, i, 4);
    if x.Bad? then Bad else
    var rest := GetNumItems(b, x.next, n - 1);
    if rest.Bad? then Bad else Got([x.v] + rest.v, rest.next)
  }

  function GetNums(b: Bytes, i: nat): (r: Read<seq<nat>>)
    requires i <= |b|
    ensures r.Got? ==> i < r.next <= |b|
  {
    var n := GetCount(b, i, MAX_ITEMS);
    if n.Bad? then Bad else GetNumItems(b, n.next, n.v)
  }

  function GetPairItems(b: Bytes, i: nat, n: nat): (r: Read<seq<(nat, nat)>>)
    requires i <= |b|
    ensures r.Got? ==> i <= r.next <= |b|
    decreases n
  {
    if n == 0 then Got([], i) else
    var x := GetFixed(b, i, 4);
    if x.Bad? then Bad else
    var y := GetFixed(b, x.next, 4);
    if y.Bad? then Bad else
    var rest := GetPairItems(b, y.next, n - 1);
    if rest.Bad? then Bad else Got([(x.v, y.v)] + rest.v, rest.next)
  }

  function GetOption(b: Bytes, i: nat): (r: Read<Option<nat>>)
    requires i <= |b|
    ensures r.Got? ==> i < r.next <= |b|
  {
    var t := GetByte(b, i);
    if t.Bad? then Bad else if t.v == 0 then Got(None, t.next) else
    var x := GetFixed(b, t.next, 4);
    if x.Bad? then Bad else Got(Some(x.v), x.next)
  }

  function GetArgItems(b: Bytes, i: nat, n: nat): (r: Read<seq<int>>)
    requires i <= |b|
    ensures r.Got? ==> i <= r.next <= |b|
    decreases n
  {
    if n == 0 then Got([], i) else
    var x := GetI64(b, i);
    if x.Bad? then Bad else
    var rest := GetArgItems(b, x.next, n - 1);
    if rest.Bad? then Bad else Got([x.v] + rest.v, rest.next)
  }

  function GetHot(b: Bytes, i: nat): (r: Read<Hot>)
    requires i <= |b|
    ensures r.Got? ==> i < r.next <= |b|
  {
    var ops := GetBlob(b, i);
    if ops.Bad? then Bad else
    var n := GetCount(b, ops.next, MAX_ITEMS);
    if n.Bad? then Bad else
    var args := GetArgItems(b, n.next, n.v);
    if args.Bad? then Bad else Got(Hot(ops.v, args.v), args.next)
  }

  function GetParam(k: Codec, b: Bytes, i: nat): (r: Read<Param>)
    requires i <= |b|
    ensures r.Got? ==> i < r.next <= |b|
  {
    var s := GetStr(k, b, i);
    if s.Bad? || s.next + 4 > |b| then Bad else
    Got(Param(s.v, b[s.next] != 0, b[s.next + 1] != 0, b[s.next + 2] != 0, b[s.next + 3] != 0, 0), s.next + 4)
  }

  function GetParamItems(k: Codec, b: Bytes, i: nat, n: nat): (r: Read<seq<Param>>)
    requires i <= |b|
    ensures r.Got? ==> i <= r.next <= |b|
    decreases n
  {
    if n == 0 then Got([], i) else
    var x := GetParam(k, b, i);
    if x.Bad? then Bad else
    var rest := GetParamItems(k, b, x.next, n - 1);
    if rest.Bad? then Bad else Got([x.v] + rest.v, rest.next)
  }

  function GetEnv(k: Codec, b: Bytes, i: nat): (r: Read<Option<seq<Bytes>>>)
    requires i <= |b|
    ensures r.Got? ==> i < r.next <= |b|
  {
    var t := GetByte(b, i);
    if t.Bad? then Bad else if t.v == 0 then Got(None, t.next) else
    var names := GetStrs(k, b, t.next);
    if names.Bad? then Bad else Got(Some(names.v), names.next)
  }

  predicate IsKey(k: Codec, v: Value) {
    v.Bool? || v.Small? || v.Text? || (v.Wide? && k.whole(v.id))
  }

  /** Reading ends because every value takes at least one byte; a function constant starts again
      at depth 0. */
  function GetValue(k: Codec, b: Bytes, i: nat, depth: nat): (r: Read<Value>)
    requires i <= |b|
    ensures r.Got? ==> i < r.next <= |b|
    decreases |b| - i, 1, 0
  {
    if depth > MAX_DEPTH then Bad else
    var t := GetByte(b, i);
    if t.Bad? then Bad else
    match t.v
    case 0 => Got(Nil, t.next)
    case 1 => var x := GetFlag(b, t.next); if x.Bad? then Bad else Got(Bool(x.v), x.next)
    case 2 => var x := GetI64(b, t.next); if x.Bad? then Bad else Got(Small(x.v), x.next)
    case 3 => var x := GetStr(k, b, t.next); if x.Bad? then Bad else Got(Text(x.v), x.next)
    case 4 => var x := GetStr(k, b, t.next); if x.Bad? then Bad else Got(TypeRef(x.v), x.next)
    case 5 => var x := GetBlob(b, t.next); if x.Bad? then Bad else Got(Blob(x.v), x.next)
    case 6 => var x := GetFunc(k, b, t.next); if x.Bad? then Bad else Got(Func(x.v), x.next)
    case 7 =>
      var x := GetStr(k, b, t.next);
      if x.Bad? || k.parse(x.v).None? then Bad else Got(k.parse(x.v).value, x.next)
    case 8 => var x := GetCounted(k, b, t.next, depth + 1, false); if x.Bad? then Bad else Got(Tuple(x.v), x.next)
    case 9 => var x := GetCounted(k, b, t.next, depth + 1, false); if x.Bad? then Bad else Got(FrozenList(x.v), x.next)
    case 10 =>
      var n := GetCount(b, t.next, MAX_ITEMS);
      if n.Bad? then Bad else
      var x := GetEntries(k, b, n.next, n.v, depth + 1);
      if x.Bad? then Bad else Got(FrozenDict(x.v), x.next)
    case 11 => var x := GetCounted(k, b, t.next, depth + 1, true); if x.Bad? then Bad else Got(FrozenSet(x.v), x.next)
    case _ => Bad
  }

  function GetCounted(k: Codec, b: Bytes, i: nat, depth: nat, keys: bool): (r: Read<Values>)
    requires i <= |b|
    ensures r.Got? ==> i < r.next <= |b|
    decreases |b| - i, 2, 0
  {
    var n := GetCount(b, i, MAX_ITEMS);
    if n.Bad? then Bad else GetItems(k, b, n.next, n.v, depth, keys)
  }

  function GetItems(k: Codec, b: Bytes, i: nat, n: nat, depth: nat, keys: bool): (r: Read<Values>)
    requires i <= |b|
    ensures r.Got? ==> i <= r.next <= |b|
    decreases |b| - i, 2, n
  {
    if n == 0 then Got(NoValue, i) else
    var x := GetValue(k, b, i, depth);
    if x.Bad? || (keys && !IsKey(k, x.v)) then Bad else
    var rest := GetItems(k, b, x.next, n - 1, depth, keys);
    if rest.Bad? then Bad else Got(MoreValues(x.v, rest.v), rest.next)
  }

  function GetEntries(k: Codec, b: Bytes, i: nat, n: nat, depth: nat): (r: Read<Entries>)
    requires i <= |b|
    ensures r.Got? ==> i <= r.next <= |b|
    decreases |b| - i, 2, n
  {
    if n == 0 then Got(NoEntry, i) else
    var x := GetValue(k, b, i, depth);
    if x.Bad? || !IsKey(k, x.v) then Bad else
    var y := GetValue(k, b, x.next, depth);
    if y.Bad? then Bad else
    var rest := GetEntries(k, b, y.next, n - 1, depth);
    if rest.Bad? then Bad else Got(MoreEntries(x.v, y.v, rest.v), rest.next)
  }

  /** The head of a function, with empty code. */
  function GetHead(k: Codec, b: Bytes, i: nat): (r: Read<Function>)
    requires i <= |b|
    ensures r.Got? ==> i < r.next <= |b|
  {
    var name := GetStr(k, b, i);
    if name.Bad? || name.next + 19 > |b| then Bad else
    var at := name.next;
    var n := GetCount(b, at + 19, MAX_ITEMS);
    if n.Bad? then Bad else
    var params := GetParamItems(k, b, n.next, n.v);
    if params.Bad? then Bad else
    var hot := GetHot(b, params.next);
    if hot.Bad? then Bad else
    Got(Function(name.v, b[at], GetFixed(b, at + 1, 4).v, GetFixed(b, at + 5, 4).v, GetFixed(b, at + 9, 4).v, GetFixed(b, at + 13, 4).v,
                 GetFixed(b, at + 17, 2).v, params.v, hot.v, NoIns, [], [], None, None, [], None, false, 0), hot.next)
  }

  /** The tail of a function, added to what has been read. */
  function GetTail(k: Codec, b: Bytes, i: nat, f: Function): (r: Read<Function>)
    requires i <= |b|
    ensures r.Got? ==> i < r.next <= |b|
  {
    var lines := GetNums(b, i);
    if lines.Bad? then Bad else
    var columns := GetNums(b, lines.next);
    if columns.Bad? then Bad else
    var variadic := GetOption(b, columns.next);
    if variadic.Bad? then Bad else
    var kwvariadic := GetOption(b, variadic.next);
    if kwvariadic.Bad? then Bad else
    var file := GetStr(k, b, kwvariadic.next);
    if file.Bad? then Bad else
    var env := GetEnv(k, b, file.next);
    if env.Bad? then Bad else
    Got(f.(lineMap := lines.v, columnMap := columns.v, variadic := variadic.v, kwvariadic := kwvariadic.v, sourceFile := file.v, env := env.v),
        env.next)
  }

  /** The hot stream that was written is read over; the one that is used is made anew. */
  function GetFunc(k: Codec, b: Bytes, i: nat): (r: Read<Function>)
    requires i <= |b|
    ensures r.Got? ==> i < r.next <= |b|
    decreases |b| - i, 1, 0
  {
    var head := GetHead(k, b, i);
    if head.Bad? then Bad else
    var body := GetCode(k, b, head.next);
    if body.Bad? then Bad else
    GetTail(k, b, body.next, head.v.(body := body.v, hot := k.hot(body.v)))
  }

  function GetCode(k: Codec, b: Bytes, i: nat): (r: Read<Code>)
    requires i <= |b|
    ensures r.Got? ==> i < r.next <= |b|
    decreases |b| - i, 2, 0
  {
    var n := GetCount(b, i, MAX_ITEMS);
    if n.Bad? then Bad else GetInsItems(k, b, n.next, n.v)
  }

  function GetInsItems(k: Codec, b: Bytes, i: nat, n: nat): (r: Read<Code>)
    requires i <= |b|
    ensures r.Got? ==> i <= r.next <= |b|
    decreases |b| - i, 2, n
  {
    if n == 0 then Got(NoIns, i) else
    var x := GetIns(k, b, i);
    if x.Bad? then Bad else
    var rest := GetInsItems(k, b, x.next, n - 1);
    if rest.Bad? then Bad else Got(MoreIns(x.v, rest.v), rest.next)
  }

  function GetIns(k: Codec, b: Bytes, i: nat): (r: Read<Ins>)
    requires i <= |b|
    ensures r.Got? ==> i < r.next <= |b|
    decreases |b| - i, 1, 0
  {
    var t := GetByte(b, i);
    if t.Bad? || Shape(t.v).None? then Bad else
    var fs := GetFields(k, b, t.next, Shape(t.v).value);
    if fs.Bad? then Bad else Got(Ins(t.v, fs.v), fs.next)
  }

  function GetFields(k: Codec, b: Bytes, i: nat, kinds: seq<Kind>): (r: Read<Fields>)
    requires i <= |b|
    ensures r.Got? ==> i <= r.next <= |b|
    decreases |b| - i, 3, |kinds|
  {
    if kinds == [] then Got(NoField, i) else
    var x := GetField(k, b, i, kinds[0]);
    if x.Bad? then Bad else
    var rest := GetFields(k, b, x.next, kinds[1..]);
    if rest.Bad? then Bad else Got(MoreFields(x.v, rest.v), rest.next)
  }

  function GetField(k: Codec, b: Bytes, i: nat, kind: Kind): (r: Read<Field>)
    requires i <= |b|
    ensures r.Got? ==> i < r.next <= |b|
    decreases |b| - i, 2, 0
  {
    match kind
    case KU32 => var x := GetFixed(b, i, 4); if x.Bad? then Bad else Got(U32(x.v), x.next)
    case KI64 => var x := GetI64(b, i); if x.Bad? then Bad else Got(I64(x.v), x.next)
    case KStr => var x := GetStr(k, b, i); if x.Bad? then Bad else Got(Str(x.v), x.next)
    case KStrs => var x := GetStrs(k, b, i); if x.Bad? then Bad else Got(Strs(x.v), x.next)
    case KFlag => var x := GetFlag(b, i); if x.Bad? then Bad else Got(Flag(x.v), x.next)
    case KVal => var x := GetValue(k, b, i, 0); if x.Bad? then Bad else Got(Val(x.v), x.next)
  }

  function GetFunctionItems(k: Codec, b: Bytes, i: nat, n: nat): (r: Read<Functions>)
    requires i <= |b|
    ensures r.Got? ==> i <= r.next <= |b|
    decreases n
  {
    if n == 0 then Got(NoFunction, i) else
    var f := GetFunc(k, b, i);
    if f.Bad? then Bad else
    var rest := GetFunctionItems(k, b, f.next, n - 1);
    if rest.Bad? then Bad else Got(MoreFunctions(f.v.name, f.v, rest.v), rest.next)
  }

  /** Magic, format and package version have to be this compiler's. */
  function GetPreamble(k: Codec, b: Bytes): (r: Read<()>)
    ensures r.Got? ==> 0 < r.next <= |b|
  {
    if |b| < 6 || b[..4] != MAGIC || FromLittle(b[4..6]) != FORMAT then Bad else
    var version := GetStr(k, b, 6);
    if version.Bad? || version.v != k.version then Bad else Got((), version.next)
  }

  /** Everything between the preamble and the code. */
  function GetTables(k: Codec, b: Bytes, i: nat): (r: Read<Program>)
    requires i <= |b|
    ensures r.Got? ==> i < r.next <= |b|
  {
    var hot := GetHot(b, i);
    if hot.Bad? then Bad else
    var lines := GetNums(b, hot.next);
    if lines.Bad? then Bad else
    var columns := GetNums(b, lines.next);
    if columns.Bad? then Bad else
    var globals := GetStrs(k, b, columns.next);
    if globals.Bad? then Bad else
    var slots := GetFixed(b, globals.next, 4);
    if slots.Bad? then Bad else
    var n := GetCount(b, slots.next, MAX_ITEMS);
    if n.Bad? then Bad else
    var pairs := GetPairItems(b, n.next, n.v);
    if pairs.Bad? then Bad else
    Got(Program(hot.v, lines.v, columns.v, globals.v, slots.v, pairs.v, NoIns, NoFunction, false), pairs.next)
  }

  function GetProgram(k: Codec, b: Bytes): (r: Read<Program>)
    ensures r.Got? ==> 0 < r.next <= |b|
  {
    var preamble := GetPreamble(k, b);
    if preamble.Bad? then Bad else
    var tables := GetTables(k, b, preamble.next);
    if tables.Bad? then Bad else
    var code := GetCode(k, b, tables.next);
    if code.Bad? then Bad else
    var n := GetCount(b, code.next, MAX_ITEMS);
    if n.Bad? then Bad else
    var functions := GetFunctionItems(k, b, n.next, n.v);
    if functions.Bad? then Bad else
    Got(tables.v.(hot := k.hot(code.v), code := code.v, functions := functions.v), functions.next)
  }
}
