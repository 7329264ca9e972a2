/** Reading what was written: for every program that is written and fits the limits, reading gives
    it back, but for what writing drops; and exactly the programs with nothing to drop come back
    unchanged. */
module CodecRoundTrip {
  import opened Wrappers
  import opened ProgramCodec

  // ----- the limits of the format -----

  const P16 := 0x1_0000
  const P32 := 0x1_0000_0000
  const P63 := 0x8000_0000_0000_0000

  predicate Word(n: nat) {
    n < P32
  }

  predicate FitsStr(k: Codec, s: Bytes) {
    |s| <= MAX_BLOB && k.utf8(s)
  }

  predicate FitsStrs(k: Codec, ss: seq<Bytes>) {
    |ss| <= MAX_ITEMS && forall s :: s in ss ==> FitsStr(k, s)
  }

  predicate FitsNums(xs: seq<nat>) {
    |xs| <= MAX_ITEMS && forall x :: x in xs ==> Word(x)
  }

  predicate FitsHot(h: Hot) {
    |h.ops| <= MAX_BLOB && |h.args| <= MAX_ITEMS && forall x :: x in h.args ==> -P63 <= x < P63
  }

  predicate FitsOption(o: Option<nat>) {
    o.Some? ==> Word(o.value)
  }

  predicate FitsValue(k: Codec, v: Value)
    decreases v, 1
  {
    match v
    case Small(n) => -P63 <= n < P63
    case Text(s) => FitsStr(k, s)
    case TypeRef(s) => FitsStr(k, s)
    case Blob(b) => |b| <= MAX_BLOB
    case Func(f) => FitsFunc(k, f) && FitsStr(k, f.name)
    case Wide(id) => FitsStr(k, k.show(id)) && k.parse(k.show(id)) == Some(v)
    case Tuple(items) => items.Count() <= MAX_ITEMS && FitsItems(k, items, false)
    case FrozenList(items) => items.Count() <= MAX_ITEMS && FitsItems(k, items, false)
    case FrozenDict(entries) => entries.Count() <= MAX_ITEMS && FitsEntries(k, entries)
    case FrozenSet(items) => items.Count() <= MAX_ITEMS && FitsItems(k, items, true)
    case _ => true
  }

  predicate FitsItems(k: Codec, vs: Values, keys: bool)
    decreases vs, 0
  {
    vs.MoreValues? ==> FitsValue(k, vs.head) && (keys ==> IsKey(k, vs.head)) && FitsItems(k, vs.tail, keys)
  }

  predicate FitsEntries(k: Codec, es: Entries)
    decreases es, 0
  {
    es.MoreEntries? ==> FitsValue(k, es.key) && IsKey(k, es.key) && FitsValue(k, es.val) && FitsEntries(k, es.tail)
  }

  predicate FitsFunc(k: Codec, f: Function)
    decreases f, 1
  {
    && Word(f.entryPc) && Word(f.frameSlots) && Word(f.fastLocals) && Word(f.entryLabel) && f.hotArgc < P16
    && |f.params| <= MAX_ITEMS && (forall q :: q in f.params ==> FitsStr(k, q.name)) && FitsHot(f.hot) && FitsCode(k, f.body)
    && FitsNums(f.lineMap) && FitsNums(f.columnMap) && FitsOption(f.variadic) && FitsOption(f.kwvariadic)
    && FitsStr(k, f.sourceFile) && (f.env.Some? ==> FitsStrs(k, f.env.value))
  }

  predicate FitsCode(k: Codec, code: Code)
    decreases code, 1
  {
    code.Count() <= MAX_ITEMS && FitsIns(k, code)
  }

  predicate FitsIns(k: Codec, code: Code)
    decreases code, 0
  {
    code.MoreIns? && code.head.Ins? ==>
      && Shape(code.head.tag).Some? && Shaped(code.head.fields, Shape(code.head.tag).value)
      && FitsFields(k, code.head.fields) && FitsIns(k, code.tail)
  }

  predicate FitsFields(k: Codec, fs: Fields)
    decreases fs, 0
  {
    fs.MoreFields? ==> FitsField(k, fs.head) && FitsFields(k, fs.tail)
  }

  predicate FitsField(k: Codec, f: Field)
    decreases f, 0
  {
    match f
    case U32(n) => Word(n)
    case I64(i) => -P63 <= i < P63
    case Str(s) => FitsStr(k, s)
    case Strs(ss) => FitsStrs(k, ss)
    case Flag(_) => true
    case Val(v) => FitsValue(k, v)
  }

  predicate FitsFunctions(k: Codec, fs: Functions) {
    fs.MoreFunctions? ==> FitsStr(k, fs.name) && FitsFunc(k, fs.f) && FitsFunctions(k, fs.tail)
  }

  predicate FitsProgram(k: Codec, p: Program) {
    && FitsStr(k, k.version) && FitsHot(p.hot) && FitsNums(p.lineMap) && FitsNums(p.columnMap) && FitsStrs(k, p.globals)
    && Word(p.frameSlots) && |p.localToGlobal| <= MAX_ITEMS && (forall q :: q in p.localToGlobal ==> Word(q.0) && Word(q.1))
    && FitsCode(k, p.code) && p.functions.Count() <= MAX_ITEMS && FitsFunctions(k, p.functions)
  }

  // ----- what comes back -----

  function Kept(k: Codec, v: Value): Value
    decreases v, 1
  {
    match v
    case Func(f) => Func(KeptFunc(k, f.name, f))
    case Tuple(items) => Tuple(KeptItems(k, items))
    case FrozenList(items) => FrozenList(KeptItems(k, items))
    case FrozenDict(entries) => FrozenDict(KeptEntries(k, entries))
    case FrozenSet(items) => FrozenSet(KeptItems(k, items))
    case _ => v
  }

  function KeptItems(k: Codec, vs: Values): Values
    decreases vs, 0
  {
    if vs.NoValue? then NoValue else MoreValues(Kept(k, vs.head), KeptItems(k, vs.tail))
  }

  function KeptEntries(k: Codec, es: Entries): Entries
    decreases es, 0
  {
    if es.NoEntry? then NoEntry else MoreEntries(Kept(k, es.key), Kept(k, es.val), KeptEntries(k, es.tail))
  }

  function KeptParams(ps: seq<Param>): (r: seq<Param>)
    ensures |r| == |ps| && forall i :: 0 <= i < |ps| ==> r[i] == ps[i].(note := 0)
  {
    if ps == [] then [] else [ps[0].(note := 0)] + KeptParams(ps[1..])
  }

  function KeptFunc(k: Codec, name: Bytes, f: Function): Function
    decreases f, 1
  {
    var body := KeptCode(k, f.body);
    f.(name := name, params := KeptParams(f.params), body := body, hot := k.hot(body), refused := false, note := 0)
  }

  function KeptCode(k: Codec, code: Code): Code
    decreases code, 0
  {
    if code.NoIns? then NoIns else
    MoreIns(if code.head.Ins? then Ins(code.head.tag, KeptFields(k, code.head.fields)) else Unwritable, KeptCode(k, code.tail))
  }

  function KeptFields(k: Codec, fs: Fields): Fields
    decreases fs, 0
  {
    if fs.NoField? then NoField else
    MoreFields(if fs.head.Val? then Val(Kept(k, fs.head.v)) else fs.head, KeptFields(k, fs.tail))
  }

  function KeptFunctions(k: Codec, fs: Functions): Functions {
    if fs.NoFunction? then NoFunction else MoreFunctions(fs.name, KeptFunc(k, fs.name, fs.f), KeptFunctions(k, fs.tail))
  }

  function KeptProgram(k: Codec, p: Program): Program {
    var code := KeptCode(k, p.code);
    p.(hot := k.hot(code), code := code, functions := KeptFunctions(k, p.functions))
  }

  // ----- positions -----

  /** `e` stands in `b` at `i`. */
  predicate Here(b: Bytes, i: nat, e: Bytes) {
    i + |e| <= |b| && b[i..i + |e|] == e
  }

  lemma Split(b: Bytes, i: nat, x: Bytes, y: Bytes)
    requires Here(b, i, x + y)
    ensures Here(b, i, x) && Here(b, i + |x|, y)
  {
    var e := x + y;
    assert b[i..i + |x|] == e[..|x|] == x;
    assert b[i + |x|..i + |x| + |y|] == e[|x|..] == y;
  }

  function Pow(k: nat): nat {
    if k == 0 then 1 else 256 * Pow(k - 1)
  }

  lemma {:induction false} LittleBack(n: nat, k: nat)
    requires n < Pow(k)
    ensures |Little(n, k)| == k && FromLittle(Little(n, k)) == n
    decreases k
  {
    if k > 0 {
      LittleBack(n / 256, k - 1);
      assert Little(n, k)[1..] == Little(n / 256, k - 1);
    }
  }

  lemma Powers()
    ensures Pow(2) == P16 && Pow(4) == P32 && Pow(8) == 2 * P63
  {
    assert Pow(2) == 256 * Pow(1) == 256 * 256;
    assert Pow(4) == 256 * Pow(3) == 256 * (256 * Pow(2));
    assert Pow(6) == 256 * Pow(5) == 256 * (256 * Pow(4));
    assert Pow(8) == 256 * Pow(7) == 256 * (256 * Pow(6));
  }

  lemma RoundU32(n: nat, b: Bytes, i: nat)
    requires Word(n) && Here(b, i, PutU32(n))
    ensures |PutU32(n)| == 4 && GetFixed(b, i, 4) == Got(n, i + 4)
  {
    hide Little, FromLittle, Pow;
    Powers();
    LittleBack(n, 4);
  }

  lemma RoundI64(n: int, b: Bytes, i: nat)
    requires -P63 <= n < P63 && Here(b, i, PutI64(n))
    ensures |PutI64(n)| == 8 && GetI64(b, i) == Got(n, i + 8)
  {
    hide Little, FromLittle, Pow;
    Powers();
    LittleBack(n % (2 * P63), 8);
  }

  lemma U32Length(n: nat)
    ensures |PutU32(n)| == 4
  {
    Powers();
    LittleBack(n % P32, 4);
  }

  lemma RoundCount(n: nat, max: nat, b: Bytes, i: nat, rest: Bytes)
    requires Word(n) && n <= max && n <= |rest| && Here(b, i, PutU32(n) + rest)
    ensures GetCount(b, i, max) == Got(n, i + 4) && Here(b, i + 4, rest) && |PutU32(n)| == 4
  {
    Split(b, i, PutU32(n), rest);
    RoundU32(n, b, i);
  }

  lemma RoundBlob(s: Bytes, b: Bytes, i: nat)
    requires |s| <= MAX_BLOB && Here(b, i, PutStr(s))
    ensures GetBlob(b, i) == Got(s, i + |PutStr(s)|) && |PutStr(s)| == 4 + |s|
  {
    RoundCount(|s|, MAX_BLOB, b, i, s);
  }

  lemma RoundStr(k: Codec, s: Bytes, b: Bytes, i: nat)
    requires FitsStr(k, s) && Here(b, i, PutStr(s))
    ensures GetStr(k, b, i) == Got(s, i + |PutStr(s)|) && |PutStr(s)| == 4 + |s|
  {
    RoundBlob(s, b, i);
  }

  lemma RoundFlag(x: bool, b: Bytes, i: nat)
    requires Here(b, i, PutFlag(x))
    ensures GetFlag(b, i) == Got(x, i + 1)
  {
    assert b[i..i + 1][0] == b[i];
  }

  // ----- lists of plain things -----

  lemma {:induction false} RoundStrItems(k: Codec, ss: seq<Bytes>, b: Bytes, i: nat)
    requires (forall s :: s in ss ==> FitsStr(k, s)) && Here(b, i, StrItems(ss))
    ensures GetStrItems(k, b, i, |ss|) == Got(ss, i + |StrItems(ss)|) && |StrItems(ss)| >= |ss|
    decreases |ss|
  {
    if ss != [] {
      assert ss == [ss[0]] + ss[1..];
      Split(b, i, PutStr(ss[0]), StrItems(ss[1..]));
      RoundStr(k, ss[0], b, i);
      RoundStrItems(k, ss[1..], b, i + |PutStr(ss[0])|);
    }
  }

  lemma {:induction false} StrItemsLong(ss: seq<Bytes>)
    ensures |StrItems(ss)| >= |ss|
    decreases |ss|
  {
    if ss != [] {
      U32Length(|ss[0]|);
      StrItemsLong(ss[1..]);
    }
  }

  lemma RoundStrs(k: Codec, ss: seq<Bytes>, b: Bytes, i: nat)
    requires FitsStrs(k, ss) && Here(b, i, PutStrs(ss))
    ensures GetStrs(k, b, i) == Got(ss, i + |PutStrs(ss)|)
  {
    StrItemsLong(ss);
    RoundCount(|ss|, MAX_ITEMS, b, i, StrItems(ss));
    RoundStrItems(k, ss, b, i + 4);
  }

  lemma {:induction false} NumItemsLong(xs: seq<nat>)
    ensures |NumItems(xs)| >= |xs|
    decreases |xs|
  {
    if xs != [] {
      U32Length(xs[0]);
      NumItemsLong(xs[1..]);
    }
  }

  lemma {:induction false} RoundNumItems(xs: seq<nat>, b: Bytes, i: nat)
    requires (forall x :: x in xs ==> Word(x)) && Here(b, i, NumItems(xs))
    ensures GetNumItems(b, i, |xs|) == Got(xs, i + |NumItems(xs)|)
    decreases |xs|
  {
    if xs != [] {
      assert xs == [xs[0]] + xs[1..];
      Split(b, i, PutU32(xs[0]), NumItems(xs[1..]));
      RoundU32(xs[0], b, i);
      RoundNumItems(xs[1..], b, i + 4);
    }
  }

  lemma RoundNums(xs: seq<nat>, b: Bytes, i: nat)
    requires FitsNums(xs) && Here(b, i, PutNums(xs))
    ensures GetNums(b, i) == Got(xs, i + |PutNums(xs)|)
  {
    NumItemsLong(xs);
    RoundCount(|xs|, MAX_ITEMS, b, i, NumItems(xs));
    RoundNumItems(xs, b, i + 4);
  }

  lemma {:induction false} RoundPairItems(xs: seq<(nat, nat)>, b: Bytes, i: nat)
    requires (forall x :: x in xs ==> Word(x.0) && Word(x.1)) && Here(b, i, PairItems(xs))
    ensures GetPairItems(b, i, |xs|) == Got(xs, i + |PairItems(xs)|)
    decreases |xs|
  {
    if xs != [] {
      assert xs == [xs[0]] + xs[1..] && xs[0] in xs;
      var rest := PutU32(xs[0].1) + PairItems(xs[1..]);
      Split(b, i, PutU32(xs[0].0), rest);
      RoundU32(xs[0].0, b, i);
      Split(b, i + 4, PutU32(xs[0].1), PairItems(xs[1..]));
      RoundU32(xs[0].1, b, i + 4);
      RoundPairItems(xs[1..], b, i + 8);
    }
  }

  lemma {:induction false} PairItemsLong(xs: seq<(nat, nat)>)
    ensures |PairItems(xs)| >= |xs|
    decreases |xs|
  {
    if xs != [] {
      U32Length(xs[0].0);
      PairItemsLong(xs[1..]);
    }
  }

  lemma {:induction false} RoundArgItems(xs: seq<int>, b: Bytes, i: nat)
    requires (forall x :: x in xs ==> -P63 <= x < P63) && Here(b, i, ArgItems(xs))
    ensures GetArgItems(b, i, |xs|) == Got(xs, i + |ArgItems(xs)|)
    decreases |xs|
  {
    hide PutI64, GetI64, Here;
    if xs != [] {
      assert xs == [xs[0]] + xs[1..] && xs[0] in xs && forall x :: x in xs[1..] ==> x in xs;
      Split(b, i, PutI64(xs[0]), ArgItems(xs[1..]));
      RoundI64(xs[0], b, i);
      RoundArgItems(xs[1..], b, i + 8);
    }
  }

  lemma {:induction false} ArgItemsLong(xs: seq<int>)
    ensures |ArgItems(xs)| >= |xs|
    decreases |xs|
  {
    if xs != [] {
      Powers();
      LittleBack(xs[0] % (2 * P63), 8);
      ArgItemsLong(xs[1..]);
    }
  }

  lemma RoundHot(h: Hot, b: Bytes, i: nat)
    requires FitsHot(h) && Here(b, i, PutHot(h))
    ensures GetHot(b, i) == Got(h, i + |PutHot(h)|)
  {
    Split(b, i, PutStr(h.ops), PutU32(|h.args|) + ArgItems(h.args));
    RoundBlob(h.ops, b, i);
    ArgItemsLong(h.args);
    RoundCount(|h.args|, MAX_ITEMS, b, i + |PutStr(h.ops)|, ArgItems(h.args));
    RoundArgItems(h.args, b, i + |PutStr(h.ops)| + 4);
  }

  lemma RoundOption(o: Option<nat>, b: Bytes, i: nat)
    requires FitsOption(o) && Here(b, i, PutOption(o))
    ensures GetOption(b, i) == Got(o, i + |PutOption(o)|)
  {
    if o.Some? {
      Split(b, i, [1], PutU32(o.value));
      RoundU32(o.value, b, i + 1);
      assert b[i..i + 1][0] == b[i];
    } else {
      assert b[i..i + 1][0] == b[i];
    }
  }

  lemma RoundParam(k: Codec, p: Param, b: Bytes, i: nat)
    requires FitsStr(k, p.name) && Here(b, i, PutParam(p))
    ensures GetParam(k, b, i) == Got(p.(note := 0), i + |PutParam(p)|) && |PutParam(p)| >= 1
  {
    var flags := PutFlag(p.variadic) + (PutFlag(p.kwvariadic) + (PutFlag(p.implicit) + PutFlag(p.strong)));
    Split(b, i, PutStr(p.name), flags);
    RoundStr(k, p.name, b, i);
    var j := i + |PutStr(p.name)|;
    assert |flags| == 4 && flags[0] == PutFlag(p.variadic)[0] && flags[1] == PutFlag(p.kwvariadic)[0];
    assert flags[2] == PutFlag(p.implicit)[0] && flags[3] == PutFlag(p.strong)[0];
    var four := b[j..j + 4];
    assert b[j] == four[0] && b[j + 1] == four[1] && b[j + 2] == four[2] && b[j + 3] == four[3];
  }

  lemma {:induction false} RoundParamItems(k: Codec, ps: seq<Param>, b: Bytes, i: nat)
    requires (forall q :: q in ps ==> FitsStr(k, q.name)) && Here(b, i, ParamItems(ps))
    ensures GetParamItems(k, b, i, |ps|) == Got(KeptParams(ps), i + |ParamItems(ps)|) && |ParamItems(ps)| >= |ps|
    decreases |ps|
  {
    hide GetParam, PutParam, FitsStr;
    if ps != [] {
      assert ps == [ps[0]] + ps[1..] && ps[0] in ps && forall q :: q in ps[1..] ==> q in ps;
      Split(b, i, PutParam(ps[0]), ParamItems(ps[1..]));
      RoundParam(k, ps[0], b, i);
      RoundParamItems(k, ps[1..], b, i + |PutParam(ps[0])|);
    }
  }

  lemma {:induction false} ParamItemsLong(ps: seq<Param>)
    ensures |ParamItems(ps)| >= |ps|
    decreases |ps|
  {
    if ps != [] {
      U32Length(|ps[0].name|);
      ParamItemsLong(ps[1..]);
    }
  }

  lemma RoundEnv(k: Codec, env: Option<seq<Bytes>>, b: Bytes, i: nat)
    requires (env.Some? ==> FitsStrs(k, env.value)) && Here(b, i, PutEnv(env))
    ensures GetEnv(k, b, i) == Got(env, i + |PutEnv(env)|)
  {
    if env.Some? {
      Split(b, i, [1], PutStrs(env.value));
      RoundStrs(k, env.value, b, i + 1);
    }
    assert b[i..i + 1][0] == b[i];
  }

  lemma RoundTag(t: Byte, rest: Bytes, b: Bytes, i: nat)
    requires Here(b, i, [t] + rest)
    ensures GetByte(b, i) == Got(t, i + 1) && Here(b, i + 1, rest)
  {
    Split(b, i, [t], rest);
    assert b[i..i + 1][0] == b[i];
  }

  // ----- values, functions and code -----

  lemma KeyKept(k: Codec, v: Value)
    ensures IsKey(k, v) ==> Kept(k, v) == v
  {
  }

  lemma ValueLong(k: Codec, v: Value, depth: nat)
    requires PutValue(k, v, depth).Some?
    ensures |PutValue(k, v, depth).value| >= 1
  {
  }

  lemma {:induction false} ItemsLong(k: Codec, vs: Values, depth: nat)
    requires PutItems(k, vs, depth).Some?
    ensures |PutItems(k, vs, depth).value| >= vs.Count()
    decreases vs
  {
    if vs.MoreValues? {
      ValueLong(k, vs.head, depth);
      ItemsLong(k, vs.tail, depth);
    }
  }

  lemma {:induction false} EntriesLong(k: Codec, es: Entries, depth: nat)
    requires PutEntries(k, es, depth).Some?
    ensures |PutEntries(k, es, depth).value| >= es.Count()
    decreases es
  {
    if es.MoreEntries? {
      ValueLong(k, es.key, depth);
      EntriesLong(k, es.tail, depth);
    }
  }

  lemma {:induction false} InsLong(k: Codec, code: Code)
    requires InsItems(k, code).Some?
    ensures |InsItems(k, code).value| >= code.Count()
    decreases code
  {
    if code.MoreIns? { InsLong(k, code.tail); }
  }

  lemma {:induction false} RoundValue(k: Codec, v: Value, depth: nat, b: Bytes, i: nat)
    requires PutValue(k, v, depth).Some? && FitsValue(k, v) && Here(b, i, PutValue(k, v, depth).value)
    ensures GetValue(k, b, i, depth) == Got(Kept(k, v), i + |PutValue(k, v, depth).value|)
    decreases v, 1
  {
    hide PutValue, GetValue, FitsValue, Kept, Here;
    if v.Func? || v.Tuple? || v.FrozenList? || v.FrozenDict? || v.FrozenSet? { RoundNest(k, v, depth, b, i); } else { RoundLeaf(k, v, depth, b, i); }
  }

  lemma RoundLeaf(k: Codec, v: Value, depth: nat, b: Bytes, i: nat)
    requires PutValue(k, v, depth).Some? && FitsValue(k, v) && Here(b, i, PutValue(k, v, depth).value)
    requires !v.Func? && !v.Tuple? && !v.FrozenList? && !v.FrozenDict? && !v.FrozenSet?
    ensures GetValue(k, b, i, depth) == Got(Kept(k, v), i + |PutValue(k, v, depth).value|)
  {
    hide PutStr, PutI64, PutFlag, PutU32, PutFunc, PutItems, PutEntries, GetFunc, GetStr, GetI64, GetFlag, GetBlob,
         GetCount, GetCounted, GetEntries, FitsItems, FitsEntries, FitsFunc, FitsStr, KeptFunc, KeptItems,
         KeptEntries, Here;
    match v
    case Nil => assert [0] + [] == [0]; RoundTag(0, [], b, i);
    case Bool(x) => RoundTag(1, PutFlag(x), b, i); RoundFlag(x, b, i + 1); FlagLength(x);
    case Small(n) => RoundTag(2, PutI64(n), b, i); RoundI64(n, b, i + 1);
    case Text(s) => RoundTag(3, PutStr(s), b, i); RoundStr(k, s, b, i + 1);
    case TypeRef(s) => RoundTag(4, PutStr(s), b, i); RoundStr(k, s, b, i + 1);
    case Blob(s) => RoundTag(5, PutStr(s), b, i); RoundBlob(s, b, i + 1);
    case Wide(id) => RoundTag(7, PutStr(k.show(id)), b, i); RoundStr(k, k.show(id), b, i + 1);
    case _ =>
  }

  lemma {:induction false} RoundNest(k: Codec, v: Value, depth: nat, b: Bytes, i: nat)
    requires PutValue(k, v, depth).Some? && FitsValue(k, v) && Here(b, i, PutValue(k, v, depth).value)
    requires v.Func? || v.Tuple? || v.FrozenList? || v.FrozenDict? || v.FrozenSet?
    ensures GetValue(k, b, i, depth) == Got(Kept(k, v), i + |PutValue(k, v, depth).value|)
    decreases v, 0
  {
    hide PutStr, PutI64, PutFlag, PutU32, PutFunc, PutItems, PutEntries, GetFunc, GetStr, GetI64, GetFlag, GetBlob,
         GetCount, GetCounted, GetEntries, FitsItems, FitsEntries, FitsFunc, FitsStr, KeptFunc, KeptItems,
         KeptEntries, Here;
    match v
    case Func(f) => RoundTag(6, PutFunc(k, f.name, f).value, b, i); RoundFunc(k, f.name, f, b, i + 1);
    case Tuple(items) => RoundCounted(k, 8, items, depth + 1, false, b, i);
    case FrozenList(items) => RoundCounted(k, 9, items, depth + 1, false, b, i);
    case FrozenDict(entries) => RoundDict(k, entries, depth + 1, b, i);
    case FrozenSet(items) => RoundCounted(k, 11, items, depth + 1, true, b, i);
    case _ =>
  }

  lemma FlagLength(x: bool)
    ensures |PutFlag(x)| == 1
  {
  }

  lemma {:induction false} RoundCounted(k: Codec, t: Byte, vs: Values, depth: nat, keys: bool, b: Bytes, i: nat)
    requires PutItems(k, vs, depth).Some? && vs.Count() <= MAX_ITEMS && FitsItems(k, vs, keys)
    requires Here(b, i, [t] + PutU32(vs.Count()) + PutItems(k, vs, depth).value)
    ensures GetByte(b, i) == Got(t, i + 1)
    ensures GetCounted(k, b, i + 1, depth, keys) == Got(KeptItems(k, vs), i + |[t] + PutU32(vs.Count()) + PutItems(k, vs, depth).value|)
    decreases vs, 1
  {
    var items := PutItems(k, vs, depth).value;
    assert [t] + PutU32(vs.Count()) + items == [t] + (PutU32(vs.Count()) + items);
    RoundTag(t, PutU32(vs.Count()) + items, b, i);
    ItemsLong(k, vs, depth);
    RoundCount(vs.Count(), MAX_ITEMS, b, i + 1, items);
    RoundItems(k, vs, depth, keys, b, i + 5);
  }

  lemma ItemsStep(k: Codec, b: Bytes, i: nat, n: nat, depth: nat, keys: bool, x: Value, j: nat, rest: Values, end: nat)
    requires i <= |b| && j <= |b| && GetValue(k, b, i, depth) == Got(x, j) && (keys ==> IsKey(k, x))
    requires GetItems(k, b, j, n, depth, keys) == Got(rest, end)
    ensures GetItems(k, b, i, n + 1, depth, keys) == Got(MoreValues(x, rest), end)
  {
    hide GetValue, IsKey;
  }

  lemma {:induction false} RoundItems(k: Codec, vs: Values, depth: nat, keys: bool, b: Bytes, i: nat)
    requires PutItems(k, vs, depth).Some? && FitsItems(k, vs, keys) && Here(b, i, PutItems(k, vs, depth).value)
    ensures GetItems(k, b, i, vs.Count(), depth, keys) == Got(KeptItems(k, vs), i + |PutItems(k, vs, depth).value|)
    decreases vs, 0
  {
    hide PutValue, GetValue, FitsValue, Kept, IsKey, Here;
    if vs.MoreValues? {
      hide GetItems;
      KeyKept(k, vs.head);
      var x, rest := PutValue(k, vs.head, depth).value, PutItems(k, vs.tail, depth).value;
      Split(b, i, x, rest);
      RoundValue(k, vs.head, depth, b, i);
      RoundItems(k, vs.tail, depth, keys, b, i + |x|);
      ItemsStep(k, b, i, vs.tail.Count(), depth, keys, Kept(k, vs.head), i + |x|, KeptItems(k, vs.tail), i + |x| + |rest|);
    }
  }

  lemma {:induction false} RoundDict(k: Codec, es: Entries, depth: nat, b: Bytes, i: nat)
    requires PutEntries(k, es, depth).Some? && es.Count() <= MAX_ITEMS && FitsEntries(k, es)
    requires Here(b, i, [10] + PutU32(es.Count()) + PutEntries(k, es, depth).value)
    ensures GetByte(b, i) == Got(10, i + 1) && GetCount(b, i + 1, MAX_ITEMS) == Got(es.Count(), i + 5)
    ensures GetEntries(k, b, i + 5, es.Count(), depth) == Got(KeptEntries(k, es), i + |[10] + PutU32(es.Count()) + PutEntries(k, es, depth).value|)
    decreases es, 1
  {
    var items := PutEntries(k, es, depth).value;
    assert [10] + PutU32(es.Count()) + items == [10] + (PutU32(es.Count()) + items);
    RoundTag(10, PutU32(es.Count()) + items, b, i);
    EntriesLong(k, es, depth);
    RoundCount(es.Count(), MAX_ITEMS, b, i + 1, items);
    RoundEntries(k, es, depth, b, i + 5);
  }

  lemma EntriesStep(k: Codec, b: Bytes, i: nat, n: nat, depth: nat, x: Value, j: nat, y: Value, m: nat, rest: Entries, end: nat)
    requires i <= |b| && j <= |b| && m <= |b| && GetValue(k, b, i, depth) == Got(x, j) && IsKey(k, x)
    requires GetValue(k, b, j, depth) == Got(y, m) && GetEntries(k, b, m, n, depth) == Got(rest, end)
    ensures GetEntries(k, b, i, n + 1, depth) == Got(MoreEntries(x, y, rest), end)
  {
    hide GetValue, IsKey;
  }

  lemma {:induction false} RoundEntries(k: Codec, es: Entries, depth: nat, b: Bytes, i: nat)
    requires PutEntries(k, es, depth).Some? && FitsEntries(k, es) && Here(b, i, PutEntries(k, es, depth).value)
    ensures GetEntries(k, b, i, es.Count(), depth) == Got(KeptEntries(k, es), i + |PutEntries(k, es, depth).value|)
    decreases es, 0
  {
    hide PutValue, GetValue, FitsValue, Kept, IsKey, Here;
    if es.MoreEntries? {
      hide GetEntries;
      KeyKept(k, es.key);
      var x, y, rest := PutValue(k, es.key, depth).value, PutValue(k, es.val, depth).value, PutEntries(k, es.tail, depth).value;
      Split(b, i, x, y + rest);
      Split(b, i + |x|, y, rest);
      RoundValue(k, es.key, depth, b, i);
      RoundValue(k, es.val, depth, b, i + |x|);
      RoundEntries(k, es.tail, depth, b, i + |x| + |y|);
      EntriesStep(k, b, i, es.tail.Count(), depth, Kept(k, es.key), i + |x|, Kept(k, es.val), i + |x| + |y|,
                  KeptEntries(k, es.tail), i + |x| + |y| + |rest|);
    }
  }

  lemma RoundHead(k: Codec, name: Bytes, f: Function, b: Bytes, i: nat)
    requires FitsFunc(k, f) && FitsStr(k, name) && Here(b, i, PutHead(name, f))
    ensures GetHead(k, b, i) == Got(Function(name, f.flags, f.entryPc, f.frameSlots, f.fastLocals, f.entryLabel, f.hotArgc, KeptParams(f.params), f.hot,
                                             NoIns, [], [], None, None, [], None, false, 0), i + |PutHead(name, f)|)
  {
    hide FitsCode, FitsNums, FitsStrs, FitsOption, FitsHot, FitsStr, PutStr, PutHot, PutFixed, ParamItems, PutU32,
         KeptParams, Here, GetStr, GetFixed, GetCount, GetParamItems, GetHot;
    var rest := PutU32(|f.params|) + (ParamItems(f.params) + PutHot(f.hot));
    HeadIs(name, f);
    Split(b, i, PutStr(name), PutFixed(f) + rest);
    RoundStr(k, name, b, i);
    var at := i + |PutStr(name)|;
    Split(b, at, PutFixed(f), rest);
    RoundFixed(f, b, at);
    ParamItemsLong(f.params);
    RoundCount(|f.params|, MAX_ITEMS, b, at + 19, ParamItems(f.params) + PutHot(f.hot));
    Split(b, at + 23, ParamItems(f.params), PutHot(f.hot));
    RoundParamItems(k, f.params, b, at + 23);
    RoundHot(f.hot, b, at + 23 + |ParamItems(f.params)|);
  }

  /** The flags and numbers of a function. */
  function PutFixed(f: Function): Bytes {
    [f.flags] + (PutU32(f.entryPc) + (PutU32(f.frameSlots) + (PutU32(f.fastLocals) + (PutU32(f.entryLabel) + Little(f.hotArgc % P16, 2)))))
  }

  lemma HeadIs(name: Bytes, f: Function)
    ensures PutHead(name, f) == PutStr(name) + (PutFixed(f) + (PutU32(|f.params|) + (ParamItems(f.params) + PutHot(f.hot))))
  {
    hide PutStr, PutU32, Little, ParamItems, PutHot;
    var rest := PutU32(|f.params|) + (ParamItems(f.params) + PutHot(f.hot));
    assert PutFixed(f) + rest == [f.flags] + (PutU32(f.entryPc) + (PutU32(f.frameSlots) + (PutU32(f.fastLocals) + (PutU32(f.entryLabel)
             + (Little(f.hotArgc % P16, 2) + rest)))));
  }

  lemma RoundFixed(f: Function, b: Bytes, at: nat)
    requires Word(f.entryPc) && Word(f.frameSlots) && Word(f.fastLocals) && Word(f.entryLabel) && f.hotArgc < P16 && Here(b, at, PutFixed(f))
    ensures |PutFixed(f)| == 19 && at + 19 <= |b| && b[at] == f.flags
    ensures GetFixed(b, at + 1, 4) == Got(f.entryPc, at + 5) && GetFixed(b, at + 5, 4) == Got(f.frameSlots, at + 9)
    ensures GetFixed(b, at + 9, 4) == Got(f.fastLocals, at + 13) && GetFixed(b, at + 13, 4) == Got(f.entryLabel, at + 17)
    ensures GetFixed(b, at + 17, 2) == Got(f.hotArgc, at + 19)
  {
    hide PutU32, Little, GetFixed, Here;
    var r5 := PutU32(f.entryLabel) + Little(f.hotArgc % P16, 2);
    var r4 := PutU32(f.fastLocals) + r5;
    var r3 := PutU32(f.frameSlots) + r4;
    var r2 := PutU32(f.entryPc) + r3;
    RoundTag(f.flags, r2, b, at);
    Split(b, at + 1, PutU32(f.entryPc), r3);
    RoundU32(f.entryPc, b, at + 1);
    Split(b, at + 5, PutU32(f.frameSlots), r4);
    RoundU32(f.frameSlots, b, at + 5);
    Split(b, at + 9, PutU32(f.fastLocals), r5);
    RoundU32(f.fastLocals, b, at + 9);
    Split(b, at + 13, PutU32(f.entryLabel), Little(f.hotArgc % P16, 2));
    RoundU32(f.entryLabel, b, at + 13);
    RoundU16(f.hotArgc, b, at + 17);
  }

  lemma RoundU16(n: nat, b: Bytes, i: nat)
    requires n < P16 && Here(b, i, Little(n % P16, 2))
    ensures |Little(n % P16, 2)| == 2 && GetFixed(b, i, 2) == Got(n, i + 2)
  {
    hide Little, FromLittle, Pow;
    Powers();
    LittleBack(n, 2);
  }

  lemma RoundTail(k: Codec, f: Function, g: Function, b: Bytes, i: nat)
    requires FitsFunc(k, f) && Here(b, i, PutTail(f))
    ensures GetTail(k, b, i, g) == Got(g.(lineMap := f.lineMap, columnMap := f.columnMap, variadic := f.variadic, kwvariadic := f.kwvariadic,
                                           sourceFile := f.sourceFile, env := f.env), i + |PutTail(f)|)
  {
    hide FitsCode, FitsNums, FitsStrs, FitsOption, FitsHot, FitsStr, PutStr, PutNums, PutOption, PutEnv, GetNums,
         GetOption, GetStr, GetEnv, Here;
    var r5 := PutStr(f.sourceFile) + PutEnv(f.env);
    var r4 := PutOption(f.kwvariadic) + r5;
    var r3 := PutOption(f.variadic) + r4;
    var r2 := PutNums(f.columnMap) + r3;
    Split(b, i, PutNums(f.lineMap), r2);
    RoundNums(f.lineMap, b, i);
    var i2 := i + |PutNums(f.lineMap)|;
    Split(b, i2, PutNums(f.columnMap), r3);
    RoundNums(f.columnMap, b, i2);
    var i3 := i2 + |PutNums(f.columnMap)|;
    Split(b, i3, PutOption(f.variadic), r4);
    RoundOption(f.variadic, b, i3);
    var i4 := i3 + |PutOption(f.variadic)|;
    Split(b, i4, PutOption(f.kwvariadic), r5);
    RoundOption(f.kwvariadic, b, i4);
    var i5 := i4 + |PutOption(f.kwvariadic)|;
    Split(b, i5, PutStr(f.sourceFile), PutEnv(f.env));
    RoundStr(k, f.sourceFile, b, i5);
    RoundEnv(k, f.env, b, i5 + |PutStr(f.sourceFile)|);
  }

  lemma {:induction false} RoundFunc(k: Codec, name: Bytes, f: Function, b: Bytes, i: nat)
    requires PutFunc(k, name, f).Some? && FitsFunc(k, f) && FitsStr(k, name) && Here(b, i, PutFunc(k, name, f).value)
    ensures GetFunc(k, b, i) == Got(KeptFunc(k, name, f), i + |PutFunc(k, name, f).value|)
    decreases f, 1
  {
    hide PutHead, PutTail, PutCode, GetHead, GetTail, GetCode, FitsFunc, FitsStr;
    var head, body, tail := PutHead(name, f), PutCode(k, f.body).value, PutTail(f);
    Split(b, i, head, body + tail);
    Split(b, i + |head|, body, tail);
    FitsBody(k, f);
    RoundHead(k, name, f, b, i);
    RoundCode(k, f.body, b, i + |head|);
    var code := KeptCode(k, f.body);
    RoundTail(k, f, GetHead(k, b, i).v.(body := code, hot := k.hot(code)), b, i + |head| + |body|);
  }

  lemma FitsBody(k: Codec, f: Function)
    requires FitsFunc(k, f)
    ensures FitsCode(k, f.body)
  {
  }

  lemma {:induction false} RoundCode(k: Codec, code: Code, b: Bytes, i: nat)
    requires PutCode(k, code).Some? && FitsCode(k, code) && Here(b, i, PutCode(k, code).value)
    ensures GetCode(k, b, i) == Got(KeptCode(k, code), i + |PutCode(k, code).value|)
    decreases code, 1
  {
    hide InsItems, GetInsItems, FitsIns;
    InsLong(k, code);
    RoundCount(code.Count(), MAX_ITEMS, b, i, InsItems(k, code).value);
    RoundInsItems(k, code, b, i + 4);
  }

  lemma InsStep(k: Codec, b: Bytes, i: nat, n: nat, tag: Byte, fs: Fields, j: nat, rest: Code, end: nat)
    requires i < |b| && j <= |b| && GetByte(b, i) == Got(tag, i + 1) && Shape(tag).Some?
    requires GetFields(k, b, i + 1, Shape(tag).value) == Got(fs, j) && GetInsItems(k, b, j, n) == Got(rest, end)
    ensures GetInsItems(k, b, i, n + 1) == Got(MoreIns(Ins(tag, fs), rest), end)
  {
    hide GetFields, Shape;
  }

  lemma {:induction false} RoundInsItems(k: Codec, code: Code, b: Bytes, i: nat)
    requires InsItems(k, code).Some? && FitsIns(k, code) && Here(b, i, InsItems(k, code).value)
    ensures GetInsItems(k, b, i, code.Count()) == Got(KeptCode(k, code), i + |InsItems(k, code).value|)
    decreases code, 0
  {
    hide PutFields, GetFields, FitsFields, KeptFields, Shape, Shaped, Here;
    if code.MoreIns? {
      hide GetInsItems;
      var tag, fs := code.head.tag, PutFields(k, code.head.fields).value;
      Split(b, i, [tag] + fs, InsItems(k, code.tail).value);
      RoundTag(tag, fs, b, i);
      RoundFields(k, code.head.fields, Shape(tag).value, b, i + 1);
      RoundInsItems(k, code.tail, b, i + 1 + |fs|);
      InsStep(k, b, i, code.tail.Count(), tag, KeptFields(k, code.head.fields), i + 1 + |fs|, KeptCode(k, code.tail),
              i + 1 + |fs| + |InsItems(k, code.tail).value|);
    }
  }

  lemma {:induction false} RoundFields(k: Codec, fs: Fields, kinds: seq<Kind>, b: Bytes, i: nat)
    requires PutFields(k, fs).Some? && Shaped(fs, kinds) && FitsFields(k, fs) && Here(b, i, PutFields(k, fs).value)
    ensures GetFields(k, b, i, kinds) == Got(KeptFields(k, fs), i + |PutFields(k, fs).value|)
    decreases fs, 0
  {
    hide PutField, GetField, FitsField, Here;
    if fs.MoreFields? {
      var x := PutField(k, fs.head).value;
      Split(b, i, x, PutFields(k, fs.tail).value);
      RoundField(k, fs.head, b, i);
      RoundFields(k, fs.tail, kinds[1..], b, i + |x|);
    }
  }

  lemma {:induction false} RoundField(k: Codec, f: Field, b: Bytes, i: nat)
    requires PutField(k, f).Some? && FitsField(k, f) && Here(b, i, PutField(k, f).value)
    ensures GetField(k, b, i, KindOf(f)) == Got(if f.Val? then Val(Kept(k, f.v)) else f, i + |PutField(k, f).value|)
    decreases f, 0
  {
    hide PutStr, PutStrs, PutI64, PutU32, PutFlag, GetStr, GetStrs, GetI64, GetFixed, GetFlag, PutValue, GetValue,
         FitsStr, FitsStrs, FitsValue;
    match f
    case U32(n) => RoundU32(n, b, i);
    case I64(n) => RoundI64(n, b, i);
    case Str(s) => RoundStr(k, s, b, i);
    case Strs(ss) => RoundStrs(k, ss, b, i);
    case Flag(x) => RoundFlag(x, b, i); FlagLength(x);
    case Val(v) => RoundValue(k, v, 0, b, i);
  }

  lemma KeptName(k: Codec, name: Bytes, f: Function)
    ensures KeptFunc(k, name, f).name == name
  {
  }

  lemma FunctionsStep(k: Codec, b: Bytes, i: nat, n: nat, f: Function, j: nat, rest: Functions, end: nat)
    requires i <= |b| && j <= |b| && GetFunc(k, b, i) == Got(f, j) && GetFunctionItems(k, b, j, n) == Got(rest, end)
    ensures GetFunctionItems(k, b, i, n + 1) == Got(MoreFunctions(f.name, f, rest), end)
  {
    hide GetFunc;
  }

  lemma {:induction false} RoundFunctionItems(k: Codec, fs: Functions, b: Bytes, i: nat)
    requires FunctionItems(k, fs).Some? && FitsFunctions(k, fs) && Here(b, i, FunctionItems(k, fs).value)
    ensures GetFunctionItems(k, b, i, fs.Count()) == Got(KeptFunctions(k, fs), i + |FunctionItems(k, fs).value|)
    ensures |FunctionItems(k, fs).value| >= fs.Count()
    decreases fs
  {
    hide PutFunc, GetFunc, FitsFunc, FitsStr, KeptFunc, Here;
    if fs.MoreFunctions? {
      hide GetFunctionItems;
      var x := PutFunc(k, fs.name, fs.f).value;
      Split(b, i, x, FunctionItems(k, fs.tail).value);
      RoundFunc(k, fs.name, fs.f, b, i);
      RoundFunctionItems(k, fs.tail, b, i + |x|);
      KeptName(k, fs.name, fs.f);
      FunctionsStep(k, b, i, fs.tail.Count(), KeptFunc(k, fs.name, fs.f), i + |x|, KeptFunctions(k, fs.tail), i + |x| + |FunctionItems(k, fs.tail).value|);
    }
  }

  lemma {:induction false} FunctionsLong(k: Codec, fs: Functions)
    requires FunctionItems(k, fs).Some?
    ensures |FunctionItems(k, fs).value| >= fs.Count()
    decreases fs
  {
    if fs.MoreFunctions? {
      U32Length(|fs.name|);
      FunctionsLong(k, fs.tail);
    }
  }

  // ----- programs -----

  function PutPreamble(k: Codec): Bytes {
    MAGIC + (Little(FORMAT, 2) + PutStr(k.version))
  }

  function PutTables(p: Program): Bytes {
    PutHot(p.hot) + (PutNums(p.lineMap) + (PutNums(p.columnMap) + (PutStrs(p.globals) + (PutU32(p.frameSlots)
    + (PutU32(|p.localToGlobal|) + PairItems(p.localToGlobal))))))
  }

  lemma ProgramParts(k: Codec, p: Program)
    requires PutProgram(k, p).Some?
    ensures PutCode(k, p.code).Some? && FunctionItems(k, p.functions).Some?
    ensures PutProgram(k, p).value == PutPreamble(k) + (PutTables(p) + (PutCode(k, p.code).value
              + (PutU32(p.functions.Count()) + FunctionItems(k, p.functions).value)))
  {
    hide PutHot, PutNums, PutStrs, PairItems, PutCode, FunctionItems, PutStr, Little;
    var t := PutTables(p);
    assert MAGIC + (Little(FORMAT, 2) + (PutStr(k.version) + t)) == PutPreamble(k) + t;
  }

  lemma RoundPreamble(k: Codec, b: Bytes)
    requires FitsStr(k, k.version) && Here(b, 0, PutPreamble(k))
    ensures GetPreamble(k, b) == Got((), |PutPreamble(k)|)
  {
    hide PutStr, GetStr, FitsStr;
    Split(b, 0, MAGIC, Little(FORMAT, 2) + PutStr(k.version));
    Split(b, 4, Little(FORMAT, 2), PutStr(k.version));
    RoundU16(FORMAT, b, 4);
    RoundStr(k, k.version, b, 6);
  }

  lemma RoundTables(k: Codec, p: Program, b: Bytes, i: nat)
    requires FitsProgram(k, p) && Here(b, i, PutTables(p))
    ensures GetTables(k, b, i) == Got(p.(code := NoIns, functions := NoFunction, refused := false), i + |PutTables(p)|)
  {
    hide FitsCode, FitsFunctions, FitsNums, FitsStrs, FitsHot, FitsStr, PutHot, PutNums, PutStrs, PutU32, PairItems,
         GetHot, GetNums, GetStrs, GetFixed, GetCount, GetPairItems, Here;
    var r6 := PutU32(|p.localToGlobal|) + PairItems(p.localToGlobal);
    var r5 := PutU32(p.frameSlots) + r6;
    var r4 := PutStrs(p.globals) + r5;
    var r3 := PutNums(p.columnMap) + r4;
    var r2 := PutNums(p.lineMap) + r3;
    Split(b, i, PutHot(p.hot), r2);
    RoundHot(p.hot, b, i);
    var i2 := i + |PutHot(p.hot)|;
    Split(b, i2, PutNums(p.lineMap), r3);
    RoundNums(p.lineMap, b, i2);
    var i3 := i2 + |PutNums(p.lineMap)|;
    Split(b, i3, PutNums(p.columnMap), r4);
    RoundNums(p.columnMap, b, i3);
    var i4 := i3 + |PutNums(p.columnMap)|;
    Split(b, i4, PutStrs(p.globals), r5);
    RoundStrs(k, p.globals, b, i4);
    var i5 := i4 + |PutStrs(p.globals)|;
    Split(b, i5, PutU32(p.frameSlots), r6);
    RoundU32(p.frameSlots, b, i5);
    PairItemsLong(p.localToGlobal);
    RoundCount(|p.localToGlobal|, MAX_ITEMS, b, i5 + 4, PairItems(p.localToGlobal));
    RoundPairItems(p.localToGlobal, b, i5 + 8);
  }

  lemma ProgramStep(k: Codec, b: Bytes, i: nat, t: Program, j: nat, code: Code, m: nat, n: nat, fs: Functions, end: nat)
    requires i <= |b| && j <= |b| && m + 4 <= |b| && GetPreamble(k, b) == Got((), i) && GetTables(k, b, i) == Got(t, j)
    requires GetCode(k, b, j) == Got(code, m) && GetCount(b, m, MAX_ITEMS) == Got(n, m + 4)
    requires GetFunctionItems(k, b, m + 4, n) == Got(fs, end)
    ensures GetProgram(k, b) == Got(t.(hot := k.hot(code), code := code, functions := fs), end)
  {
    hide GetPreamble, GetTables, GetCode, GetCount, GetFunctionItems;
  }

  /** Reading consumes exactly what was written and gives the program that is kept. */
  lemma RoundTrip(k: Codec, p: Program)
    requires PutProgram(k, p).Some? && FitsProgram(k, p)
    ensures GetProgram(k, PutProgram(k, p).value) == Got(KeptProgram(k, p), |PutProgram(k, p).value|)
  {
    assert !p.refused;
    hide PutPreamble, PutTables, PutCode, FunctionItems, GetProgram, PutProgram, KeptCode, KeptFunctions, Here,
         FitsCode, FitsFunctions, FitsNums, FitsStrs, FitsHot, FitsStr;
    ProgramParts(k, p);
    var b := PutProgram(k, p).value;
    Whole(b);
    RoundParts(k, p, b, PutCode(k, p.code).value, FunctionItems(k, p.functions).value);
  }

  lemma Whole(b: Bytes)
    ensures Here(b, 0, b)
  {
  }

  lemma RoundParts(k: Codec, p: Program, b: Bytes, code: Bytes, fs: Bytes)
    requires FitsProgram(k, p) && PutCode(k, p.code) == Some(code) && FunctionItems(k, p.functions) == Some(fs) && !p.refused
    requires b == PutPreamble(k) + (PutTables(p) + (code + (PutU32(p.functions.Count()) + fs))) && Here(b, 0, b)
    ensures GetProgram(k, b) == Got(KeptProgram(k, p), |b|)
  {
    var head, tables, count := PutPreamble(k), PutTables(p), PutU32(p.functions.Count());
    U32Length(p.functions.Count());
    hide PutPreamble, PutTables, PutCode, FunctionItems, GetPreamble, GetTables, GetCode, GetCount, GetFunctionItems,
         GetProgram, PutU32, KeptCode, KeptFunctions, FitsCode, FitsFunctions, FitsNums, FitsStrs, FitsHot, FitsStr,
         Here;
    Split(b, 0, head, tables + (code + (count + fs)));
    Split(b, |head|, tables, code + (count + fs));
    Split(b, |head| + |tables|, code, count + fs);
    RoundPreamble(k, b);
    RoundTables(k, p, b, |head|);
    RoundCode(k, p.code, b, |head| + |tables|);
    FunctionsLong(k, p.functions);
    var at := |head| + |tables| + |code|;
    RoundCount(p.functions.Count(), MAX_ITEMS, b, at, fs);
    RoundFunctionItems(k, p.functions, b, at + 4);
    ProgramStep(k, b, |head|, p.(code := NoIns, functions := NoFunction, refused := false), |head| + |tables|, KeptCode(k, p.code), at,
                p.functions.Count(), KeptFunctions(k, p.functions), |b|);
  }
}
