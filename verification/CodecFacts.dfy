/** What a round trip loses, and what reading guarantees for any bytes at all. */
module CodecFacts {
  import opened Wrappers
  import opened ProgramCodec
  import opened CodecRoundTrip
  import opened CodecIo

  // ----- nothing to lose -----

  predicate Lossless(k: Codec, v: Value)
    decreases v, 1
  {
    match v
    case Func(f) => LosslessFunc(k, f.name, f)
    case Tuple(items) => LosslessItems(k, items)
    case FrozenList(items) => LosslessItems(k, items)
    case FrozenDict(entries) => LosslessEntries(k, entries)
    case FrozenSet(items) => LosslessItems(k, items)
    case _ => true
  }

  predicate LosslessItems(k: Codec, vs: Values)
    decreases vs, 0
  {
    vs.MoreValues? ==> Lossless(k, vs.head) && LosslessItems(k, vs.tail)
  }

  predicate LosslessEntries(k: Codec, es: Entries)
    decreases es, 0
  {
    es.MoreEntries? ==> Lossless(k, es.key) && Lossless(k, es.val) && LosslessEntries(k, es.tail)
  }

  /** No type or default expressions, nothing else that is dropped, its own name, and the hot stream
      that its code has anyway. */
  predicate LosslessFunc(k: Codec, name: Bytes, f: Function)
    decreases f, 1
  {
    && f.name == name && !f.refused && f.note == 0 && (forall i :: 0 <= i < |f.params| ==> f.params[i].note == 0)
    && LosslessCode(k, f.body) && f.hot == k.hot(f.body)
  }

  predicate LosslessCode(k: Codec, code: Code)
    decreases code, 0
  {
    code.MoreIns? ==> (code.head.Ins? ==> LosslessFields(k, code.head.fields)) && LosslessCode(k, code.tail)
  }

  predicate LosslessFields(k: Codec, fs: Fields)
    decreases fs, 0
  {
    fs.MoreFields? ==> (fs.head.Val? ==> Lossless(k, fs.head.v)) && LosslessFields(k, fs.tail)
  }

  predicate LosslessFunctions(k: Codec, fs: Functions) {
    fs.MoreFunctions? ==> LosslessFunc(k, fs.name, fs.f) && LosslessFunctions(k, fs.tail)
  }

  lemma {:induction false} KeptExactly(k: Codec, v: Value)
    ensures Kept(k, v) == v <==> Lossless(k, v)
    decreases v, 1
  {
    match v
    case Func(f) => FuncExactly(k, f.name, f);
    case Tuple(items) => ItemsExactly(k, items);
    case FrozenList(items) => ItemsExactly(k, items);
    case FrozenDict(entries) => EntriesExactly(k, entries);
    case FrozenSet(items) => ItemsExactly(k, items);
    case _ =>
  }

  lemma {:induction false} ItemsExactly(k: Codec, vs: Values)
    ensures KeptItems(k, vs) == vs <==> LosslessItems(k, vs)
    decreases vs, 0
  {
    if vs.MoreValues? {
      KeptExactly(k, vs.head);
      ItemsExactly(k, vs.tail);
    }
  }

  lemma {:induction false} EntriesExactly(k: Codec, es: Entries)
    ensures KeptEntries(k, es) == es <==> LosslessEntries(k, es)
    decreases es, 0
  {
    if es.MoreEntries? {
      KeptExactly(k, es.key);
      KeptExactly(k, es.val);
      EntriesExactly(k, es.tail);
    }
  }

  lemma ParamsExactly(ps: seq<Param>)
    ensures KeptParams(ps) == ps <==> forall i :: 0 <= i < |ps| ==> ps[i].note == 0
  {
    if KeptParams(ps) == ps {
      forall i | 0 <= i < |ps| ensures ps[i].note == 0 { assert KeptParams(ps)[i] == ps[i].(note := 0); }
    }
  }

  lemma {:induction false} FuncExactly(k: Codec, name: Bytes, f: Function)
    ensures KeptFunc(k, name, f) == f <==> LosslessFunc(k, name, f)
    decreases f, 1
  {
    ParamsExactly(f.params);
    CodeExactly(k, f.body);
  }

  lemma {:induction false} CodeExactly(k: Codec, code: Code)
    ensures KeptCode(k, code) == code <==> LosslessCode(k, code)
    decreases code, 0
  {
    if code.MoreIns? {
      if code.head.Ins? { FieldsExactly(k, code.head.fields); }
      CodeExactly(k, code.tail);
    }
  }

  lemma {:induction false} FieldsExactly(k: Codec, fs: Fields)
    ensures KeptFields(k, fs) == fs <==> LosslessFields(k, fs)
    decreases fs, 0
  {
    if fs.MoreFields? {
      if fs.head.Val? { KeptExactly(k, fs.head.v); }
      FieldsExactly(k, fs.tail);
    }
  }

  lemma {:induction false} FunctionsExactly(k: Codec, fs: Functions)
    ensures KeptFunctions(k, fs) == fs <==> LosslessFunctions(k, fs)
    decreases fs
  {
    if fs.MoreFunctions? {
      FuncExactly(k, fs.name, fs.f);
      FunctionsExactly(k, fs.tail);
    }
  }

  /** A program that is written within the limits comes back unchanged exactly when neither it nor
      any function constant in it has a part that is dropped. */
  lemma ComesBackExactly(k: Codec, p: Program)
    requires PutProgram(k, p).Some? && FitsProgram(k, p)
    ensures GetProgram(k, PutProgram(k, p).value) == Got(p, |PutProgram(k, p).value|)
            <==> LosslessCode(k, p.code) && LosslessFunctions(k, p.functions) && p.hot == k.hot(p.code)
  {
    hide PutProgram, GetProgram, FitsProgram;
    RoundTrip(k, p);
    CodeExactly(k, p.code);
    FunctionsExactly(k, p.functions);
  }

  /** A function `f` of one parameter `x`, with a type expression if `note` is not 0. */
  function Annotated(note: nat, hot: Hot): Function {
    Function([102], 0, 0, 1, 1, 0, 0, [Param([120], false, false, false, true, note)], hot, NoIns, [], [], None, None, [], None, false, 0)
  }

  function AnnotatedProgram(note: nat, hot: Hot): Program {
    Program(hot, [], [], [], 0, [], NoIns, MoreFunctions([102], Annotated(note, hot), NoFunction), false)
  }

  /** A program whose one function has an annotated parameter is written, and what is read back is the
      program without the annotation. */
  lemma AnnotationLost(k: Codec, note: nat)
    requires note != 0 && FitsStr(k, k.version) && FitsStr(k, []) && FitsStr(k, [102]) && FitsStr(k, [120]) && FitsHot(k.hot(NoIns))
    ensures var p, q := AnnotatedProgram(note, k.hot(NoIns)), AnnotatedProgram(0, k.hot(NoIns));
            PutProgram(k, p).Some? && GetProgram(k, PutProgram(k, p).value) == Got(q, |PutProgram(k, p).value|) && p != q
  {
    hide GetProgram, PutProgram, FitsProgram, FitsStr, FitsHot;
    AnnotatedWritten(k, note, k.hot(NoIns));
    AnnotatedFits(k, note, k.hot(NoIns));
    AnnotatedKept(k, note);
    RoundTrip(k, AnnotatedProgram(note, k.hot(NoIns)));
  }

  lemma AnnotatedWritten(k: Codec, note: nat, hot: Hot)
    ensures PutProgram(k, AnnotatedProgram(note, hot)).Some?
  {
    hide PutHead, PutTail, PutTop, PutU32;
    var f := Annotated(note, hot);
    assert InsItems(k, NoIns) == Some([]);
    assert PutCode(k, NoIns).Some?;
    assert PutFunc(k, [102], f).Some?;
    assert FunctionItems(k, NoFunction) == Some([]);
    assert FunctionItems(k, MoreFunctions([102], f, NoFunction)).Some?;
  }

  lemma AnnotatedFits(k: Codec, note: nat, hot: Hot)
    requires FitsStr(k, k.version) && FitsStr(k, []) && FitsStr(k, [102]) && FitsStr(k, [120]) && FitsHot(hot)
    ensures FitsProgram(k, AnnotatedProgram(note, hot))
  {
    hide FitsStr, FitsHot;
    var f := Annotated(note, hot);
    assert FitsIns(k, NoIns);
    assert FitsCode(k, NoIns);
    assert FitsFunc(k, f);
    assert FitsFunctions(k, NoFunction);
    assert FitsFunctions(k, MoreFunctions([102], f, NoFunction));
    assert NoFunction.Count() == 0;
  }

  lemma AnnotatedKept(k: Codec, note: nat)
    ensures KeptProgram(k, AnnotatedProgram(note, k.hot(NoIns))) == AnnotatedProgram(0, k.hot(NoIns))
  {
    var f := Annotated(note, k.hot(NoIns));
    assert KeptCode(k, NoIns) == NoIns;
    assert KeptParams(f.params) == [f.params[0].(note := 0)];
    assert KeptFunc(k, [102], f) == Annotated(0, k.hot(NoIns));
    assert KeptFunctions(k, NoFunction) == NoFunction;
  }

  // ----- any bytes -----

  /** Every hot stream in a value is the one its code has. */
  predicate Rebuilt(k: Codec, v: Value)
    decreases v, 1
  {
    match v
    case Func(f) => RebuiltFunc(k, f)
    case Tuple(items) => RebuiltItems(k, items)
    case FrozenList(items) => RebuiltItems(k, items)
    case FrozenDict(entries) => RebuiltEntries(k, entries)
    case FrozenSet(items) => RebuiltItems(k, items)
    case _ => true
  }

  predicate RebuiltItems(k: Codec, vs: Values)
    decreases vs, 0
  {
    vs.MoreValues? ==> Rebuilt(k, vs.head) && RebuiltItems(k, vs.tail)
  }

  predicate RebuiltEntries(k: Codec, es: Entries)
    decreases es, 0
  {
    es.MoreEntries? ==> Rebuilt(k, es.key) && Rebuilt(k, es.val) && RebuiltEntries(k, es.tail)
  }

  predicate RebuiltFunc(k: Codec, f: Function)
    decreases f, 1
  {
    f.hot == k.hot(f.body) && RebuiltCode(k, f.body)
  }

  predicate RebuiltCode(k: Codec, code: Code)
    decreases code, 0
  {
    code.MoreIns? ==> (code.head.Ins? ==> RebuiltFields(k, code.head.fields)) && RebuiltCode(k, code.tail)
  }

  predicate RebuiltFields(k: Codec, fs: Fields)
    decreases fs, 0
  {
    fs.MoreFields? ==> (fs.head.Val? ==> Rebuilt(k, fs.head.v)) && RebuiltFields(k, fs.tail)
  }

  predicate RebuiltFunctions(k: Codec, fs: Functions) {
    fs.MoreFunctions? ==> RebuiltFunc(k, fs.f) && RebuiltFunctions(k, fs.tail)
  }

  /** A wide number is read as a number. */
  ghost predicate NumbersParse(k: Codec) {
    forall s :: k.parse(s).Some? ==> Rebuilt(k, k.parse(s).value)
  }

  lemma {:induction false} ValueRebuilt(k: Codec, b: Bytes, i: nat, depth: nat)
    requires i <= |b| && NumbersParse(k)
    ensures GetValue(k, b, i, depth).Got? ==> Rebuilt(k, GetValue(k, b, i, depth).v)
    decreases |b| - i, 1, 0
  {
    hide GetStr, GetBlob, GetFixed, GetFunc, GetItems, GetEntries, RebuiltItems, RebuiltEntries, RebuiltFunc;
    if i < |b| && depth <= MAX_DEPTH {
      if b[i] == 6 { FuncRebuilt(k, b, i + 1); }
      if b[i] in {8, 9, 10, 11} && GetCount(b, i + 1, MAX_ITEMS).Got? {
        var n := GetCount(b, i + 1, MAX_ITEMS);
        if b[i] == 10 { EntriesRebuilt(k, b, n.next, n.v, depth + 1); } else { ItemsRebuilt(k, b, n.next, n.v, depth + 1, b[i] == 11); }
      }
    }
  }

  lemma {:induction false} ItemsRebuilt(k: Codec, b: Bytes, i: nat, n: nat, depth: nat, keys: bool)
    requires i <= |b| && NumbersParse(k)
    ensures GetItems(k, b, i, n, depth, keys).Got? ==> RebuiltItems(k, GetItems(k, b, i, n, depth, keys).v)
    decreases |b| - i, 2, n
  {
    hide GetValue, Rebuilt, NumbersParse;
    if n > 0 {
      ValueRebuilt(k, b, i, depth);
      var x := GetValue(k, b, i, depth);
      if x.Got? { ItemsRebuilt(k, b, x.next, n - 1, depth, keys); }
    }
  }

  lemma {:induction false} EntriesRebuilt(k: Codec, b: Bytes, i: nat, n: nat, depth: nat)
    requires i <= |b| && NumbersParse(k)
    ensures GetEntries(k, b, i, n, depth).Got? ==> RebuiltEntries(k, GetEntries(k, b, i, n, depth).v)
    decreases |b| - i, 2, n
  {
    hide GetValue, Rebuilt, NumbersParse;
    if n > 0 {
      ValueRebuilt(k, b, i, depth);
      var x := GetValue(k, b, i, depth);
      if x.Got? {
        ValueRebuilt(k, b, x.next, depth);
        var y := GetValue(k, b, x.next, depth);
        if y.Got? { EntriesRebuilt(k, b, y.next, n - 1, depth); }
      }
    }
  }

  lemma {:induction false} FuncRebuilt(k: Codec, b: Bytes, i: nat)
    requires i <= |b| && NumbersParse(k)
    ensures GetFunc(k, b, i).Got? ==> RebuiltFunc(k, GetFunc(k, b, i).v)
    decreases |b| - i, 1, 0
  {
    hide GetHead, GetTail, GetCode, RebuiltCode, NumbersParse;
    var head := GetHead(k, b, i);
    if head.Got? {
      CodeRebuilt(k, b, head.next);
      var body := GetCode(k, b, head.next);
      if body.Got? { TailKeeps(k, b, body.next, head.v.(body := body.v, hot := k.hot(body.v))); }
    }
  }

  lemma TailKeeps(k: Codec, b: Bytes, i: nat, f: Function)
    requires i <= |b|
    ensures GetTail(k, b, i, f).Got? ==> GetTail(k, b, i, f).v.hot == f.hot && GetTail(k, b, i, f).v.body == f.body
  {
    hide GetNums, GetOption, GetStr, GetEnv;
  }

  lemma {:induction false} CodeRebuilt(k: Codec, b: Bytes, i: nat)
    requires i <= |b| && NumbersParse(k)
    ensures GetCode(k, b, i).Got? ==> RebuiltCode(k, GetCode(k, b, i).v)
    decreases |b| - i, 2, 0
  {
    hide GetInsItems, RebuiltCode, NumbersParse, GetFixed;
    var n := GetCount(b, i, MAX_ITEMS);
    if n.Got? { InsRebuilt(k, b, n.next, n.v); }
  }

  lemma {:induction false} InsRebuilt(k: Codec, b: Bytes, i: nat, n: nat)
    requires i <= |b| && NumbersParse(k)
    ensures GetInsItems(k, b, i, n).Got? ==> RebuiltCode(k, GetInsItems(k, b, i, n).v)
    decreases |b| - i, 2, n
  {
    hide GetFields, RebuiltFields, NumbersParse, Shape;
    if n > 0 && i < |b| && Shape(b[i]).Some? {
      FieldsRebuilt(k, b, i + 1, Shape(b[i]).value);
      var x := GetIns(k, b, i);
      if x.Got? { InsRebuilt(k, b, x.next, n - 1); }
    }
  }

  lemma {:induction false} FieldsRebuilt(k: Codec, b: Bytes, i: nat, kinds: seq<Kind>)
    requires i <= |b| && NumbersParse(k)
    ensures GetFields(k, b, i, kinds).Got? ==> RebuiltFields(k, GetFields(k, b, i, kinds).v)
    decreases |b| - i, 3, |kinds|
  {
    hide GetValue, GetStr, GetStrs, GetI64, GetFixed, GetFlag, Rebuilt, NumbersParse;
    if kinds != [] {
      if kinds[0] == KVal { ValueRebuilt(k, b, i, 0); }
      var x := GetField(k, b, i, kinds[0]);
      if x.Got? { FieldsRebuilt(k, b, x.next, kinds[1..]); }
    }
  }

  lemma {:induction false} FunctionsRebuilt(k: Codec, b: Bytes, i: nat, n: nat)
    requires i <= |b| && NumbersParse(k)
    ensures GetFunctionItems(k, b, i, n).Got? ==> RebuiltFunctions(k, GetFunctionItems(k, b, i, n).v)
    decreases n
  {
    hide GetFunc, RebuiltFunc, NumbersParse;
    if n > 0 {
      FuncRebuilt(k, b, i);
      var x := GetFunc(k, b, i);
      if x.Got? { FunctionsRebuilt(k, b, x.next, n - 1); }
    }
  }

  /** Whatever the bytes are, a program that is read has the hot streams that its code has, in the
      program itself, in its functions and in every function constant. */
  lemma ProgramRebuilt(k: Codec, b: Bytes)
    requires NumbersParse(k) && GetProgram(k, b).Got?
    ensures var p := GetProgram(k, b).v;
            p.hot == k.hot(p.code) && RebuiltCode(k, p.code) && RebuiltFunctions(k, p.functions)
  {
    hide GetPreamble, GetTables, GetCode, GetCount, GetFunctionItems, RebuiltCode, RebuiltFunctions, NumbersParse;
    var tables := GetTables(k, b, GetPreamble(k, b).next);
    CodeRebuilt(k, b, tables.next);
    var code := GetCode(k, b, tables.next);
    var n := GetCount(b, code.next, MAX_ITEMS);
    FunctionsRebuilt(k, b, n.next, n.v);
  }

  /** The functions of a program by name; they are inserted one after the other. */
  function AsMap(fs: Functions): map<Bytes, Function> {
    if fs.NoFunction? then map[] else map[fs.name := fs.f] + AsMap(fs.tail)
  }

  /** In whatever order a map of functions is written, the map that is read has the same names, each with
      what is kept of its function. */
  lemma {:induction false} MapComesBack(k: Codec, fs: Functions)
    ensures AsMap(KeptFunctions(k, fs)).Keys == AsMap(fs).Keys
    ensures forall n :: n in AsMap(fs) ==> AsMap(KeptFunctions(k, fs))[n] == KeptFunc(k, n, AsMap(fs)[n])
    decreases fs
  {
    hide KeptFunc;
    if fs.MoreFunctions? { MapComesBack(k, fs.tail); }
  }

  const MAX_FILE := 32 * 1024 * 1024

  /** Storing a program and loading it again. */
  method Reload(k: Codec, p: Program) returns (r: Option<Program>)
    requires FitsProgram(k, p)
    ensures r == if PutProgram(k, p).None? || |PutProgram(k, p).value| > MAX_FILE then None else Some(KeptProgram(k, p))
  {
    hide PutProgram, GetProgram, FitsProgram;
    var writer := new Writer();
    var ok := writer.WriteProgram(k, p);
    if !ok || |writer.out| > MAX_FILE {
      return None;
    }
    RoundTrip(k, p);
    var cursor := new Cursor(writer.out);
    r := cursor.ReadProgram(k);
  }
}
