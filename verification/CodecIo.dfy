/** The writer that appends to a buffer and the reader that moves a cursor. */
module CodecIo {
  import opened Wrappers
  import opened ProgramCodec

  class Writer {
    var out: Bytes

    constructor ()
      ensures out == []
    {
      out := [];
    }

    method Write(bytes: Bytes)
      modifies this
      ensures out == old(out) + bytes
    {
      out := out + bytes;
    }

    method WriteLittle(n: nat, count: nat)
      modifies this
      ensures out == old(out) + Little(n, count)
    {
      var left, rest := n, count;
      while rest > 0
        invariant old(out) + Little(n, count) == out + Little(left, rest)
      {
        out := out + [left % 256];
        left, rest := left / 256, rest - 1;
      }
    }

    method WriteU32(n: nat)
      modifies this
      ensures out == old(out) + PutU32(n)
    {
      WriteLittle(n % 0x1_0000_0000, 4);
    }

    method WriteStr(s: Bytes)
      modifies this
      ensures out == old(out) + PutStr(s)
    {
      hide Little;
      WriteU32(|s|);
      Write(s);
      assert (old(out) + PutU32(|s|)) + s == old(out) + (PutU32(|s|) + s);
    }

    method WriteStrs(ss: seq<Bytes>)
      modifies this
      ensures out == old(out) + PutStrs(ss)
    {
      hide PutStr, Little;
      WriteU32(|ss|);
      var i := 0;
      assert ss[0..] == ss;
      assert old(out) + PutStrs(ss) == out + StrItems(ss[0..]);
      while i < |ss|
        invariant 0 <= i <= |ss| && old(out) + PutStrs(ss) == out + StrItems(ss[i..])
      {
        assert ss[i..][0] == ss[i] && ss[i..][1..] == ss[i + 1..];
        assert out + StrItems(ss[i..]) == (out + PutStr(ss[i])) + StrItems(ss[i + 1..]);
        WriteStr(ss[i]);
        i := i + 1;
      }
      assert ss[i..] == [] && out + [] == out;
    }

    method WriteNums(xs: seq<nat>)
      modifies this
      ensures out == old(out) + PutNums(xs)
    {
      hide Little;
      WriteU32(|xs|);
      var i := 0;
      assert xs[0..] == xs;
      assert old(out) + PutNums(xs) == out + NumItems(xs[0..]);
      while i < |xs|
        invariant 0 <= i <= |xs| && old(out) + PutNums(xs) == out + NumItems(xs[i..])
      {
        assert xs[i..][0] == xs[i] && xs[i..][1..] == xs[i + 1..];
        assert out + NumItems(xs[i..]) == (out + PutU32(xs[i])) + NumItems(xs[i + 1..]);
        WriteU32(xs[i]);
        i := i + 1;
      }
      assert xs[i..] == [] && out + [] == out;
    }

    method WriteHot(h: Hot)
      modifies this
      ensures out == old(out) + PutHot(h)
    {
      hide PutStr, Little;
      WriteStr(h.ops);
      WriteU32(|h.args|);
      var i := 0;
      assert h.args[0..] == h.args;
      assert old(out) + PutHot(h) == out + ArgItems(h.args[0..]);
      while i < |h.args|
        invariant 0 <= i <= |h.args| && old(out) + PutHot(h) == out + ArgItems(h.args[i..])
      {
        var left := h.args[i..];
        assert left[0] == h.args[i] && left[1..] == h.args[i + 1..];
        assert out + ArgItems(left) == (out + PutI64(h.args[i])) + ArgItems(h.args[i + 1..]);
        WriteLittle(h.args[i] % 0x1_0000_0000_0000_0000, 8);
        i := i + 1;
      }
      assert h.args[i..] == [] && out + [] == out;
    }

    /** A value that cannot be written leaves the buffer in an unspecified state. */
    method WriteValue(k: Codec, v: Value, depth: nat) returns (ok: bool)
      modifies this
      ensures ok == PutValue(k, v, depth).Some?
      ensures ok ==> out == old(out) + PutValue(k, v, depth).value
      decreases v, 1
    {
      hide PutStr, PutI64, PutU32, PutItems, PutEntries, PutFunc;
      if depth > MAX_DEPTH {
        return false;
      }
      ok := true;
      match v
      case Nil => Write([0]);
      case Bool(b) => Write([1] + PutFlag(b));
      case Small(n) => Write([2] + PutI64(n));
      case Text(s) => Tagged(3, s);
      case TypeRef(s) => Tagged(4, s);
      case Blob(s) => Tagged(5, s);
      case Func(f) =>
        Write([6]);
        ok := WriteFunc(k, f.name, f);
        assert ok ==> out == old(out) + ([6] + PutFunc(k, f.name, f).value);
      case Wide(id) => Tagged(7, k.show(id));
      case Tuple(items) => ok := WriteItems(k, 8, items, depth + 1);
      case FrozenList(items) => ok := WriteItems(k, 9, items, depth + 1);
      case FrozenDict(entries) => ok := WriteEntries(k, entries, depth + 1);
      case FrozenSet(items) => ok := WriteItems(k, 11, items, depth + 1);
      case Opaque => ok := false;
    }

    method Tagged(tag: Byte, s: Bytes)
      modifies this
      ensures out == old(out) + ([tag] + PutStr(s))
    {
      Write([tag]);
      WriteStr(s);
      assert (old(out) + [tag]) + PutStr(s) == old(out) + ([tag] + PutStr(s));
    }

    method WriteItems(k: Codec, tag: Byte, vs: Values, depth: nat) returns (ok: bool)
      modifies this
      ensures ok == PutItems(k, vs, depth).Some?
      ensures ok ==> out == old(out) + ([tag] + PutU32(vs.Count()) + PutItems(k, vs, depth).value)
      decreases vs, 1
    {
      hide PutValue, PutU32;
      Write([tag]);
      WriteU32(vs.Count());
      ghost var start := out;
      var rest := vs;
      while rest.MoreValues?
        invariant rest == vs || rest < vs
        invariant PutItems(k, vs, depth).Some? <==> PutItems(k, rest, depth).Some?
        invariant PutItems(k, vs, depth).Some? ==> start + PutItems(k, vs, depth).value == out + PutItems(k, rest, depth).value
        decreases rest
      {
        ghost var was := out;
        ok := WriteValue(k, rest.head, depth);
        if !ok {
          return;
        }
        if PutItems(k, rest.tail, depth).Some? {
          assert was + PutItems(k, rest, depth).value == (was + PutValue(k, rest.head, depth).value) + PutItems(k, rest.tail, depth).value;
        }
        rest := rest.tail;
      }
      ok := true;
      assert out + [] == out;
      assert start + PutItems(k, vs, depth).value == old(out) + ([tag] + PutU32(vs.Count()) + PutItems(k, vs, depth).value);
    }

    method WriteEntries(k: Codec, es: Entries, depth: nat) returns (ok: bool)
      modifies this
      ensures ok == PutEntries(k, es, depth).Some?
      ensures ok ==> out == old(out) + ([10] + PutU32(es.Count()) + PutEntries(k, es, depth).value)
      decreases es, 1
    {
      hide PutValue, PutU32;
      Write([10]);
      WriteU32(es.Count());
      ghost var start := out;
      var rest := es;
      while rest.MoreEntries?
        invariant rest == es || rest < es
        invariant PutEntries(k, es, depth).Some? <==> PutEntries(k, rest, depth).Some?
        invariant PutEntries(k, es, depth).Some? ==> start + PutEntries(k, es, depth).value == out + PutEntries(k, rest, depth).value
        decreases rest
      {
        ghost var was := out;
        ok := WriteValue(k, rest.key, depth);
        if ok {
          ok := WriteValue(k, rest.val, depth);
        }
        if !ok {
          return;
        }
        if PutEntries(k, rest.tail, depth).Some? {
          var x, y, z := PutValue(k, rest.key, depth).value, PutValue(k, rest.val, depth).value, PutEntries(k, rest.tail, depth).value;
          assert was + (x + (y + z)) == ((was + x) + y) + z;
        }
        rest := rest.tail;
      }
      ok := true;
      assert out + [] == out;
      assert start + PutEntries(k, es, depth).value == old(out) + ([10] + PutU32(es.Count()) + PutEntries(k, es, depth).value);
    }

    method WriteFunc(k: Codec, name: Bytes, f: Function) returns (ok: bool)
      modifies this
      ensures ok == PutFunc(k, name, f).Some?
      ensures ok ==> out == old(out) + PutFunc(k, name, f).value
      decreases f, 1
    {
      hide PutHead, PutTail, PutCode;
      if f.refused {
        return false;
      }
      WriteHead(name, f);
      ok := WriteCode(k, f.body);
      if ok {
        WriteTail(f);
        var x, y, z := PutHead(name, f), PutCode(k, f.body).value, PutTail(f);
        assert ((old(out) + x) + y) + z == old(out) + (x + (y + z));
      }
    }

    method WriteHead(name: Bytes, f: Function)
      modifies this
      ensures out == old(out) + PutHead(name, f)
    {
      hide PutStr, PutU32, Little, ParamItems, PutHot;
      WriteStr(name);
      Write([f.flags]);
      WriteU32(f.entryPc);
      WriteU32(f.frameSlots);
      WriteU32(f.fastLocals);
      WriteU32(f.entryLabel);
      WriteLittle(f.hotArgc % 0x1_0000, 2);
      WriteU32(|f.params|);
      WriteParams(f.params);
      WriteHot(f.hot);
      ghost var was := old(out);
      assert was + PutHead(name, f) == was + PutStr(name) + [f.flags] + PutU32(f.entryPc) + PutU32(f.frameSlots) + PutU32(f.fastLocals)
             + PutU32(f.entryLabel) + Little(f.hotArgc % 0x1_0000, 2) + PutU32(|f.params|) + ParamItems(f.params) + PutHot(f.hot);
    }

    method WriteParam(p: Param)
      modifies this
      ensures out == old(out) + PutParam(p)
    {
      hide PutStr;
      WriteStr(p.name);
      Write(PutFlag(p.variadic));
      Write(PutFlag(p.kwvariadic));
      Write(PutFlag(p.implicit));
      Write(PutFlag(p.strong));
      ghost var was := old(out);
      assert was + PutParam(p) == was + PutStr(p.name) + PutFlag(p.variadic) + PutFlag(p.kwvariadic) + PutFlag(p.implicit) + PutFlag(p.strong);
    }

    method WriteParams(ps: seq<Param>)
      modifies this
      ensures out == old(out) + ParamItems(ps)
    {
      hide PutParam;
      var i := 0;
      assert ps[0..] == ps;
      while i < |ps|
        invariant 0 <= i <= |ps| && old(out) + ParamItems(ps) == out + ParamItems(ps[i..])
      {
        assert ps[i..][0] == ps[i] && ps[i..][1..] == ps[i + 1..];
        assert out + ParamItems(ps[i..]) == (out + PutParam(ps[i])) + ParamItems(ps[i + 1..]);
        WriteParam(ps[i]);
        i := i + 1;
      }
      assert ps[i..] == [] && out + [] == out;
    }

    method WriteOption(o: Option<nat>)
      modifies this
      ensures out == old(out) + PutOption(o)
    {
      hide Little;
      if o.None? {
        Write([0]);
      } else {
        Write([1]);
        WriteU32(o.value);
        assert (old(out) + [1]) + PutU32(o.value) == old(out) + ([1] + PutU32(o.value));
      }
    }

    method WriteTail(f: Function)
      modifies this
      ensures out == old(out) + PutTail(f)
    {
      hide PutStr, PutStrs, PutNums, PutOption;
      WriteNums(f.lineMap);
      WriteNums(f.columnMap);
      WriteOption(f.variadic);
      WriteOption(f.kwvariadic);
      WriteStr(f.sourceFile);
      if f.env.None? {
        Write([0]);
      } else {
        Write([1]);
        WriteStrs(f.env.value);
      }
      ghost var was := old(out);
      assert was + PutTail(f) == was + PutNums(f.lineMap) + PutNums(f.columnMap) + PutOption(f.variadic) + PutOption(f.kwvariadic)
             + PutStr(f.sourceFile) + PutEnv(f.env);
    }

    method WriteCode(k: Codec, code: Code) returns (ok: bool)
      modifies this
      ensures ok == PutCode(k, code).Some?
      ensures ok ==> out == old(out) + PutCode(k, code).value
      decreases code, 1
    {
      hide PutIns, PutU32;
      WriteU32(code.Count());
      ghost var start := out;
      var rest := code;
      while rest.MoreIns?
        invariant rest == code || rest < code
        invariant InsItems(k, code).Some? <==> InsItems(k, rest).Some?
        invariant InsItems(k, code).Some? ==> start + InsItems(k, code).value == out + InsItems(k, rest).value
        decreases rest
      {
        ghost var was := out;
        ok := WriteIns(k, rest.head);
        if !ok {
          return;
        }
        if InsItems(k, rest.tail).Some? {
          assert was + InsItems(k, rest).value == (was + PutIns(k, rest.head).value) + InsItems(k, rest.tail).value;
        }
        rest := rest.tail;
      }
      ok := true;
      assert out + [] == out;
      assert start + InsItems(k, code).value == old(out) + (PutU32(code.Count()) + InsItems(k, code).value);
    }

    method WriteIns(k: Codec, i: Ins) returns (ok: bool)
      modifies this
      ensures ok == PutIns(k, i).Some?
      ensures ok ==> out == old(out) + PutIns(k, i).value
      decreases i, 0
    {
      hide PutField;
      if i.Unwritable? {
        return false;
      }
      Write([i.tag]);
      ghost var start := out;
      var rest := i.fields;
      while rest.MoreFields?
        invariant rest == i.fields || rest < i.fields
        invariant PutFields(k, i.fields).Some? <==> PutFields(k, rest).Some?
        invariant PutFields(k, i.fields).Some? ==> start + PutFields(k, i.fields).value == out + PutFields(k, rest).value
        decreases rest
      {
        ghost var was := out;
        ok := WriteField(k, rest.head);
        if !ok {
          return;
        }
        if PutFields(k, rest.tail).Some? {
          assert was + PutFields(k, rest).value == (was + PutField(k, rest.head).value) + PutFields(k, rest.tail).value;
        }
        rest := rest.tail;
      }
      ok := true;
      assert out + [] == out;
      assert start + PutFields(k, i.fields).value == old(out) + ([i.tag] + PutFields(k, i.fields).value);
    }

    method WriteField(k: Codec, f: Field) returns (ok: bool)
      modifies this
      ensures ok == PutField(k, f).Some?
      ensures ok ==> out == old(out) + PutField(k, f).value
      decreases f, 0
    {
      hide PutStr, PutStrs, PutU32, Little, PutValue;
      ok := true;
      match f
      case U32(n) => WriteU32(n);
      case I64(n) => WriteLittle(n % 0x1_0000_0000_0000_0000, 8);
      case Str(s) => WriteStr(s);
      case Strs(ss) => WriteStrs(ss);
      case Flag(b) => Write(PutFlag(b));
      case Val(v) => ok := WriteValue(k, v, 0);
    }

    method WritePairs(xs: seq<(nat, nat)>)
      modifies this
      ensures out == old(out) + PairItems(xs)
    {
      hide Little;
      var i := 0;
      assert xs[0..] == xs;
      while i < |xs|
        invariant 0 <= i <= |xs| && old(out) + PairItems(xs) == out + PairItems(xs[i..])
      {
        assert xs[i..][0] == xs[i] && xs[i..][1..] == xs[i + 1..];
        assert out + PairItems(xs[i..]) == ((out + PutU32(xs[i].0)) + PutU32(xs[i].1)) + PairItems(xs[i + 1..]);
        WriteU32(xs[i].0);
        WriteU32(xs[i].1);
        i := i + 1;
      }
      assert xs[i..] == [] && out + [] == out;
    }

    method WriteFunctions(k: Codec, fs: Functions) returns (ok: bool)
      modifies this
      ensures ok == FunctionItems(k, fs).Some?
      ensures ok ==> out == old(out) + FunctionItems(k, fs).value
    {
      hide PutFunc;
      var rest := fs;
      while rest.MoreFunctions?
        invariant FunctionItems(k, fs).Some? <==> FunctionItems(k, rest).Some?
        invariant FunctionItems(k, fs).Some? ==> old(out) + FunctionItems(k, fs).value == out + FunctionItems(k, rest).value
        decreases rest
      {
        ghost var was := out;
        ok := WriteFunc(k, rest.name, rest.f);
        if !ok {
          return;
        }
        if FunctionItems(k, rest.tail).Some? {
          assert was + FunctionItems(k, rest).value == (was + PutFunc(k, rest.name, rest.f).value) + FunctionItems(k, rest.tail).value;
        }
        rest := rest.tail;
      }
      ok := true;
      assert out + [] == out;
    }

    method WriteTop(k: Codec, p: Program)
      modifies this
      ensures out == old(out) + PutTop(k, p)
    {
      hide PutStr, PutStrs, PutNums, PutHot, PutU32, PairItems, Little;
      Write(MAGIC);
      WriteLittle(FORMAT, 2);
      WriteStr(k.version);
      WriteHot(p.hot);
      WriteNums(p.lineMap);
      WriteNums(p.columnMap);
      WriteStrs(p.globals);
      WriteU32(p.frameSlots);
      WriteU32(|p.localToGlobal|);
      WritePairs(p.localToGlobal);
      ghost var was := old(out);
      assert was + PutTop(k, p) == was + MAGIC + Little(FORMAT, 2) + PutStr(k.version) + PutHot(p.hot) + PutNums(p.lineMap) + PutNums(p.columnMap)
             + PutStrs(p.globals) + PutU32(p.frameSlots) + PutU32(|p.localToGlobal|) + PairItems(p.localToGlobal);
    }

    /** The whole file. */
    method WriteProgram(k: Codec, p: Program) returns (ok: bool)
      requires out == []
      modifies this
      ensures ok == PutProgram(k, p).Some?
      ensures ok ==> out == PutProgram(k, p).value
    {
      hide PutTop, PutU32, PutCode, FunctionItems;
      if p.refused {
        return false;
      }
      WriteTop(k, p);
      ok := WriteCode(k, p.code);
      if ok {
        WriteU32(p.functions.Count());
        ok := WriteFunctions(k, p.functions);
        if ok {
          assert out == PutTop(k, p) + (PutCode(k, p.code).value + (PutU32(p.functions.Count()) + FunctionItems(k, p.functions).value));
        }
      }
    }
  }

  // ----- reading -----

  /** What a reading method gives and where it leaves the cursor; where a failed one does is not said. */
  predicate Moved<T(==)>(r: Option<T>, g: Read<T>, pos: nat) {
    if g.Got? then r == Some(g.v) && pos == g.next else r == None
  }

  function Onto<T>(xs: seq<T>, g: Read<seq<T>>): Read<seq<T>> {
    if g.Got? then Got(xs + g.v, g.next) else Bad
  }

  lemma OntoNone<T>(g: Read<seq<T>>)
    ensures Onto([], g) == g
  {
    if g.Got? { assert [] + g.v == g.v; }
  }

  lemma OntoOne<T>(xs: seq<T>, x: T, g: Read<seq<T>>)
    ensures Onto(xs + [x], g) == Onto(xs, Onto([x], g))
  {
    if g.Got? { assert (xs + [x]) + g.v == xs + ([x] + g.v); }
  }

  function ChainValues(xs: seq<Value>, tail: Values): Values {
    if xs == [] then tail else MoreValues(xs[0], ChainValues(xs[1..], tail))
  }

  function OntoValues(xs: seq<Value>, g: Read<Values>): Read<Values> {
    if g.Got? then Got(ChainValues(xs, g.v), g.next) else Bad
  }

  lemma {:induction false} ChainValuesOne(xs: seq<Value>, x: Value, tail: Values)
    ensures ChainValues(xs + [x], tail) == ChainValues(xs, MoreValues(x, tail))
    decreases |xs|
  {
    if xs != [] {
      assert (xs + [x])[1..] == xs[1..] + [x];
      ChainValuesOne(xs[1..], x, tail);
    } else {
      assert [x][1..] == [];
    }
  }

  function ChainEntries(xs: seq<(Value, Value)>, tail: Entries): Entries {
    if xs == [] then tail else MoreEntries(xs[0].0, xs[0].1, ChainEntries(xs[1..], tail))
  }

  function OntoEntries(xs: seq<(Value, Value)>, g: Read<Entries>): Read<Entries> {
    if g.Got? then Got(ChainEntries(xs, g.v), g.next) else Bad
  }

  lemma {:induction false} ChainEntriesOne(xs: seq<(Value, Value)>, x: (Value, Value), tail: Entries)
    ensures ChainEntries(xs + [x], tail) == ChainEntries(xs, MoreEntries(x.0, x.1, tail))
    decreases |xs|
  {
    if xs != [] {
      assert (xs + [x])[1..] == xs[1..] + [x];
      ChainEntriesOne(xs[1..], x, tail);
    } else {
      assert [x][1..] == [];
    }
  }

  function ChainIns(xs: seq<Ins>, tail: Code): Code {
    if xs == [] then tail else MoreIns(xs[0], ChainIns(xs[1..], tail))
  }

  function OntoCode(xs: seq<Ins>, g: Read<Code>): Read<Code> {
    if g.Got? then Got(ChainIns(xs, g.v), g.next) else Bad
  }

  lemma {:induction false} ChainInsOne(xs: seq<Ins>, x: Ins, tail: Code)
    ensures ChainIns(xs + [x], tail) == ChainIns(xs, MoreIns(x, tail))
    decreases |xs|
  {
    if xs != [] {
      assert (xs + [x])[1..] == xs[1..] + [x];
      ChainInsOne(xs[1..], x, tail);
    } else {
      assert [x][1..] == [];
    }
  }

  function ChainFields(xs: seq<Field>, tail: Fields): Fields {
    if xs == [] then tail else MoreFields(xs[0], ChainFields(xs[1..], tail))
  }

  function OntoFields(xs: seq<Field>, g: Read<Fields>): Read<Fields> {
    if g.Got? then Got(ChainFields(xs, g.v), g.next) else Bad
  }

  lemma {:induction false} ChainFieldsOne(xs: seq<Field>, x: Field, tail: Fields)
    ensures ChainFields(xs + [x], tail) == ChainFields(xs, MoreFields(x, tail))
    decreases |xs|
  {
    if xs != [] {
      assert (xs + [x])[1..] == xs[1..] + [x];
      ChainFieldsOne(xs[1..], x, tail);
    } else {
      assert [x][1..] == [];
    }
  }

  function ChainFunctions(xs: seq<Function>, tail: Functions): Functions {
    if xs == [] then tail else MoreFunctions(xs[0].name, xs[0], ChainFunctions(xs[1..], tail))
  }

  function OntoFunctions(xs: seq<Function>, g: Read<Functions>): Read<Functions> {
    if g.Got? then Got(ChainFunctions(xs, g.v), g.next) else Bad
  }

  lemma {:induction false} ChainFunctionsOne(xs: seq<Function>, x: Function, tail: Functions)
    ensures ChainFunctions(xs + [x], tail) == ChainFunctions(xs, MoreFunctions(x.name, x, tail))
    decreases |xs|
  {
    if xs != [] {
      assert (xs + [x])[1..] == xs[1..] + [x];
      ChainFunctionsOne(xs[1..], x, tail);
    } else {
      assert [x][1..] == [];
    }
  }

  class Cursor {
    const b: Bytes
    var pos: nat

    constructor (b: Bytes)
      ensures this.b == b && pos == 0
    {
      this.b := b;
      pos := 0;
    }

    method ReadByte() returns (r: Option<Byte>)
      requires pos <= |b|
      modifies this`pos
      ensures Moved(r, GetByte(b, old(pos)), pos)
    {
      if pos == |b| {
        return None;
      }
      r := Some(b[pos]);
      pos := pos + 1;
    }

    method ReadFixed(count: nat) returns (r: Option<nat>)
      requires pos <= |b|
      modifies this`pos
      ensures Moved(r, GetFixed(b, old(pos), count), pos)
    {
      if pos + count > |b| {
        return None;
      }
      r := Some(FromLittle(b[pos..pos + count]));
      pos := pos + count;
    }

    method ReadI64() returns (r: Option<int>)
      requires pos <= |b|
      modifies this`pos
      ensures Moved(r, GetI64(b, old(pos)), pos)
    {
      hide FromLittle;
      var n := ReadFixed(8);
      if n.None? {
        return None;
      }
      r := Some(Signed(n.value));
    }

    method ReadCount(max: nat) returns (r: Option<nat>)
      requires pos <= |b|
      modifies this`pos
      ensures Moved(r, GetCount(b, old(pos), max), pos)
    {
      hide FromLittle;
      r := ReadFixed(4);
      if r.Some? && (r.value > max || r.value > |b| - pos) {
        r := None;
      }
    }

    method ReadBlob() returns (r: Option<Bytes>)
      requires pos <= |b|
      modifies this`pos
      ensures Moved(r, GetBlob(b, old(pos)), pos)
    {
      hide GetCount;
      var n := ReadCount(MAX_BLOB);
      if n.None? {
        return None;
      }
      r := Some(b[pos..pos + n.value]);
      pos := pos + n.value;
    }

    method ReadStr(k: Codec) returns (r: Option<Bytes>)
      requires pos <= |b|
      modifies this`pos
      ensures Moved(r, GetStr(k, b, old(pos)), pos)
    {
      hide GetBlob;
      r := ReadBlob();
      if r.Some? && !k.utf8(r.value) {
        r := None;
      }
    }

    method ReadStrs(k: Codec) returns (r: Option<seq<Bytes>>)
      requires pos <= |b|
      modifies this`pos
      ensures Moved(r, GetStrs(k, b, old(pos)), pos)
    {
      hide GetCount, GetStr;
      var n := ReadCount(MAX_ITEMS);
      if n.None? {
        return None;
      }
      ghost var start := pos;
      var xs: seq<Bytes> := [];
      var left := n.value;
      OntoNone(GetStrItems(k, b, start, left));
      while left > 0
        invariant pos <= |b| && GetStrItems(k, b, start, n.value) == Onto(xs, GetStrItems(k, b, pos, left))
      {
        var x := ReadStr(k);
        if x.None? {
          return None;
        }
        OntoOne(xs, x.value, GetStrItems(k, b, pos, left - 1));
        xs, left := xs + [x.value], left - 1;
      }
      assert xs + [] == xs;
      r := Some(xs);
    }

    method ReadNums() returns (r: Option<seq<nat>>)
      requires pos <= |b|
      modifies this`pos
      ensures Moved(r, GetNums(b, old(pos)), pos)
    {
      hide GetCount, GetFixed;
      var n := ReadCount(MAX_ITEMS);
      if n.None? {
        return None;
      }
      ghost var start := pos;
      var xs: seq<nat> := [];
      var left := n.value;
      OntoNone(GetNumItems(b, start, left));
      while left > 0
        invariant pos <= |b| && GetNumItems(b, start, n.value) == Onto(xs, GetNumItems(b, pos, left))
      {
        var x := ReadFixed(4);
        if x.None? {
          return None;
        }
        OntoOne(xs, x.value, GetNumItems(b, pos, left - 1));
        xs, left := xs + [x.value], left - 1;
      }
      assert xs + [] == xs;
      r := Some(xs);
    }

    method ReadPairs(count: nat) returns (r: Option<seq<(nat, nat)>>)
      requires pos <= |b|
      modifies this`pos
      ensures Moved(r, GetPairItems(b, old(pos), count), pos)
    {
      hide GetFixed;
      ghost var start := pos;
      var xs: seq<(nat, nat)> := [];
      var left := count;
      OntoNone(GetPairItems(b, start, left));
      while left > 0
        invariant pos <= |b| && GetPairItems(b, start, count) == Onto(xs, GetPairItems(b, pos, left))
      {
        var x := ReadFixed(4);
        if x.None? {
          return None;
        }
        var y := ReadFixed(4);
        if y.None? {
          return None;
        }
        OntoOne(xs, (x.value, y.value), GetPairItems(b, pos, left - 1));
        xs, left := xs + [(x.value, y.value)], left - 1;
      }
      assert xs + [] == xs;
      r := Some(xs);
    }

    method ReadOption() returns (r: Option<Option<nat>>)
      requires pos <= |b|
      modifies this`pos
      ensures Moved(r, GetOption(b, old(pos)), pos)
    {
      hide GetFixed;
      var t := ReadByte();
      if t.None? {
        return None;
      }
      if t.value == 0 {
        return Some(None);
      }
      var x := ReadFixed(4);
      r := if x.None? then None else Some(Some(x.value));
    }

    method ReadHot() returns (r: Option<Hot>)
      requires pos <= |b|
      modifies this`pos
      ensures Moved(r, GetHot(b, old(pos)), pos)
    {
      hide GetBlob, GetCount, GetI64;
      var ops := ReadBlob();
      if ops.None? {
        return None;
      }
      var n := ReadCount(MAX_ITEMS);
      if n.None? {
        return None;
      }
      ghost var start := pos;
      var xs: seq<int> := [];
      var left := n.value;
      OntoNone(GetArgItems(b, start, left));
      while left > 0
        invariant pos <= |b| && GetArgItems(b, start, n.value) == Onto(xs, GetArgItems(b, pos, left))
      {
        var x := ReadI64();
        if x.None? {
          return None;
        }
        OntoOne(xs, x.value, GetArgItems(b, pos, left - 1));
        xs, left := xs + [x.value], left - 1;
      }
      assert xs + [] == xs;
      r := Some(Hot(ops.value, xs));
    }

    method ReadParam(k: Codec) returns (r: Option<Param>)
      requires pos <= |b|
      modifies this`pos
      ensures Moved(r, GetParam(k, b, old(pos)), pos)
    {
      hide GetStr;
      var name := ReadStr(k);
      if name.None? || pos + 4 > |b| {
        return None;
      }
      r := Some(Param(name.value, b[pos] != 0, b[pos + 1] != 0, b[pos + 2] != 0, b[pos + 3] != 0, 0));
      pos := pos + 4;
    }

    method ReadParams(k: Codec, count: nat) returns (r: Option<seq<Param>>)
      requires pos <= |b|
      modifies this`pos
      ensures Moved(r, GetParamItems(k, b, old(pos), count), pos)
    {
      hide GetParam;
      ghost var start := pos;
      var xs: seq<Param> := [];
      var left := count;
      OntoNone(GetParamItems(k, b, start, left));
      while left > 0
        invariant pos <= |b| && GetParamItems(k, b, start, count) == Onto(xs, GetParamItems(k, b, pos, left))
      {
        var x := ReadParam(k);
        if x.None? {
          return None;
        }
        OntoOne(xs, x.value, GetParamItems(k, b, pos, left - 1));
        xs, left := xs + [x.value], left - 1;
      }
      assert xs + [] == xs;
      r := Some(xs);
    }

    method ReadEnv(k: Codec) returns (r: Option<Option<seq<Bytes>>>)
      requires pos <= |b|
      modifies this`pos
      ensures Moved(r, GetEnv(k, b, old(pos)), pos)
    {
      hide GetStrs;
      var t := ReadByte();
      if t.None? {
        return None;
      }
      if t.value == 0 {
        return Some(None);
      }
      var names := ReadStrs(k);
      r := if names.None? then None else Some(Some(names.value));
    }

    method ReadHead(k: Codec) returns (r: Option<Function>)
      requires pos <= |b|
      modifies this`pos
      ensures Moved(r, GetHead(k, b, old(pos)), pos)
    {
      hide GetStr, GetCount, GetParamItems, GetHot, FromLittle;
      var name := ReadStr(k);
      if name.None? || pos + 19 > |b| {
        return None;
      }
      var flags := b[pos];
      pos := pos + 1;
      var entryPc := ReadFixed(4);
      var frameSlots := ReadFixed(4);
      var fastLocals := ReadFixed(4);
      var entryLabel := ReadFixed(4);
      var argc := ReadFixed(2);
      var n := ReadCount(MAX_ITEMS);
      if n.None? {
        return None;
      }
      var params := ReadParams(k, n.value);
      if params.None? {
        return None;
      }
      var hot := ReadHot();
      if hot.None? {
        return None;
      }
      r := Some(Function(name.value, flags, entryPc.value, frameSlots.value, fastLocals.value, entryLabel.value, argc.value, params.value,
                         hot.value, NoIns, [], [], None, None, [], None, false, 0));
    }

    method ReadTail(k: Codec, f: Function) returns (r: Option<Function>)
      requires pos <= |b|
      modifies this`pos
      ensures Moved(r, GetTail(k, b, old(pos), f), pos)
    {
      hide GetNums, GetOption, GetStr, GetEnv;
      var lines := ReadNums();
      if lines.None? {
        return None;
      }
      var columns := ReadNums();
      if columns.None? {
        return None;
      }
      var variadic := ReadOption();
      if variadic.None? {
        return None;
      }
      var kwvariadic := ReadOption();
      if kwvariadic.None? {
        return None;
      }
      var file := ReadStr(k);
      if file.None? {
        return None;
      }
      var env := ReadEnv(k);
      if env.None? {
        return None;
      }
      r := Some(f.(lineMap := lines.value, columnMap := columns.value, variadic := variadic.value, kwvariadic := kwvariadic.value,
                   sourceFile := file.value, env := env.value));
    }

    method ReadValue(k: Codec, depth: nat) returns (r: Option<Value>)
      requires pos <= |b|
      modifies this`pos
      ensures Moved(r, GetValue(k, b, old(pos), depth), pos)
      decreases |b| - pos, 1, 0
    {
      hide GetStr, GetI64, GetBlob, GetFunc, GetCounted, GetCount, GetEntries;
      if depth > MAX_DEPTH {
        return None;
      }
      var t := ReadByte();
      if t.None? {
        return None;
      }
      match t.value
      case 0 => r := Some(Nil);
      case 1 => var x := ReadByte(); r := if x.None? then None else Some(Bool(x.value != 0));
      case 2 => var x := ReadI64(); r := if x.None? then None else Some(Small(x.value));
      case 3 => var x := ReadStr(k); r := if x.None? then None else Some(Text(x.value));
      case 4 => var x := ReadStr(k); r := if x.None? then None else Some(TypeRef(x.value));
      case 5 => var x := ReadBlob(); r := if x.None? then None else Some(Blob(x.value));
      case 6 => var x := ReadFunc(k); r := if x.None? then None else Some(Func(x.value));
      case 7 => var x := ReadStr(k); r := if x.None? then None else k.parse(x.value);
      case 8 => var x := ReadItems(k, depth + 1, false); r := if x.None? then None else Some(Tuple(x.value));
      case 9 => var x := ReadItems(k, depth + 1, false); r := if x.None? then None else Some(FrozenList(x.value));
      case 10 => var x := ReadEntries(k, depth + 1); r := if x.None? then None else Some(FrozenDict(x.value));
      case 11 => var x := ReadItems(k, depth + 1, true); r := if x.None? then None else Some(FrozenSet(x.value));
      case _ => r := None;
    }

    method ReadItems(k: Codec, depth: nat, keys: bool) returns (r: Option<Values>)
      requires pos <= |b|
      modifies this`pos
      ensures Moved(r, GetCounted(k, b, old(pos), depth, keys), pos)
      decreases |b| - pos, 2, 0
    {
      hide GetCount, GetValue, IsKey;
      var n := ReadCount(MAX_ITEMS);
      if n.None? {
        return None;
      }
      ghost var start := pos;
      var xs: seq<Value> := [];
      var left := n.value;
      while left > 0
        invariant start <= pos <= |b| && GetItems(k, b, start, n.value, depth, keys) == OntoValues(xs, GetItems(k, b, pos, left, depth, keys))
      {
        var x := ReadValue(k, depth);
        if x.None? || (keys && !IsKey(k, x.value)) {
          return None;
        }
        ghost var g := GetItems(k, b, pos, left - 1, depth, keys);
        if g.Got? { ChainValuesOne(xs, x.value, g.v); }
        xs, left := xs + [x.value], left - 1;
      }
      r := Some(ChainValues(xs, NoValue));
    }

    method ReadEntries(k: Codec, depth: nat) returns (r: Option<Entries>)
      requires pos <= |b|
      modifies this`pos
      ensures var n := GetCount(b, old(pos), MAX_ITEMS);
              if n.Bad? then r == None else Moved(r, GetEntries(k, b, n.next, n.v, depth), pos)
      decreases |b| - pos, 2, 0
    {
      hide GetCount, GetValue, IsKey;
      var n := ReadCount(MAX_ITEMS);
      if n.None? {
        return None;
      }
      ghost var start := pos;
      var xs: seq<(Value, Value)> := [];
      var left := n.value;
      while left > 0
        invariant start <= pos <= |b| && GetEntries(k, b, start, n.value, depth) == OntoEntries(xs, GetEntries(k, b, pos, left, depth))
      {
        var x := ReadValue(k, depth);
        if x.None? || !IsKey(k, x.value) {
          return None;
        }
        var y := ReadValue(k, depth);
        if y.None? {
          return None;
        }
        ghost var g := GetEntries(k, b, pos, left - 1, depth);
        if g.Got? { ChainEntriesOne(xs, (x.value, y.value), g.v); }
        xs, left := xs + [(x.value, y.value)], left - 1;
      }
      r := Some(ChainEntries(xs, NoEntry));
    }

    method ReadFunc(k: Codec) returns (r: Option<Function>)
      requires pos <= |b|
      modifies this`pos
      ensures Moved(r, GetFunc(k, b, old(pos)), pos)
      decreases |b| - pos, 1, 0
    {
      hide GetHead, GetCode, GetTail;
      var head := ReadHead(k);
      if head.None? {
        return None;
      }
      var body := ReadCode(k);
      if body.None? {
        return None;
      }
      r := ReadTail(k, head.value.(body := body.value, hot := k.hot(body.value)));
    }

    /** A code array: as many instructions as its length says. */
    method ReadCode(k: Codec) returns (r: Option<Code>)
      requires pos <= |b|
      modifies this`pos
      ensures Moved(r, GetCode(k, b, old(pos)), pos)
      decreases |b| - pos, 2, 0
    {
      hide GetCount, GetIns;
      var n := ReadCount(MAX_ITEMS);
      if n.None? {
        return None;
      }
      ghost var start := pos;
      var xs: seq<Ins> := [];
      var left := n.value;
      while left > 0
        invariant start <= pos <= |b| && GetInsItems(k, b, start, n.value) == OntoCode(xs, GetInsItems(k, b, pos, left))
      {
        var x := ReadIns(k);
        if x.None? {
          return None;
        }
        ghost var g := GetInsItems(k, b, pos, left - 1);
        if g.Got? { ChainInsOne(xs, x.value, g.v); }
        xs, left := xs + [x.value], left - 1;
      }
      r := Some(ChainIns(xs, NoIns));
    }

    method ReadIns(k: Codec) returns (r: Option<Ins>)
      requires pos <= |b|
      modifies this`pos
      ensures Moved(r, GetIns(k, b, old(pos)), pos)
      decreases |b| - pos, 1, 0
    {
      hide GetField, Shape;
      var t := ReadByte();
      if t.None? || Shape(t.value).None? {
        return None;
      }
      var kinds := Shape(t.value).value;
      ghost var start := pos;
      var xs: seq<Field> := [];
      var i := 0;
      assert kinds[0..] == kinds;
      while i < |kinds|
        invariant 0 <= i <= |kinds| && start <= pos <= |b|
        invariant GetFields(k, b, start, kinds) == OntoFields(xs, GetFields(k, b, pos, kinds[i..]))
      {
        assert kinds[i..][0] == kinds[i] && kinds[i..][1..] == kinds[i + 1..];
        var x := ReadField(k, kinds[i]);
        if x.None? {
          return None;
        }
        ghost var g := GetFields(k, b, pos, kinds[i + 1..]);
        if g.Got? { ChainFieldsOne(xs, x.value, g.v); }
        xs, i := xs + [x.value], i + 1;
      }
      assert kinds[i..] == [];
      r := Some(Ins(t.value, ChainFields(xs, NoField)));
    }

    method ReadField(k: Codec, kind: Kind) returns (r: Option<Field>)
      requires pos <= |b|
      modifies this`pos
      ensures Moved(r, GetField(k, b, old(pos), kind), pos)
      decreases |b| - pos, 2, 0
    {
      hide GetFixed, GetI64, GetStr, GetStrs, GetValue;
      match kind
      case KU32 => var x := ReadFixed(4); r := if x.None? then None else Some(U32(x.value));
      case KI64 => var x := ReadI64(); r := if x.None? then None else Some(I64(x.value));
      case KStr => var x := ReadStr(k); r := if x.None? then None else Some(Str(x.value));
      case KStrs => var x := ReadStrs(k); r := if x.None? then None else Some(Strs(x.value));
      case KFlag => var x := ReadByte(); r := if x.None? then None else Some(Flag(x.value != 0));
      case KVal => var x := ReadValue(k, 0); r := if x.None? then None else Some(Val(x.value));
    }

    method ReadFunctions(k: Codec, count: nat) returns (r: Option<Functions>)
      requires pos <= |b|
      modifies this`pos
      ensures Moved(r, GetFunctionItems(k, b, old(pos), count), pos)
    {
      hide GetFunc;
      ghost var start := pos;
      var xs: seq<Function> := [];
      var left := count;
      while left > 0
        invariant start <= pos <= |b| && GetFunctionItems(k, b, start, count) == OntoFunctions(xs, GetFunctionItems(k, b, pos, left))
      {
        var x := ReadFunc(k);
        if x.None? {
          return None;
        }
        ghost var g := GetFunctionItems(k, b, pos, left - 1);
        if g.Got? { ChainFunctionsOne(xs, x.value, g.v); }
        xs, left := xs + [x.value], left - 1;
      }
      r := Some(ChainFunctions(xs, NoFunction));
    }

    method ReadPreamble(k: Codec) returns (ok: bool)
      requires pos == 0
      modifies this`pos
      ensures Moved(if ok then Some(()) else None, GetPreamble(k, b), pos)
    {
      hide GetStr, FromLittle;
      if |b| < 6 || b[..4] != MAGIC || FromLittle(b[4..6]) != FORMAT {
        return false;
      }
      pos := 6;
      var version := ReadStr(k);
      ok := version.Some? && version.value == k.version;
    }

    method ReadTables(k: Codec) returns (r: Option<Program>)
      requires pos <= |b|
      modifies this`pos
      ensures Moved(r, GetTables(k, b, old(pos)), pos)
    {
      hide GetHot, GetNums, GetStrs, GetFixed, GetCount, GetPairItems;
      var hot := ReadHot();
      if hot.None? {
        return None;
      }
      var lines := ReadNums();
      if lines.None? {
        return None;
      }
      var columns := ReadNums();
      if columns.None? {
        return None;
      }
      var globals := ReadStrs(k);
      if globals.None? {
        return None;
      }
      var slots := ReadFixed(4);
      if slots.None? {
        return None;
      }
      var n := ReadCount(MAX_ITEMS);
      if n.None? {
        return None;
      }
      var pairs := ReadPairs(n.value);
      if pairs.None? {
        return None;
      }
      r := Some(Program(hot.value, lines.value, columns.value, globals.value, slots.value, pairs.value, NoIns, NoFunction, false));
    }

    /** The whole file; bytes after it are not looked at. */
    method ReadProgram(k: Codec) returns (r: Option<Program>)
      requires pos == 0
      modifies this`pos
      ensures Moved(r, GetProgram(k, b), pos)
    {
      hide GetPreamble, GetTables, GetCode, GetCount, GetFunctionItems;
      var ok := ReadPreamble(k);
      if !ok {
        return None;
      }
      var tables := ReadTables(k);
      if tables.None? {
        return None;
      }
      var code := ReadCode(k);
      if code.None? {
        return None;
      }
      var n := ReadCount(MAX_ITEMS);
      if n.None? {
        return None;
      }
      var functions := ReadFunctions(k, n.value);
      if functions.None? {
        return None;
      }
      r := Some(tables.value.(hot := k.hot(code.value), code := code.value, functions := functions.value));
    }
  }
}
