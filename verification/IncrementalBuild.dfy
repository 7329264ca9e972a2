/** Building the modules wave by wave, with results kept from the build before. */
module IncrementalBuild {
  import opened Wrappers
  import opened ModuleGraph
  import opened ModuleWaves

  /** Errors are texts with an order; only that order matters here. */
  datatype Result<+T> = Ok(value: T) | Err(error: nat)

  type Source = nat
  type Exports = nat
  type Imports = seq<nat>
  type Compiled = seq<nat>
  type Bytes = seq<nat>

  /** What the import names of a module stand for. */
  type Names = nat

  /** SHA-256 without collisions: a digest is what it was taken of. */
  datatype InterfaceDigest = InterfaceDigest(key: Key, exports: Exports)

  datatype BuildDigest = BuildDigest(version: nat, key: Key, source: Source, deps: seq<InterfaceDigest>)

  datatype Interface = Interface(key: Key, source: Source, build: BuildDigest, digest: InterfaceDigest, imports: nat, exports: Exports)

  datatype Output = Output(key: Key, iface: Interface, bytecode: Option<Bytes>, hit: bool)

  datatype Entry = Entry(iface: Option<Interface>, bytecode: Option<Bytes>)

  /** The live build directory: the interface and the bytecode file of each module. */
  type Live = map<Key, Entry>

  datatype Emit = EmitAll | EmitBytecode | EmitInterface {
    predicate WritesBytecode() { this != EmitInterface }
    predicate WritesInterface() { this != EmitBytecode }
  }

  /** One version of the compiler; it is deterministic. What the import names of a module stand for
      is not part of any digest, only the interfaces of its dependencies are. */
  datatype Compiler = Compiler(
    imports: (Names, Key, Source, seq<InterfaceDigest>) -> Result<Imports>,
    exports: (Source, Imports) -> Result<Exports>,
    compile: (Source, Imports) -> Result<Compiled>,
    encode: Compiled -> Result<Bytes>,
    importNames: Source -> nat)

  type Versions = nat -> Compiler

  /** One `build` command on a project. */
  datatype Request = Request(version: nat, names: Key -> Names, g: Graph, sources: map<Key, Source>, emit: Emit, jobs: nat, clean: bool)

  predicate Sane(q: Request) {
    WellFormed(q.g) && Closed(q.g) && q.sources.Keys == q.g.deps.Keys
  }

  // ----- one module -----

  function DepDigests(deps: seq<Key>, ifaces: map<Key, Interface>): seq<InterfaceDigest>
    requires forall d :: d in deps ==> d in ifaces
  {
    seq(|deps|, i requires 0 <= i < |deps| => ifaces[deps[i]].digest)
  }

  predicate Has(live: Live, k: Key, build: BuildDigest, emit: Emit) {
    k in live && live[k].iface.Some? && live[k].iface.value.build == build && (emit.WritesBytecode() ==> live[k].bytecode.Some?)
  }

  /** The dependencies of a module have been built. */
  predicate Ready(q: Request, k: Key, ifaces: map<Key, Interface>) {
    k in q.g.deps && k in q.sources && forall d :: d in q.g.deps[k] ==> d in ifaces
  }

  function BuildOne(f: Versions, q: Request, k: Key, ifaces: map<Key, Interface>, prev: Live): Result<Output>
    requires Ready(q, k, ifaces)
  {
    var c, source, digests := f(q.version), q.sources[k], DepDigests(q.g.deps[k], ifaces);
    var imports := c.imports(q.names(k), k, source, digests);
    if imports.Err? then Err(imports.error) else
    var exports := c.exports(source, imports.value);
    if exports.Err? then Err(exports.error) else
    var build := BuildDigest(q.version, k, source, digests);
    if Has(prev, k, build, q.emit) then Ok(Output(k, prev[k].iface.value, prev[k].bytecode, true)) else
    var compiled := c.compile(source, imports.value);
    if compiled.Err? then Err(compiled.error) else
    var iface := Interface(k, source, build, InterfaceDigest(k, exports.value), c.importNames(source), exports.value);
    if !q.emit.WritesBytecode() then Ok(Output(k, iface, None, false)) else
    var bytes := c.encode(compiled.value);
    if bytes.Err? then Err(bytes.error) else Ok(Output(k, iface, Some(bytes.value), false))
  }

  /** A kept interface is what its own inputs give, and so is the bytecode beside it. */
  predicate Genuine(f: Versions, names: Names, k: Key, e: Entry) {
    e.iface.Some? ==>
      var i := e.iface.value;
      var c := f(i.build.version);
      var imports := c.imports(names, k, i.build.source, i.build.deps);
      && i.build.key == k && i.key == k && i.source == i.build.source && i.imports == c.importNames(i.source)
      && imports.Ok? && c.exports(i.source, imports.value) == Ok(i.exports) && i.digest == InterfaceDigest(k, i.exports)
      && c.compile(i.source, imports.value).Ok?
      && (e.bytecode.Some? ==> c.encode(c.compile(i.source, imports.value).value) == Ok(e.bytecode.value))
  }

  predicate Sound(f: Versions, names: Key -> Names, live: Live) {
    forall k :: k in live ==> Genuine(f, names(k), k, live[k])
  }

  /** What is written for a module. */
  function Written(o: Output, emit: Emit): Entry {
    Entry(if emit.WritesInterface() then Some(o.iface) else None, if emit.WritesBytecode() then o.bytecode else None)
  }

  /** The same module and interface and, where it is written, the same bytecode. */
  predicate SameOutput(a: Output, b: Output, emit: Emit) {
    a.key == b.key && a.iface == b.iface && (emit.WritesBytecode() ==> a.bytecode == b.bytecode)
  }

  /** A hit gives what compiling would. */
  lemma OneSame(f: Versions, q: Request, k: Key, ifaces: map<Key, Interface>, prev: Live)
    requires Ready(q, k, ifaces) && Sound(f, q.names, prev)
    ensures var a, b := BuildOne(f, q, k, ifaces, prev), BuildOne(f, q, k, ifaces, map[]);
            if a.Ok? && b.Ok? then SameOutput(a.value, b.value, q.emit) else a == b
    ensures var a := BuildOne(f, q, k, ifaces, prev);
            a.Ok? ==> a.value.key == k && Genuine(f, q.names(k), k, Written(a.value, q.emit))
  {
    if k in prev { assert Genuine(f, q.names(k), k, prev[k]); }
  }

  // ----- one wave -----

  predicate Buildable(q: Request, wave: seq<Key>, ifaces: map<Key, Interface>) {
    forall k :: k in wave ==> Ready(q, k, ifaces)
  }

  /** In order, up to the first error. */
  function BuildSequence(f: Versions, q: Request, wave: seq<Key>, ifaces: map<Key, Interface>, prev: Live): Result<seq<Output>>
    requires Buildable(q, wave, ifaces)
  {
    if wave == [] then Ok([]) else
    var front := BuildSequence(f, q, wave[..|wave| - 1], ifaces, prev);
    if front.Err? then front else
    var last := BuildOne(f, q, wave[|wave| - 1], ifaces, prev);
    if last.Err? then Err(last.error) else Ok(front.value + [last.value])
  }

  function Least(a: Option<nat>, b: nat): nat {
    if a.Some? && a.value <= b then a.value else b
  }

  function LeastError(f: Versions, q: Request, wave: seq<Key>, ifaces: map<Key, Interface>, prev: Live): Option<nat>
    requires Buildable(q, wave, ifaces)
  {
    if wave == [] then None else
    var front := LeastError(f, q, wave[..|wave| - 1], ifaces, prev);
    var last := BuildOne(f, q, wave[|wave| - 1], ifaces, prev);
    if last.Err? then Some(Least(front, last.error)) else front
  }

  /** One job stops at the first error; several jobs build the whole wave and report the least. */
  function WaveResult(f: Versions, q: Request, wave: seq<Key>, ifaces: map<Key, Interface>, prev: Live): Result<seq<Output>>
    requires Buildable(q, wave, ifaces)
  {
    if q.jobs <= 1 || |wave| <= 1 then BuildSequence(f, q, wave, ifaces, prev) else
    match LeastError(f, q, wave, ifaces, prev)
    case Some(e) => Err(e)
    case None => BuildSequence(f, q, wave, ifaces, prev)
  }

  lemma {:induction false} NoError(f: Versions, q: Request, wave: seq<Key>, ifaces: map<Key, Interface>, prev: Live)
    requires Buildable(q, wave, ifaces)
    ensures LeastError(f, q, wave, ifaces, prev).None? <==> BuildSequence(f, q, wave, ifaces, prev).Ok?
    decreases |wave|
  {
    hide BuildOne;
    if wave != [] { NoError(f, q, wave[..|wave| - 1], ifaces, prev); }
  }

  function Place(o: Output, s: seq<Output>): seq<Output> {
    if s == [] || o.key <= s[0].key then [o] + s else [s[0]] + Place(o, s[1..])
  }

  function SortOutputs(s: seq<Output>): seq<Output> {
    if s == [] then [] else Place(s[0], SortOutputs(s[1..]))
  }

  lemma {:induction false} SortedStays(s: seq<Output>)
    requires forall i, j :: 0 <= i < j < |s| ==> s[i].key < s[j].key
    ensures SortOutputs(s) == s
    decreases |s|
  {
    if s != [] {
      SortedStays(s[1..]);
      assert s == [s[0]] + s[1..];
      if |s| > 1 { assert s[0].key < s[1].key; }
    }
  }

  method BuildWave(f: Versions, q: Request, wave: seq<Key>, ifaces: map<Key, Interface>, prev: Live) returns (r: Result<seq<Output>>)
    requires Buildable(q, wave, ifaces) && Ascending(wave)
    ensures r == WaveResult(f, q, wave, ifaces, prev)
  {
    hide BuildOne, Ready;
    if q.jobs <= 1 || |wave| <= 1 {
      r := InOrder(f, q, wave, ifaces, prev);
      return;
    }
    var outputs: seq<Output> := [];
    var least: Option<nat> := None;
    var i := 0;
    assert wave[..0] == [];
    while i < |wave|
      invariant 0 <= i <= |wave|
      invariant least == LeastError(f, q, wave[..i], ifaces, prev)
      invariant least.None? ==> Ok(outputs) == BuildSequence(f, q, wave[..i], ifaces, prev)
    {
      assert wave[..i + 1][..i] == wave[..i] && wave[i] in wave;
      NoError(f, q, wave[..i], ifaces, prev);
      var one := BuildOne(f, q, wave[i], ifaces, prev);
      if one.Ok? {
        outputs := outputs + [one.value];
      } else {
        least := Some(Least(least, one.error));
      }
      i := i + 1;
    }
    assert wave[..i] == wave;
    if least.Some? {
      return Err(least.value);
    }
    OutputsKeyed(f, q, wave, ifaces, prev);
    SortedStays(outputs);
    r := Ok(SortOutputs(outputs));
  }

  method InOrder(f: Versions, q: Request, wave: seq<Key>, ifaces: map<Key, Interface>, prev: Live) returns (r: Result<seq<Output>>)
    requires Buildable(q, wave, ifaces)
    ensures r == BuildSequence(f, q, wave, ifaces, prev)
  {
    hide BuildOne, Ready;
    var outputs: seq<Output> := [];
    var i := 0;
    assert wave[..0] == [];
    while i < |wave|
      invariant 0 <= i <= |wave| && Ok(outputs) == BuildSequence(f, q, wave[..i], ifaces, prev)
    {
      assert wave[..i + 1][..i] == wave[..i] && wave[i] in wave;
      var one := BuildOne(f, q, wave[i], ifaces, prev);
      if one.Err? {
        StaysFailed(f, q, wave, i + 1, ifaces, prev);
        return Err(one.error);
      }
      outputs := outputs + [one.value];
      i := i + 1;
    }
    assert wave[..i] == wave;
    r := Ok(outputs);
  }

  lemma {:induction false} StaysFailed(f: Versions, q: Request, wave: seq<Key>, i: nat, ifaces: map<Key, Interface>, prev: Live)
    requires Buildable(q, wave, ifaces) && i <= |wave| && BuildSequence(f, q, wave[..i], ifaces, prev).Err?
    ensures BuildSequence(f, q, wave, ifaces, prev) == BuildSequence(f, q, wave[..i], ifaces, prev)
    decreases |wave| - i
  {
    hide BuildOne, Ready;
    if i == |wave| {
      assert wave[..i] == wave;
    } else {
      assert wave[..i + 1][..i] == wave[..i];
      StaysFailed(f, q, wave, i + 1, ifaces, prev);
    }
  }

  predicate SameOutputs(a: seq<Output>, b: seq<Output>, emit: Emit) {
    |a| == |b| && forall i :: 0 <= i < |a| ==> SameOutput(a[i], b[i], emit)
  }

  /** The same error, or the same outputs. */
  predicate SameOutcome(a: Result<seq<Output>>, b: Result<seq<Output>>, emit: Emit) {
    if a.Ok? && b.Ok? then SameOutputs(a.value, b.value, emit) else a == b
  }

  lemma {:induction false} WaveSame(f: Versions, q: Request, wave: seq<Key>, ifaces: map<Key, Interface>, prev: Live)
    requires Buildable(q, wave, ifaces) && Sound(f, q.names, prev)
    ensures SameOutcome(BuildSequence(f, q, wave, ifaces, prev), BuildSequence(f, q, wave, ifaces, map[]), q.emit)
    ensures LeastError(f, q, wave, ifaces, prev) == LeastError(f, q, wave, ifaces, map[])
    ensures SameOutcome(WaveResult(f, q, wave, ifaces, prev), WaveResult(f, q, wave, ifaces, map[]), q.emit)
    decreases |wave|
  {
    hide BuildOne, Ready, Sound, Genuine;
    if wave != [] {
      WaveSame(f, q, wave[..|wave| - 1], ifaces, prev);
      OneSame(f, q, wave[|wave| - 1], ifaces, prev);
    }
  }

  /** What a build from a sound directory writes is sound. */
  predicate AllGenuine(f: Versions, q: Request, outputs: seq<Output>) {
    forall i :: 0 <= i < |outputs| ==> Genuine(f, q.names(outputs[i].key), outputs[i].key, Written(outputs[i], q.emit))
  }

  lemma {:induction false} WaveGenuine(f: Versions, q: Request, wave: seq<Key>, ifaces: map<Key, Interface>, prev: Live)
    requires Buildable(q, wave, ifaces) && Sound(f, q.names, prev) && BuildSequence(f, q, wave, ifaces, prev).Ok?
    ensures AllGenuine(f, q, BuildSequence(f, q, wave, ifaces, prev).value)
    decreases |wave|
  {
    hide BuildOne, Ready, Sound, Genuine, Written;
    if wave != [] {
      WaveGenuine(f, q, wave[..|wave| - 1], ifaces, prev);
      OneSame(f, q, wave[|wave| - 1], ifaces, prev);
    }
  }

  // ----- the whole build -----

  function Record(outputs: seq<Output>, ifaces: map<Key, Interface>): map<Key, Interface> {
    if outputs == [] then ifaces else
    var last := outputs[|outputs| - 1];
    Record(outputs[..|outputs| - 1], ifaces)[last.key := last.iface]
  }

  lemma {:induction false} OutputsKeyed(f: Versions, q: Request, wave: seq<Key>, ifaces: map<Key, Interface>, prev: Live)
    requires Buildable(q, wave, ifaces) && BuildSequence(f, q, wave, ifaces, prev).Ok?
    ensures var outputs := BuildSequence(f, q, wave, ifaces, prev).value;
            |outputs| == |wave| && (forall i :: 0 <= i < |wave| ==> outputs[i].key == wave[i])
            && Record(outputs, ifaces).Keys == ifaces.Keys + Elems(wave)
    decreases |wave|
  {
    hide Ready, BuildOne;
    if wave != [] {
      var front, last := wave[..|wave| - 1], wave[|wave| - 1];
      OutputsKeyed(f, q, front, ifaces, prev);
      assert last in wave;
      OneKeyed(f, q, last, ifaces, prev);
      KeyedStep(wave, BuildSequence(f, q, front, ifaces, prev).value, BuildOne(f, q, last, ifaces, prev).value, ifaces);
    }
  }

  lemma KeyedStep(wave: seq<Key>, front: seq<Output>, last: Output, ifaces: map<Key, Interface>)
    requires |wave| == |front| + 1 && (forall i :: 0 <= i < |front| ==> front[i].key == wave[i]) && last.key == wave[|front|]
    requires Record(front, ifaces).Keys == ifaces.Keys + Elems(wave[..|wave| - 1])
    ensures forall i :: 0 <= i < |wave| ==> (front + [last])[i].key == wave[i]
    ensures Record(front + [last], ifaces).Keys == ifaces.Keys + Elems(wave)
  {
    var outputs := front + [last];
    assert outputs[..|outputs| - 1] == front;
    assert wave == wave[..|wave| - 1] + [wave[|wave| - 1]];
    assert Elems(wave) == Elems(wave[..|wave| - 1]) + {last.key};
  }

  /** Every output is of its own module. */
  lemma OneKeyed(f: Versions, q: Request, k: Key, ifaces: map<Key, Interface>, prev: Live)
    requires Ready(q, k, ifaces)
    ensures BuildOne(f, q, k, ifaces, prev).Ok? ==> BuildOne(f, q, k, ifaces, prev).value.key == k
  {
  }

  lemma {:induction false} RecordSame(a: seq<Output>, b: seq<Output>, emit: Emit, ifaces: map<Key, Interface>)
    requires SameOutputs(a, b, emit)
    ensures Record(a, ifaces) == Record(b, ifaces)
    decreases |a|
  {
    if a != [] { RecordSame(a[..|a| - 1], b[..|b| - 1], emit, ifaces); }
  }

  /** The next wave after modules with these interfaces. */
  function Wave(q: Request, ifaces: map<Key, Interface>): seq<Key> {
    Kept(q.g.keys, Layer(q.g, ifaces.Keys))
  }

  /** The dependencies of a wave have all been built: no interface is ever missing. */
  lemma WaveBuildable(q: Request, ifaces: map<Key, Interface>)
    requires Sane(q)
    ensures Ascending(Wave(q, ifaces)) && Elems(Wave(q, ifaces)) == Layer(q.g, ifaces.Keys) && Buildable(q, Wave(q, ifaces), ifaces)
  {
    var wave := Wave(q, ifaces);
    KeptAscends(q.g.keys, Layer(q.g, ifaces.Keys));
    hide Ascending;
    forall k | k in wave ensures Ready(q, k, ifaces) { UndoneZero(q.g.deps[k], ifaces.Keys); }
    forall k ensures k in Elems(wave) <==> k in Layer(q.g, ifaces.Keys) { assert k in q.g.deps <==> k in Elems(q.g.keys); }
  }

  /** The build of everything that is left, after modules with these interfaces. */
  function BuildRest(f: Versions, q: Request, ifaces: map<Key, Interface>, prev: Live): Result<seq<Output>>
    requires Sane(q)
    decreases |q.g.deps.Keys - ifaces.Keys|
  {
    WaveBuildable(q, ifaces);
    var wave := Wave(q, ifaces);
    if wave == [] then Ok([]) else
    var head := WaveResult(f, q, wave, ifaces, prev);
    if head.Err? then head else
    WaveProgress(f, q, ifaces, prev);
    Join(head.value, BuildRest(f, q, Record(head.value, ifaces), prev))
  }

  function Join(head: seq<Output>, tail: Result<seq<Output>>): Result<seq<Output>> {
    if tail.Err? then tail else Ok(head + tail.value)
  }

  lemma RestStep(f: Versions, q: Request, ifaces: map<Key, Interface>, prev: Live)
    requires Sane(q)
    ensures Buildable(q, Wave(q, ifaces), ifaces)
    ensures Wave(q, ifaces) == [] ==> BuildRest(f, q, ifaces, prev) == Ok([])
    ensures var head := WaveResult(f, q, Wave(q, ifaces), ifaces, prev);
            Wave(q, ifaces) != [] ==>
              if head.Err? then BuildRest(f, q, ifaces, prev) == head
              else |q.g.deps.Keys - Record(head.value, ifaces).Keys| < |q.g.deps.Keys - ifaces.Keys|
                   && Record(head.value, ifaces).Keys == ifaces.Keys + Layer(q.g, ifaces.Keys)
                   && BuildRest(f, q, ifaces, prev) == Join(head.value, BuildRest(f, q, Record(head.value, ifaces), prev))
  {
    WaveBuildable(q, ifaces);
    hide WaveResult, Wave, Layer, Record, Sane, Buildable;
    if Wave(q, ifaces) != [] && WaveResult(f, q, Wave(q, ifaces), ifaces, prev).Ok? { WaveProgress(f, q, ifaces, prev); }
  }

  lemma WaveProgress(f: Versions, q: Request, ifaces: map<Key, Interface>, prev: Live)
    requires Sane(q) && Wave(q, ifaces) != [] && Buildable(q, Wave(q, ifaces), ifaces)
    requires WaveResult(f, q, Wave(q, ifaces), ifaces, prev).Ok?
    ensures var head := WaveResult(f, q, Wave(q, ifaces), ifaces, prev).value;
            Record(head, ifaces).Keys == ifaces.Keys + Layer(q.g, ifaces.Keys)
            && |q.g.deps.Keys - Record(head, ifaces).Keys| < |q.g.deps.Keys - ifaces.Keys|
  {
    var wave := Wave(q, ifaces);
    WaveBuildable(q, ifaces);
    NoError(f, q, wave, ifaces, prev);
    OutputsKeyed(f, q, wave, ifaces, prev);
    hide BuildSequence, LeastError, Record, Buildable, Undone, Kept, Sane;
    assert wave[0] in Elems(wave);
    Smaller(q.g.deps.Keys - (ifaces.Keys + Layer(q.g, ifaces.Keys)), q.g.deps.Keys - ifaces.Keys);
  }

  /** An incremental build gives what a clean build gives, errors included. */
  lemma {:induction false} RestSame(f: Versions, q: Request, ifaces: map<Key, Interface>, prev: Live)
    requires Sane(q) && Sound(f, q.names, prev)
    ensures SameOutcome(BuildRest(f, q, ifaces, prev), BuildRest(f, q, ifaces, map[]), q.emit)
    decreases |q.g.deps.Keys - ifaces.Keys|
  {
    hide BuildRest, WaveResult, Sound, Buildable, Sane, Wave, Record, Layer, Join, SameOutputs;
    RestStep(f, q, ifaces, prev);
    RestStep(f, q, ifaces, map[]);
    var wave := Wave(q, ifaces);
    if wave == [] {
      NothingSame(q.emit);
    } else {
      WaveSame(f, q, wave, ifaces, prev);
      var a, b := WaveResult(f, q, wave, ifaces, prev), WaveResult(f, q, wave, ifaces, map[]);
      if a.Ok? {
        RecordSame(a.value, b.value, q.emit, ifaces);
        var next := Record(a.value, ifaces);
        RestSame(f, q, next, prev);
        JoinSame(a.value, b.value, BuildRest(f, q, next, prev), BuildRest(f, q, next, map[]), q.emit);
      }
    }
  }

  lemma NothingSame(emit: Emit)
    ensures SameOutputs([], [], emit)
  {
  }

  lemma JoinSame(a: seq<Output>, b: seq<Output>, restA: Result<seq<Output>>, restB: Result<seq<Output>>, emit: Emit)
    requires SameOutputs(a, b, emit) && SameOutcome(restA, restB, emit)
    ensures SameOutcome(Join(a, restA), Join(b, restB), emit)
  {
  }

  lemma {:induction false} RestGenuine(f: Versions, q: Request, ifaces: map<Key, Interface>, prev: Live)
    requires Sane(q) && Sound(f, q.names, prev) && BuildRest(f, q, ifaces, prev).Ok?
    ensures AllGenuine(f, q, BuildRest(f, q, ifaces, prev).value)
    decreases |q.g.deps.Keys - ifaces.Keys|
  {
    hide BuildRest, BuildSequence, LeastError, Sound, Buildable, Sane, Wave, Genuine, Written, Record, Layer;
    RestStep(f, q, ifaces, prev);
    var wave := Wave(q, ifaces);
    if wave != [] {
      NoError(f, q, wave, ifaces, prev);
      WaveGenuine(f, q, wave, ifaces, prev);
      hide WaveResult;
      RestGenuine(f, q, Record(WaveResult(f, q, wave, ifaces, prev).value, ifaces), prev);
    }
  }

  /** The number of jobs changes neither whether a build succeeds nor what it gives. */
  lemma {:induction false} JobsIrrelevant(f: Versions, q: Request, jobs: nat, ifaces: map<Key, Interface>, prev: Live)
    requires Sane(q)
    ensures Sane(q.(jobs := jobs))
    ensures var a, b := BuildRest(f, q, ifaces, prev), BuildRest(f, q.(jobs := jobs), ifaces, prev);
            if a.Ok? then a == b else b.Err?
    decreases |q.g.deps.Keys - ifaces.Keys|
  {
    var p := q.(jobs := jobs);
    assert Sane(p);
    hide Buildable, Sane, BuildRest, WaveResult, Wave, Record, Layer;
    RestStep(f, q, ifaces, prev);
    RestStep(f, p, ifaces, prev);
    var wave := Wave(q, ifaces);
    assert Wave(p, ifaces) == wave by { SameWave(q, p, ifaces); }
    if wave != [] {
      JobsSameResult(f, q, jobs, wave, ifaces, prev);
      var a := WaveResult(f, q, wave, ifaces, prev);
      if a.Ok? { JobsIrrelevant(f, q, jobs, Record(a.value, ifaces), prev); }
    }
  }

  lemma JobsSameResult(f: Versions, q: Request, jobs: nat, wave: seq<Key>, ifaces: map<Key, Interface>, prev: Live)
    requires Buildable(q, wave, ifaces)
    ensures Buildable(q.(jobs := jobs), wave, ifaces)
    ensures var a, b := WaveResult(f, q, wave, ifaces, prev), WaveResult(f, q.(jobs := jobs), wave, ifaces, prev);
            if a.Ok? then a == b else b.Err?
  {
    JobsSameWave(f, q, jobs, wave, ifaces, prev);
    NoError(f, q, wave, ifaces, prev);
    NoError(f, q.(jobs := jobs), wave, ifaces, prev);
    hide BuildSequence, LeastError;
  }

  lemma SameWave(q: Request, p: Request, ifaces: map<Key, Interface>)
    requires q.g == p.g
    ensures Wave(q, ifaces) == Wave(p, ifaces)
  {
  }

  lemma {:induction false} JobsSameWave(f: Versions, q: Request, jobs: nat, wave: seq<Key>, ifaces: map<Key, Interface>, prev: Live)
    requires Buildable(q, wave, ifaces)
    ensures Buildable(q.(jobs := jobs), wave, ifaces)
    ensures BuildSequence(f, q.(jobs := jobs), wave, ifaces, prev) == BuildSequence(f, q, wave, ifaces, prev)
    decreases |wave|
  {
    if wave != [] {
      JobsSameWave(f, q, jobs, wave[..|wave| - 1], ifaces, prev);
      assert Ready(q, wave[|wave| - 1], ifaces);
    }
  }

  // ----- every module is built -----

  function Final(g: Graph, done: set<Key>): set<Key>
    decreases |g.deps.Keys - done|
  {
    var l := Layer(g, done);
    if l == {} then done else
    assert g.deps.Keys - (done + l) < g.deps.Keys - done by {
      var k :| k in l;
      assert k in g.deps.Keys - done && k !in g.deps.Keys - (done + l);
    }
    Smaller(g.deps.Keys - (done + l), g.deps.Keys - done);
    Final(g, done + l)
  }

  lemma {:induction false} FinalHasLayers(g: Graph, done: set<Key>, n: nat)
    requires n < |Layers(g, done)|
    ensures Layers(g, done)[n] <= Final(g, done) && done <= Final(g, done)
    decreases n
  {
    LayersStep(g, done);
    FinalGrows(g, done + Layer(g, done));
    if n > 0 { FinalHasLayers(g, done + Layer(g, done), n - 1); }
  }

  lemma {:induction false} FinalGrows(g: Graph, done: set<Key>)
    ensures done <= Final(g, done) && (done <= g.deps.Keys ==> Final(g, done) <= g.deps.Keys)
    decreases |g.deps.Keys - done|
  {
    var l := Layer(g, done);
    if l != {} {
      var k :| k in l;
      assert k in g.deps.Keys - done && k !in g.deps.Keys - (done + l);
      Smaller(g.deps.Keys - (done + l), g.deps.Keys - done);
      FinalGrows(g, done + l);
    }
  }

  function Keys(outputs: seq<Output>): set<Key> {
    set i | 0 <= i < |outputs| :: outputs[i].key
  }

  lemma {:induction false} RestKeys(f: Versions, q: Request, ifaces: map<Key, Interface>, prev: Live)
    requires Sane(q) && BuildRest(f, q, ifaces, prev).Ok?
    ensures ifaces.Keys + Keys(BuildRest(f, q, ifaces, prev).value) == Final(q.g, ifaces.Keys)
    decreases |q.g.deps.Keys - ifaces.Keys|
  {
    hide BuildRest, Buildable, Sane, Ascending, Undone, Wave, WaveResult, Record, Layer, Final, Keys, Elems;
    RestStep(f, q, ifaces, prev);
    WaveBuildable(q, ifaces);
    FinalStep(q.g, ifaces.Keys);
    var wave := Wave(q, ifaces);
    NoElems(wave);
    if wave == [] {
      KeysNone();
    } else {
      var head := WaveResult(f, q, wave, ifaces, prev).value;
      ResultKeys(f, q, wave, ifaces, prev);
      RestKeys(f, q, Record(head, ifaces), prev);
      var tail := BuildRest(f, q, Record(head, ifaces), prev).value;
      KeysAppend(head, tail);
      Union3(ifaces.Keys, Elems(wave), Keys(tail));
    }
  }

  lemma Union3(a: set<Key>, b: set<Key>, c: set<Key>)
    ensures a + (b + c) == (a + b) + c
  {
  }

  lemma ResultKeys(f: Versions, q: Request, wave: seq<Key>, ifaces: map<Key, Interface>, prev: Live)
    requires Buildable(q, wave, ifaces) && WaveResult(f, q, wave, ifaces, prev).Ok?
    ensures Keys(WaveResult(f, q, wave, ifaces, prev).value) == Elems(wave)
  {
    NoError(f, q, wave, ifaces, prev);
    OutputsKeyed(f, q, wave, ifaces, prev);
    hide BuildSequence, LeastError, Buildable;
    WaveKeys(WaveResult(f, q, wave, ifaces, prev).value, wave);
  }

  lemma NoElems(s: seq<Key>)
    ensures s == [] <==> Elems(s) == {}
  {
    if s != [] { assert s[0] in Elems(s); }
  }

  lemma KeysNone()
    ensures Keys([]) == {}
  {
  }

  lemma FinalStep(g: Graph, done: set<Key>)
    ensures Final(g, done) == if Layer(g, done) == {} then done else Final(g, done + Layer(g, done))
  {
  }

  lemma WaveKeys(outputs: seq<Output>, wave: seq<Key>)
    requires |outputs| == |wave| && forall i :: 0 <= i < |wave| ==> outputs[i].key == wave[i]
    ensures Keys(outputs) == Elems(wave)
  {
    forall k | k in Elems(wave) ensures k in Keys(outputs) {
      var i :| 0 <= i < |wave| && wave[i] == k;
      assert outputs[i].key == k;
    }
  }

  lemma KeysAppend(a: seq<Output>, b: seq<Output>)
    ensures Keys(a + b) == Keys(a) + Keys(b)
  {
    var c := a + b;
    forall k | k in Keys(a) ensures k in Keys(c) { var i :| 0 <= i < |a| && a[i].key == k; assert c[i].key == k; }
    forall k | k in Keys(b) ensures k in Keys(c) { var i :| 0 <= i < |b| && b[i].key == k; assert c[|a| + i].key == k; }
  }

  /** A build that succeeds on an acyclic graph has an output for every module. */
  lemma EveryModuleBuilt(f: Versions, q: Request, prev: Live)
    requires Sane(q) && Acyclic(q.g) && BuildRest(f, q, map[], prev).Ok?
    ensures Keys(BuildRest(f, q, map[], prev).value) == q.g.deps.Keys
  {
    hide BuildRest, Layers, Final;
    var none: map<Key, Interface> := map[];
    RestKeys(f, q, none, prev);
    assert none.Keys == {};
    FinalGrows(q.g, {});
    forall k | k in q.g.deps ensures k in Final(q.g, {}) {
      if ReachesCycle(q.g, k) {
        var p, i :| LoopsBack(q.g, k, p, i);
        LoopIsCycle(q.g, k, p, i);
      }
      LeftOutExactly(q.g, k);
      var n :| 0 <= n < |Layers(q.g, {})| && k in Layers(q.g, {})[n];
      FinalHasLayers(q.g, {}, n);
    }
  }

  // ----- the build directory -----

  /** The files of a successful build; nothing of the build before is kept beside them. */
  function NewLive(outputs: seq<Output>, emit: Emit): Live {
    if outputs == [] then map[] else
    var last := outputs[|outputs| - 1];
    NewLive(outputs[..|outputs| - 1], emit)[last.key := Written(last, emit)]
  }

  lemma {:induction false} NewLiveSame(a: seq<Output>, b: seq<Output>, emit: Emit)
    requires SameOutputs(a, b, emit)
    ensures NewLive(a, emit) == NewLive(b, emit)
    decreases |a|
  {
    if a != [] { NewLiveSame(a[..|a| - 1], b[..|b| - 1], emit); }
  }

  lemma {:induction false} NewLiveSound(f: Versions, q: Request, outputs: seq<Output>)
    requires AllGenuine(f, q, outputs)
    ensures Sound(f, q.names, NewLive(outputs, q.emit))
    decreases |outputs|
  {
    hide Genuine, Written;
    if outputs != [] {
      assert AllGenuine(f, q, outputs[..|outputs| - 1]);
      NewLiveSound(f, q, outputs[..|outputs| - 1]);
    }
  }

  datatype Report = Cyclic(cycle: seq<Key>) | Failed(error: nat) | Done(outputs: seq<Output>)

  /** What a build starts from. */
  function Base(q: Request, live: Live): Live {
    if q.clean then map[] else live
  }

  ghost predicate Succeeds(f: Versions, q: Request, live: Live)
    requires Sane(q)
  {
    Acyclic(q.g) && BuildRest(f, q, map[], Base(q, live)).Ok?
  }

  ghost function NextLive(f: Versions, q: Request, live: Live): Live
    requires Sane(q)
  {
    if Succeeds(f, q, live) then NewLive(BuildRest(f, q, map[], Base(q, live)).value, q.emit) else Base(q, live)
  }

  ghost predicate Reports(f: Versions, q: Request, live: Live, r: Report)
    requires Sane(q)
  {
    match r
    case Cyclic(cycle) => Cycle(q.g, cycle)
    case Failed(e) => Acyclic(q.g) && BuildRest(f, q, map[], Base(q, live)) == Err(e)
    case Done(outputs) => Acyclic(q.g) && BuildRest(f, q, map[], Base(q, live)) == Ok(outputs)
  }

  class BuildDirectory {
    var live: Live

    constructor ()
      ensures live == map[]
    {
      live := map[];
    }

    /** The command: cycle check, waves, one wave after the other, and the new files put in place
        only when all of it has succeeded. */
    method CmdBuild(f: Versions, q: Request) returns (r: Report)
      requires Sane(q)
      modifies this
      ensures Reports(f, q, old(live), r)
      ensures live == NextLive(f, q, old(live))
    {
      hide BuildRest, NewLive;
      if q.clean {
        live := map[];
      }
      var sorted := TopologicalOrder(q.g);
      if sorted.Loop? {
        return Cyclic(sorted.cycle);
      }
      var built := BuildAll(f, q, live);
      if built.Err? {
        return Failed(built.error);
      }
      live := Files(built.value, q.emit);
      r := Done(built.value);
    }
  }

  method BuildAll(f: Versions, q: Request, prev: Live) returns (r: Result<seq<Output>>)
    requires Sane(q)
    ensures r == BuildRest(f, q, map[], prev)
  {
    hide BuildRest, WaveResult, Layers, Layer, Wave, Waves, Record, Buildable, Ascending, Sane, WellFormed, Closed;
    SaneGraph(q);
    var waves := ReadyWaves(q.g);
    var ifaces: map<Key, Interface> := map[];
    assert ifaces.Keys == {};
    var outputs: seq<Output> := [];
    var i := 0;
    assert waves[0..] == waves;
    ghost var whole := BuildRest(f, q, ifaces, prev);
    assert whole == Join([], whole) by { if whole.Ok? { assert [] + whole.value == whole.value; } }
    while i < |waves|
      invariant 0 <= i <= |waves| && Waves(waves[i..], Layers(q.g, ifaces.Keys))
      invariant whole == Join(outputs, BuildRest(f, q, ifaces, prev))
    {
      assert waves[i..][0] == waves[i] && waves[i..][1..] == waves[i + 1..];
      WavesRest(f, q, waves[i..], ifaces, prev);
      var built := BuildWave(f, q, waves[i], ifaces, prev);
      if built.Err? {
        return built;
      }
      JoinTwice(outputs, built.value, BuildRest(f, q, Record(built.value, ifaces), prev));
      ifaces := Keep(built.value, ifaces);
      outputs := outputs + built.value;
      i := i + 1;
    }
    WavesRest(f, q, waves[i..], ifaces, prev);
    assert outputs + [] == outputs;
    r := Ok(outputs);
  }

  lemma JoinTwice(a: seq<Output>, b: seq<Output>, rest: Result<seq<Output>>)
    ensures Join(a, Join(b, rest)) == Join(a + b, rest)
  {
    if rest.Ok? { assert a + (b + rest.value) == (a + b) + rest.value; }
  }

  lemma SaneGraph(q: Request)
    requires Sane(q)
    ensures WellFormed(q.g) && Closed(q.g)
  {
  }

  /** The first of the remaining waves is the next wave. */
  lemma WavesStep(q: Request, waves: seq<seq<Key>>, ifaces: map<Key, Interface>)
    requires Sane(q) && Waves(waves, Layers(q.g, ifaces.Keys))
    ensures waves == [] <==> Wave(q, ifaces) == []
    ensures waves != [] ==> waves[0] == Wave(q, ifaces) && Waves(waves[1..], Layers(q.g, ifaces.Keys + Layer(q.g, ifaces.Keys)))
  {
    hide Layers, Layer, Ascending, Sane;
    LayersStep(q.g, ifaces.Keys);
    WaveBuildable(q, ifaces);
    var wave := Wave(q, ifaces);
    if wave != [] { assert wave[0] in Elems(wave); }
    if waves != [] { OneListing(waves[0], wave); }
  }

  lemma WavesRest(f: Versions, q: Request, waves: seq<seq<Key>>, ifaces: map<Key, Interface>, prev: Live)
    requires Sane(q) && Waves(waves, Layers(q.g, ifaces.Keys))
    ensures waves == [] ==> BuildRest(f, q, ifaces, prev) == Ok([])
    ensures waves != [] ==>
              && Buildable(q, waves[0], ifaces) && Ascending(waves[0])
              && var head := WaveResult(f, q, waves[0], ifaces, prev);
                 if head.Err? then BuildRest(f, q, ifaces, prev) == head
                 else Waves(waves[1..], Layers(q.g, Record(head.value, ifaces).Keys))
                      && BuildRest(f, q, ifaces, prev) == Join(head.value, BuildRest(f, q, Record(head.value, ifaces), prev))
  {
    hide BuildRest, WaveResult, Layers, Layer, Wave, Waves, Record, Buildable, Ascending, Sane, Join;
    WavesStep(q, waves, ifaces);
    RestStep(f, q, ifaces, prev);
    WaveBuildable(q, ifaces);
  }

  /** An ascending sequence is determined by its elements. */
  lemma {:induction false} OneListing(a: seq<Key>, b: seq<Key>)
    requires Ascending(a) && Ascending(b) && Elems(a) == Elems(b)
    ensures a == b
    decreases |a|
  {
    assert b != [] ==> b[0] in Elems(b);
    assert a != [] ==> a[0] in Elems(a);
    if a != [] {
      TailAscends(a);
      TailAscends(b);
      hide Ascending;
      assert a == [a[0]] + a[1..] && b == [b[0]] + b[1..];
      assert a[0] !in Elems(a[1..]) && b[0] !in Elems(b[1..]);
      assert a[0] == b[0];
      assert Elems(a[1..]) == Elems(b[1..]);
      OneListing(a[1..], b[1..]);
    }
  }

  method Keep(outputs: seq<Output>, was: map<Key, Interface>) returns (ifaces: map<Key, Interface>)
    ensures ifaces == Record(outputs, was)
  {
    ifaces := was;
    var i := 0;
    while i < |outputs|
      invariant 0 <= i <= |outputs| && ifaces == Record(outputs[..i], was)
    {
      assert outputs[..i + 1][..i] == outputs[..i];
      ifaces := ifaces[outputs[i].key := outputs[i].iface];
      i := i + 1;
    }
    assert outputs[..i] == outputs;
  }

  method Files(outputs: seq<Output>, emit: Emit) returns (live: Live)
    ensures live == NewLive(outputs, emit)
  {
    live := map[];
    var i := 0;
    while i < |outputs|
      invariant 0 <= i <= |outputs| && live == NewLive(outputs[..i], emit)
    {
      assert outputs[..i + 1][..i] == outputs[..i];
      live := live[outputs[i].key := Written(outputs[i], emit)];
      i := i + 1;
    }
    assert outputs[..i] == outputs;
  }

  // ----- runs of builds -----

  /** Import names resolved the same way. */
  ghost predicate SameNames(f: Versions, a: Key -> Names, b: Key -> Names) {
    forall v, k, s, d :: f(v).imports(a(k), k, s, d) == f(v).imports(b(k), k, s, d)
  }

  lemma SoundCarries(f: Versions, a: Key -> Names, b: Key -> Names, live: Live)
    requires Sound(f, a, live) && SameNames(f, a, b)
    ensures Sound(f, b, live)
  {
  }

  /** The directory after a sequence of build commands, of any compiler versions, graphs, sources
      and options, some of which may fail. */
  ghost function LiveAfter(f: Versions, qs: seq<Request>): Live
    requires forall i :: 0 <= i < |qs| ==> Sane(qs[i])
  {
    if qs == [] then map[] else NextLive(f, qs[|qs| - 1], LiveAfter(f, qs[..|qs| - 1]))
  }

  lemma {:induction false} LiveIsSound(f: Versions, qs: seq<Request>, names: Key -> Names)
    requires forall i :: 0 <= i < |qs| ==> Sane(qs[i]) && SameNames(f, qs[i].names, names)
    ensures Sound(f, names, LiveAfter(f, qs))
    decreases |qs|
  {
    hide Genuine, Sane;
    if qs != [] {
      var q, live := qs[|qs| - 1], LiveAfter(f, qs[..|qs| - 1]);
      LiveIsSound(f, qs[..|qs| - 1], names);
      SoundCarries(f, names, q.names, live);
      assert Sound(f, q.names, Base(q, live));
      if Succeeds(f, q, live) {
        RestGenuine(f, q, map[], Base(q, live));
        NewLiveSound(f, q, BuildRest(f, q, map[], Base(q, live)).value);
      }
      SoundCarries(f, q.names, names, NextLive(f, q, live));
    }
  }

  /** After any sequence of builds, the next build reports and leaves behind what a build in an
      empty directory would. */
  lemma EveryBuildIsClean(f: Versions, qs: seq<Request>, q: Request)
    requires Sane(q) && forall i :: 0 <= i < |qs| ==> Sane(qs[i]) && SameNames(f, qs[i].names, q.names)
    ensures var live := LiveAfter(f, qs);
            && (Succeeds(f, q, live) <==> Succeeds(f, q, map[]))
            && SameOutcome(BuildRest(f, q, map[], Base(q, live)), BuildRest(f, q, map[], map[]), q.emit)
            && (Succeeds(f, q, live) ==> NextLive(f, q, live) == NextLive(f, q, map[]))
  {
    hide BuildRest, Sane, Sound;
    var live := LiveAfter(f, qs);
    LiveIsSound(f, qs, q.names);
    SoundCarries(f, q.names, q.names, live);
    assert Sound(f, q.names, map[]) by { NewLiveSound(f, q, []); }
    RestSame(f, q, map[], Base(q, live));
    if Succeeds(f, q, live) {
      NewLiveSame(BuildRest(f, q, map[], Base(q, live)).value, BuildRest(f, q, map[], map[]).value, q.emit);
    }
  }

  /** Two dependencies whose names are exchanged: the digests stay the same, in the same order. */
  lemma NamesMatter(f: Versions, q: Request, ifaces: map<Key, Interface>)
    requires q.g == Graph([0, 1, 2], map[0 := [], 1 := [], 2 := [0, 1]]) && q.sources == map[0 := 0, 1 := 0, 2 := 0]
    requires q.emit == EmitAll && 0 in ifaces && 1 in ifaces
    requires var (c, d) := (f(q.version), [ifaces[0].digest, ifaces[1].digest]);
             && c.imports(0, 2, 0, d) == Ok([0]) && c.imports(1, 2, 0, d) == Ok([1])
             && c.exports(0, [0]) == Ok(0) && c.exports(0, [1]) == Ok(0)
             && c.compile(0, [0]) == Ok([0]) && c.compile(0, [1]) == Ok([1]) && c.encode([0]) == Ok([0]) && c.encode([1]) == Ok([1])
    ensures var first, second := BuildOne(f, q.(names := (k: Key) => 0), 2, ifaces, map[]), q.(names := (k: Key) => 1);
            && first.Ok?
            && var kept := BuildOne(f, second, 2, ifaces, map[2 := Written(first.value, EmitAll)]);
               var clean := BuildOne(f, second, 2, ifaces, map[]);
               kept.Ok? && clean.Ok? && kept.value.bytecode == Some([0]) && clean.value.bytecode == Some([1])
  {
    assert DepDigests([0, 1], ifaces) == [ifaces[0].digest, ifaces[1].digest];
  }

  /** The same for a build of interfaces only: the kept one has the exports of the old names. */
  lemma NamesMatterForInterfaces(f: Versions, q: Request, ifaces: map<Key, Interface>)
    requires q.g == Graph([0, 1, 2], map[0 := [], 1 := [], 2 := [0, 1]]) && q.sources == map[0 := 0, 1 := 0, 2 := 0]
    requires q.emit == EmitInterface && 0 in ifaces && 1 in ifaces
    requires var (c, d) := (f(q.version), [ifaces[0].digest, ifaces[1].digest]);
             && c.imports(0, 2, 0, d) == Ok([0]) && c.imports(1, 2, 0, d) == Ok([1])
             && c.exports(0, [0]) == Ok(0) && c.exports(0, [1]) == Ok(1) && c.compile(0, [0]).Ok? && c.compile(0, [1]).Ok?
    ensures var first, second := BuildOne(f, q.(names := (k: Key) => 0), 2, ifaces, map[]), q.(names := (k: Key) => 1);
            && first.Ok?
            && var kept := BuildOne(f, second, 2, ifaces, map[2 := Written(first.value, EmitInterface)]);
               var clean := BuildOne(f, second, 2, ifaces, map[]);
               kept.Ok? && clean.Ok? && kept.value.iface.exports == 0 && clean.value.iface.exports == 1
               && kept.value.iface.build == clean.value.iface.build
  {
    assert DepDigests([0, 1], ifaces) == [ifaces[0].digest, ifaces[1].digest];
  }
}
