/** Which builds are clean, said by what import names stood for when each kept module was compiled. */
module ImportNames {
  import opened Wrappers
  import opened ModuleGraph
  import opened ModuleWaves
  import opened IncrementalBuild

  // ----- what the names stood for when a kept module was compiled -----

  type Log = Key -> Names

  /** A module that is taken over keeps the names it was compiled with. */
  function NamesOf(q: Request, log: Log, o: Output): Names {
    if o.hit then log(o.key) else q.names(o.key)
  }

  function NewLog(q: Request, log: Log, outputs: seq<Output>): Log {
    if outputs == [] then log else
    var last := outputs[|outputs| - 1];
    var before := NewLog(q, log, outputs[..|outputs| - 1]);
    (k: Key) => if k == last.key then NamesOf(q, log, last) else before(k)
  }

  ghost function NextLog(f: Versions, q: Request, live: Live, log: Log): Log
    requires Sane(q)
  {
    if Succeeds(f, q, live) then NewLog(q, log, BuildRest(f, q, map[], Base(q, live)).value) else log
  }

  /** Beside `LiveAfter`: for each kept module the names of the build that compiled it. */
  ghost function LogAfter(f: Versions, qs: seq<Request>): Log
    requires forall i :: 0 <= i < |qs| ==> Sane(qs[i])
  {
    if qs == [] then (k: Key) => 0 else
    NextLog(f, qs[|qs| - 1], LiveAfter(f, qs[..|qs| - 1]), LogAfter(f, qs[..|qs| - 1]))
  }

  // ----- every kept module is what it was compiled to, whatever has happened to the names since -----

  ghost predicate OutputsSound(f: Versions, q: Request, log: Log, outputs: seq<Output>) {
    forall i :: 0 <= i < |outputs| ==> Genuine(f, NamesOf(q, log, outputs[i]), outputs[i].key, Written(outputs[i], q.emit))
  }

  lemma OneKept(f: Versions, q: Request, k: Key, ifaces: map<Key, Interface>, prev: Live, log: Log)
    requires Ready(q, k, ifaces) && Sound(f, log, prev) && BuildOne(f, q, k, ifaces, prev).Ok?
    ensures var o := BuildOne(f, q, k, ifaces, prev).value;
            o.key == k && Genuine(f, NamesOf(q, log, o), k, Written(o, q.emit))
  {
    if k in prev { assert Genuine(f, log(k), k, prev[k]); }
  }

  lemma {:induction false} WaveKept(f: Versions, q: Request, wave: seq<Key>, ifaces: map<Key, Interface>, prev: Live, log: Log)
    requires Buildable(q, wave, ifaces) && Sound(f, log, prev) && BuildSequence(f, q, wave, ifaces, prev).Ok?
    ensures OutputsSound(f, q, log, BuildSequence(f, q, wave, ifaces, prev).value)
    decreases |wave|
  {
    hide BuildOne, Ready, Sound, Genuine, Written, NamesOf;
    if wave != [] {
      WaveKept(f, q, wave[..|wave| - 1], ifaces, prev, log);
      OneKept(f, q, wave[|wave| - 1], ifaces, prev, log);
    }
  }

  lemma {:induction false} RestKept(f: Versions, q: Request, ifaces: map<Key, Interface>, prev: Live, log: Log)
    requires Sane(q) && Sound(f, log, prev) && BuildRest(f, q, ifaces, prev).Ok?
    ensures OutputsSound(f, q, log, BuildRest(f, q, ifaces, prev).value)
    decreases |q.g.deps.Keys - ifaces.Keys|
  {
    hide BuildRest, BuildSequence, LeastError, Sound, Buildable, Sane, Wave, Genuine, Written, Record, Layer, NamesOf;
    RestStep(f, q, ifaces, prev);
    var wave := Wave(q, ifaces);
    if wave != [] {
      NoError(f, q, wave, ifaces, prev);
      WaveKept(f, q, wave, ifaces, prev, log);
      hide WaveResult;
      RestKept(f, q, Record(WaveResult(f, q, wave, ifaces, prev).value, ifaces), prev, log);
    }
  }

  lemma {:induction false} NewLiveKept(f: Versions, q: Request, log: Log, outputs: seq<Output>)
    requires OutputsSound(f, q, log, outputs)
    ensures forall k :: k in NewLive(outputs, q.emit) ==> Genuine(f, NewLog(q, log, outputs)(k), k, NewLive(outputs, q.emit)[k])
    decreases |outputs|
  {
    hide Genuine, Written, NamesOf;
    if outputs != [] {
      var front := outputs[..|outputs| - 1];
      assert OutputsSound(f, q, log, front);
      NewLiveKept(f, q, log, front);
    }
  }

  /** After any history at all, each kept file is what its recorded inputs compiled to under the names of
      the build that compiled it. */
  lemma {:induction false} LiveIsKept(f: Versions, qs: seq<Request>)
    requires forall i :: 0 <= i < |qs| ==> Sane(qs[i])
    ensures Sound(f, LogAfter(f, qs), LiveAfter(f, qs))
    decreases |qs|
  {
    hide Genuine, Sane, BuildRest, NewLive, NewLog;
    if qs != [] {
      var q, before := qs[|qs| - 1], qs[..|qs| - 1];
      LiveIsKept(f, before);
      var live, log := LiveAfter(f, before), LogAfter(f, before);
      assert Sound(f, log, Base(q, live));
      if Succeeds(f, q, live) {
        RestKept(f, q, map[], Base(q, live), log);
        NewLiveKept(f, q, log, BuildRest(f, q, map[], Base(q, live)).value);
      }
    }
  }

  // ----- a build that takes over only modules whose names still stand for the same is clean -----

  /** The names of every module taken over stand for what they stood for when it was compiled. */
  predicate NamesKept(q: Request, log: Log, outputs: seq<Output>) {
    forall i :: 0 <= i < |outputs| && outputs[i].hit ==> log(outputs[i].key) == q.names(outputs[i].key)
  }

  /** The directory without the modules whose names have changed. */
  function Unchanged(q: Request, log: Log, prev: Live): Live {
    map k | k in prev && log(k) == q.names(k) :: prev[k]
  }

  lemma OneUnchanged(f: Versions, q: Request, k: Key, ifaces: map<Key, Interface>, prev: Live, log: Log)
    requires Ready(q, k, ifaces) && BuildOne(f, q, k, ifaces, prev).Ok?
    requires BuildOne(f, q, k, ifaces, prev).value.hit ==> log(k) == q.names(k)
    ensures BuildOne(f, q, k, ifaces, Unchanged(q, log, prev)) == BuildOne(f, q, k, ifaces, prev)
  {
  }

  lemma {:induction false} WaveUnchanged(f: Versions, q: Request, wave: seq<Key>, ifaces: map<Key, Interface>, prev: Live, log: Log)
    requires Buildable(q, wave, ifaces) && BuildSequence(f, q, wave, ifaces, prev).Ok?
    requires NamesKept(q, log, BuildSequence(f, q, wave, ifaces, prev).value)
    ensures BuildSequence(f, q, wave, ifaces, Unchanged(q, log, prev)) == BuildSequence(f, q, wave, ifaces, prev)
    decreases |wave|
  {
    hide BuildOne, Ready, Unchanged;
    if wave != [] {
      var front, k := wave[..|wave| - 1], wave[|wave| - 1];
      var first, last := BuildSequence(f, q, front, ifaces, prev).value, BuildOne(f, q, k, ifaces, prev).value;
      var all := first + [last];
      assert k in wave;
      OneKeyed(f, q, k, ifaces, prev);
      assert forall i :: 0 <= i < |first| ==> all[i] == first[i];
      assert all[|first|] == last;
      WaveUnchanged(f, q, front, ifaces, prev, log);
      OneUnchanged(f, q, k, ifaces, prev, log);
    }
  }

  lemma ResultUnchanged(f: Versions, q: Request, wave: seq<Key>, ifaces: map<Key, Interface>, prev: Live, log: Log)
    requires Buildable(q, wave, ifaces) && WaveResult(f, q, wave, ifaces, prev).Ok?
    requires NamesKept(q, log, WaveResult(f, q, wave, ifaces, prev).value)
    ensures WaveResult(f, q, wave, ifaces, Unchanged(q, log, prev)) == WaveResult(f, q, wave, ifaces, prev)
  {
    hide BuildSequence, LeastError, Unchanged;
    NoError(f, q, wave, ifaces, prev);
    WaveUnchanged(f, q, wave, ifaces, prev, log);
    NoError(f, q, wave, ifaces, Unchanged(q, log, prev));
  }

  lemma KeptParts(q: Request, log: Log, a: seq<Output>, b: seq<Output>)
    requires NamesKept(q, log, a + b)
    ensures NamesKept(q, log, a) && NamesKept(q, log, b)
  {
    assert forall i :: 0 <= i < |a| ==> (a + b)[i] == a[i];
    assert forall i :: 0 <= i < |b| ==> (a + b)[|a| + i] == b[i];
  }

  lemma {:induction false} RestUnchanged(f: Versions, q: Request, ifaces: map<Key, Interface>, prev: Live, log: Log)
    requires Sane(q) && BuildRest(f, q, ifaces, prev).Ok? && NamesKept(q, log, BuildRest(f, q, ifaces, prev).value)
    ensures BuildRest(f, q, ifaces, Unchanged(q, log, prev)) == BuildRest(f, q, ifaces, prev)
    decreases |q.g.deps.Keys - ifaces.Keys|
  {
    hide BuildRest, WaveResult, Buildable, Sane, Wave, Record, Layer, Unchanged, NamesKept;
    RestStep(f, q, ifaces, prev);
    RestStep(f, q, ifaces, Unchanged(q, log, prev));
    var wave := Wave(q, ifaces);
    if wave != [] {
      var head := WaveResult(f, q, wave, ifaces, prev).value;
      var tail := BuildRest(f, q, Record(head, ifaces), prev).value;
      KeptParts(q, log, head, tail);
      ResultUnchanged(f, q, wave, ifaces, prev, log);
      RestUnchanged(f, q, Record(head, ifaces), prev, log);
    }
  }

  /** The build succeeds in an empty directory too, with the same outputs, and leaves the same files. */
  ghost predicate Clean(f: Versions, q: Request, live: Live)
    requires Sane(q)
  {
    && Succeeds(f, q, map[])
    && SameOutcome(BuildRest(f, q, map[], Base(q, live)), BuildRest(f, q, map[], map[]), q.emit)
    && NextLive(f, q, live) == NextLive(f, q, map[])
  }

  /** The build takes over no module whose names have changed their meaning. */
  ghost predicate TakesOverKept(f: Versions, q: Request, live: Live, log: Log)
    requires Sane(q)
  {
    Succeeds(f, q, live) ==> NamesKept(q, log, BuildRest(f, q, map[], Base(q, live)).value)
  }

  /** For any one compiler: a build that takes over only modules whose names are unchanged is clean. */
  lemma KeptNamesClean(f: Versions, qs: seq<Request>, q: Request)
    requires Sane(q) && forall i :: 0 <= i < |qs| ==> Sane(qs[i])
    requires Succeeds(f, q, LiveAfter(f, qs)) && TakesOverKept(f, q, LiveAfter(f, qs), LogAfter(f, qs))
    ensures Clean(f, q, LiveAfter(f, qs))
  {
    var live, log := LiveAfter(f, qs), LogAfter(f, qs);
    LiveIsKept(f, qs);
    var prev := Base(q, live);
    var same := Unchanged(q, log, prev);
    assert Sound(f, q.names, same) by { hide Genuine; assert forall k :: k in same ==> Genuine(f, log(k), k, prev[k]); }
    hide BuildRest, Sound, Sane, NewLive, Unchanged;
    RestUnchanged(f, q, map[], prev, log);
    RestSame(f, q, map[], same);
    NewLiveSame(BuildRest(f, q, map[], same).value, BuildRest(f, q, map[], map[]).value, q.emit);
  }

  // ----- a compiler whose bytecode tells the names it was compiled with -----

  /** The same interfaces and errors as `c`, but the names go into the bytecode. */
  function Telling(c: Compiler): Compiler {
    Compiler(
      (n: Names, k: Key, s: Source, d: seq<InterfaceDigest>) =>
        match c.imports(n, k, s, d) case Ok(x) => Ok([n] + x) case Err(e) => Err(e),
      (s: Source, x: Imports) => c.exports(s, if x == [] then [] else x[1..]),
      (s: Source, x: Imports) =>
        if x == [] then Err(0) else match c.compile(s, x[1..]) case Ok(y) => Ok([x[0]] + y) case Err(e) => Err(e),
      (y: Compiled) =>
        if y == [] then Err(0) else match c.encode(y[1..]) case Ok(z) => Ok([y[0]] + z) case Err(e) => Err(e),
      c.importNames)
  }

  function AllTelling(f: Versions): Versions {
    (v: nat) => Telling(f(v))
  }

  function Tagged(n: Names, bytes: Option<Bytes>): Option<Bytes> {
    if bytes.Some? then Some([n] + bytes.value) else None
  }

  function TagLive(log: Log, live: Live): Live {
    map k | k in live :: live[k].(bytecode := Tagged(log(k), live[k].bytecode))
  }

  function TagOutput(q: Request, log: Log, o: Output): Output {
    o.(bytecode := Tagged(NamesOf(q, log, o), o.bytecode))
  }

  function TagAll(q: Request, log: Log, s: seq<Output>): (r: seq<Output>)
    ensures |r| == |s| && forall i :: 0 <= i < |s| ==> r[i] == TagOutput(q, log, s[i])
  {
    seq(|s|, i requires 0 <= i < |s| => TagOutput(q, log, s[i]))
  }

  function TagResult(q: Request, log: Log, r: Result<seq<Output>>): Result<seq<Output>> {
    if r.Ok? then Ok(TagAll(q, log, r.value)) else r
  }

  lemma OneTold(f: Versions, q: Request, k: Key, ifaces: map<Key, Interface>, prev: Live, log: Log)
    requires Ready(q, k, ifaces)
    ensures var a, b := BuildOne(f, q, k, ifaces, prev), BuildOne(AllTelling(f), q, k, ifaces, TagLive(log, prev));
            b == if a.Ok? then Ok(TagOutput(q, log, a.value)) else Err(a.error)
  {
    var c, d := f(q.version), DepDigests(q.g.deps[k], ifaces);
    var imports := c.imports(q.names(k), k, q.sources[k], d);
    if imports.Ok? {
      assert ([q.names(k)] + imports.value)[1..] == imports.value;
      var compiled := c.compile(q.sources[k], imports.value);
      if compiled.Ok? { assert ([q.names(k)] + compiled.value)[1..] == compiled.value; }
    }
  }

  lemma {:induction false} WaveTold(f: Versions, q: Request, wave: seq<Key>, ifaces: map<Key, Interface>, prev: Live, log: Log)
    requires Buildable(q, wave, ifaces)
    ensures BuildSequence(AllTelling(f), q, wave, ifaces, TagLive(log, prev)) == TagResult(q, log, BuildSequence(f, q, wave, ifaces, prev))
    ensures LeastError(AllTelling(f), q, wave, ifaces, TagLive(log, prev)) == LeastError(f, q, wave, ifaces, prev)
    decreases |wave|
  {
    hide BuildOne, Ready, TagOutput, AllTelling, TagLive;
    assert TagAll(q, log, []) == [];
    if wave != [] {
      var front, k := wave[..|wave| - 1], wave[|wave| - 1];
      assert k in wave;
      WaveTold(f, q, front, ifaces, prev, log);
      OneTold(f, q, k, ifaces, prev, log);
      var a, b := BuildSequence(f, q, front, ifaces, prev), BuildOne(f, q, k, ifaces, prev);
      if a.Ok? && b.Ok? {
        TagAppend(q, log, a.value, [b.value]);
        assert TagAll(q, log, [b.value]) == [TagOutput(q, log, b.value)];
      }
    }
  }

  lemma TagAppend(q: Request, log: Log, a: seq<Output>, b: seq<Output>)
    ensures TagAll(q, log, a + b) == TagAll(q, log, a) + TagAll(q, log, b)
  {
  }

  lemma {:induction false} RecordTold(q: Request, log: Log, s: seq<Output>, ifaces: map<Key, Interface>)
    ensures Record(TagAll(q, log, s), ifaces) == Record(s, ifaces)
    decreases |s|
  {
    if s != [] {
      RecordTold(q, log, s[..|s| - 1], ifaces);
      assert TagAll(q, log, s)[..|s| - 1] == TagAll(q, log, s[..|s| - 1]);
    }
  }

  lemma ResultTold(f: Versions, q: Request, wave: seq<Key>, ifaces: map<Key, Interface>, prev: Live, log: Log)
    requires Buildable(q, wave, ifaces)
    ensures WaveResult(AllTelling(f), q, wave, ifaces, TagLive(log, prev)) == TagResult(q, log, WaveResult(f, q, wave, ifaces, prev))
  {
    hide BuildSequence, LeastError, TagAll, AllTelling, TagLive;
    WaveTold(f, q, wave, ifaces, prev, log);
  }

  lemma {:induction false} RestTold(f: Versions, q: Request, ifaces: map<Key, Interface>, prev: Live, log: Log)
    requires Sane(q)
    ensures BuildRest(AllTelling(f), q, ifaces, TagLive(log, prev)) == TagResult(q, log, BuildRest(f, q, ifaces, prev))
    decreases |q.g.deps.Keys - ifaces.Keys|
  {
    hide BuildRest, WaveResult, Buildable, Sane, Wave, Record, Layer, TagAll, AllTelling, TagLive;
    RestStep(f, q, ifaces, prev);
    RestStep(AllTelling(f), q, ifaces, TagLive(log, prev));
    var wave := Wave(q, ifaces);
    if wave == [] {
      assert |TagAll(q, log, [])| == 0;
    } else {
      var head := WaveResult(f, q, wave, ifaces, prev);
      ResultTold(f, q, wave, ifaces, prev, log);
      if head.Ok? {
        RecordTold(q, log, head.value, ifaces);
        RestTold(f, q, Record(head.value, ifaces), prev, log);
        var tail := BuildRest(f, q, Record(head.value, ifaces), prev);
        if tail.Ok? { TagAppend(q, log, head.value, tail.value); }
      }
    }
  }

  lemma SameKey(q: Request, log: Log, o: Output)
    ensures TagOutput(q, log, o).key == o.key
  {
  }

  lemma WrittenTold(q: Request, log: Log, o: Output, before: Log, live: Live, after: Log)
    requires after(o.key) == NamesOf(q, log, o) && forall k :: k != o.key ==> after(k) == before(k)
    ensures TagLive(before, live)[o.key := Written(TagOutput(q, log, o), q.emit)] == TagLive(after, live[o.key := Written(o, q.emit)])
  {
  }

  lemma {:induction false} NewLiveTold(q: Request, log: Log, s: seq<Output>)
    ensures NewLive(TagAll(q, log, s), q.emit) == TagLive(NewLog(q, log, s), NewLive(s, q.emit))
    decreases |s|
  {
    hide Written, TagLive, TagOutput, NamesOf;
    if s == [] {
      BaseTold(q, log, map[]);
    } else {
      var front, last := s[..|s| - 1], s[|s| - 1];
      NewLiveTold(q, log, front);
      assert TagAll(q, log, s)[..|s| - 1] == TagAll(q, log, front);
      WrittenTold(q, log, last, NewLog(q, log, front), NewLive(front, q.emit), NewLog(q, log, s));
      assert NewLive(TagAll(q, log, s), q.emit) == NewLive(TagAll(q, log, front), q.emit)[last.key := Written(TagOutput(q, log, last), q.emit)] by {
        assert TagAll(q, log, s)[|s| - 1] == TagOutput(q, log, last) && TagOutput(q, log, last).key == last.key by { hide NewLive; SameKey(q, log, last); }
      }
    }
  }

  /** The telling compiler has had the same history, with the names in its bytecode. */
  lemma {:induction false} HistoryTold(f: Versions, qs: seq<Request>)
    requires forall i :: 0 <= i < |qs| ==> Sane(qs[i])
    ensures LiveAfter(AllTelling(f), qs) == TagLive(LogAfter(f, qs), LiveAfter(f, qs))
    decreases |qs|
  {
    hide BuildRest, NewLive, NewLog, Sane, AllTelling, TagAll;
    if qs != [] {
      var q, before := qs[|qs| - 1], qs[..|qs| - 1];
      HistoryTold(f, before);
      var live, log := LiveAfter(f, before), LogAfter(f, before);
      BaseTold(q, log, live);
      RestTold(f, q, map[], Base(q, live), log);
      if Succeeds(f, q, live) { NewLiveTold(q, log, BuildRest(f, q, map[], Base(q, live)).value); }
    }
  }

  lemma BaseTold(q: Request, log: Log, live: Live)
    ensures Base(q, TagLive(log, live)) == TagLive(log, Base(q, live)) && TagLive(log, map[]) == map[]
  {
  }

  lemma {:induction false} NoHits(f: Versions, q: Request, wave: seq<Key>, ifaces: map<Key, Interface>)
    requires Buildable(q, wave, ifaces) && BuildSequence(f, q, wave, ifaces, map[]).Ok?
    ensures forall o :: o in BuildSequence(f, q, wave, ifaces, map[]).value ==> !o.hit
    decreases |wave|
  {
    hide Ready;
    if wave != [] { assert wave[|wave| - 1] in wave; NoHits(f, q, wave[..|wave| - 1], ifaces); }
  }

  /** In an empty directory nothing is taken over. */
  lemma {:induction false} CleanHasNoHits(f: Versions, q: Request, ifaces: map<Key, Interface>)
    requires Sane(q) && BuildRest(f, q, ifaces, map[]).Ok?
    ensures forall o :: o in BuildRest(f, q, ifaces, map[]).value ==> !o.hit
    decreases |q.g.deps.Keys - ifaces.Keys|
  {
    hide BuildRest, BuildSequence, LeastError, Buildable, Sane, Wave, Record, Layer;
    RestStep(f, q, ifaces, map[]);
    var wave := Wave(q, ifaces);
    if wave != [] {
      NoError(f, q, wave, ifaces, map[]);
      NoHits(f, q, wave, ifaces);
      hide WaveResult;
      CleanHasNoHits(f, q, Record(WaveResult(f, q, wave, ifaces, map[]).value, ifaces));
    }
  }

  // ----- the names are exactly what matters -----

  ghost predicate AllSane(qs: seq<Request>, q: Request) {
    Sane(q) && forall i :: 0 <= i < |qs| ==> Sane(qs[i])
  }

  /** If some compiler's build takes over a module whose names have changed, the telling one's is not clean. */
  lemma ChangedNamesShow(f: Versions, qs: seq<Request>, q: Request)
    requires AllSane(qs, q) && q.emit.WritesBytecode() && Succeeds(f, q, LiveAfter(f, qs))
    requires !NamesKept(q, LogAfter(f, qs), BuildRest(f, q, map[], Base(q, LiveAfter(f, qs))).value)
    ensures Succeeds(AllTelling(f), q, LiveAfter(AllTelling(f), qs)) && !Clean(AllTelling(f), q, LiveAfter(AllTelling(f), qs))
  {
    var live, log, g := LiveAfter(f, qs), LogAfter(f, qs), AllTelling(f);
    var built := BuildRest(f, q, map[], Base(q, live)).value;
    hide BuildRest, Sane, AllTelling, LiveAfter, LogAfter, NewLive;
    HistoryTold(f, qs);
    BaseTold(q, log, live);
    RestTold(f, q, map[], Base(q, live), log);
    BaseTold(q, log, map[]);
    RestTold(f, q, map[], map[], log);
    var i :| 0 <= i < |built| && built[i].hit && log(built[i].key) != q.names(built[i].key);
    var told := BuildRest(g, q, map[], Base(q, LiveAfter(g, qs))).value;
    assert told == TagAll(q, log, built);
    var clean := BuildRest(f, q, map[], map[]);
    if clean.Ok? && |clean.value| == |built| {
      CleanHasNoHits(f, q, map[]);
      assert clean.value[i] in clean.value && built[i] in built;
      HaveBytecode(f, q, map[], Base(q, live));
      NamesTell(q, log, built[i], clean.value[i]);
      assert told[i] == TagOutput(q, log, built[i]) && TagAll(q, log, clean.value)[i] == TagOutput(q, log, clean.value[i]);
      assert !SameOutputs(told, TagAll(q, log, clean.value), q.emit);
    }
  }

  lemma NamesTell(q: Request, log: Log, a: Output, b: Output)
    requires q.emit.WritesBytecode() && a.hit && !b.hit && a.bytecode.Some? && log(a.key) != q.names(a.key)
    ensures !SameOutput(TagOutput(q, log, a), TagOutput(q, log, b), q.emit)
  {
    var x, y := TagOutput(q, log, a), TagOutput(q, log, b);
    if b.bytecode.Some? { assert x.bytecode.value[0] == log(a.key) && y.bytecode.value[0] == q.names(b.key); }
  }

  lemma {:induction false} WaveBytecode(f: Versions, q: Request, wave: seq<Key>, ifaces: map<Key, Interface>, prev: Live)
    requires Buildable(q, wave, ifaces) && q.emit.WritesBytecode() && BuildSequence(f, q, wave, ifaces, prev).Ok?
    ensures forall o :: o in BuildSequence(f, q, wave, ifaces, prev).value ==> o.bytecode.Some?
    decreases |wave|
  {
    hide Ready;
    if wave != [] { assert wave[|wave| - 1] in wave; WaveBytecode(f, q, wave[..|wave| - 1], ifaces, prev); }
  }

  /** A build that writes bytecode has it for every module. */
  lemma {:induction false} HaveBytecode(f: Versions, q: Request, ifaces: map<Key, Interface>, prev: Live)
    requires Sane(q) && q.emit.WritesBytecode() && BuildRest(f, q, ifaces, prev).Ok?
    ensures forall o :: o in BuildRest(f, q, ifaces, prev).value ==> o.bytecode.Some?
    decreases |q.g.deps.Keys - ifaces.Keys|
  {
    hide BuildRest, BuildSequence, LeastError, Buildable, Sane, Wave, Record, Layer;
    RestStep(f, q, ifaces, prev);
    var wave := Wave(q, ifaces);
    if wave != [] {
      NoError(f, q, wave, ifaces, prev);
      WaveBytecode(f, q, wave, ifaces, prev);
      hide WaveResult;
      HaveBytecode(f, q, Record(WaveResult(f, q, wave, ifaces, prev).value, ifaces), prev);
    }
  }

  /** After any history, the next build that writes bytecode is clean for every compiler for which it
      succeeds, exactly when no compiler's build takes over a module whose import names have come to
      stand for something else since it was compiled. */
  lemma NamesExactly(qs: seq<Request>, q: Request)
    requires AllSane(qs, q) && q.emit.WritesBytecode()
    ensures (forall f: Versions :: Succeeds(f, q, LiveAfter(f, qs)) ==> Clean(f, q, LiveAfter(f, qs)))
            <==> (forall f: Versions :: TakesOverKept(f, q, LiveAfter(f, qs), LogAfter(f, qs)))
  {
    hide BuildRest, Sane, LiveAfter, LogAfter, NamesKept, NewLive, AllTelling;
    if forall f: Versions :: TakesOverKept(f, q, LiveAfter(f, qs), LogAfter(f, qs)) {
      forall f: Versions | Succeeds(f, q, LiveAfter(f, qs)) ensures Clean(f, q, LiveAfter(f, qs)) {
        assert TakesOverKept(f, q, LiveAfter(f, qs), LogAfter(f, qs));
        KeptNamesClean(f, qs, q);
      }
    } else {
      var f: Versions :| !TakesOverKept(f, q, LiveAfter(f, qs), LogAfter(f, qs));
      ChangedNamesShow(f, qs, q);
    }
  }
}
