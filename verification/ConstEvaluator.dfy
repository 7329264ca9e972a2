/** The compile-time evaluator: step, depth and allocation limits, a memo of finished calls, and
    the set of calls that are running. */
module ConstEvaluator {
  import opened Wrappers
  import opened ConstSemantics
  import opened ConstFacts
  import opened ConstText
  import opened ConstOrder

  const MAX_STEPS := 100_000
  const MAX_DEPTH := 256
  const MAX_ALLOC := 4 * 1024 * 1024
  const MAX_NODES := 50_000

  /** A call, its arguments written out as text. */
  datatype Key = Key(f: Name, text: string)

  /** Two argument lists of one function that are not the same, but are written alike. */
  datatype Clash = Clash(f: Name, first: seq<Value>, second: seq<Value>)

  datatype Error = Fault(fault: Fault) | StepLimit | DepthLimit | AllocLimit | NodeLimit | Cycle(f: Name, args: seq<Value>)

  datatype Res<+T> = Val(v: T) | Dynamic | Err(e: Error) {
    function Needed(): Res<T> {
      if Dynamic? then Err(Fault(NeedsRuntime)) else this
    }

    function Cast<U>(): Res<U>
      requires !Val?
    {
      if Dynamic? then Dynamic else Err(e)
    }
  }

  /** An answer other than a limit or a cycle is the plain one. */
  ghost predicate Agrees<T>(r: Res<T>, o: Out<T>) {
    match r
    case Val(v) => o == Done(v)
    case Dynamic => o == NotConst
    case Err(Fault(f)) => o == Fail(f)
    case _ => true
  }

  ghost predicate Gives(c: Context, f: Name, args: seq<Value>, v: Value)
    requires f in c.functions
  {
    exists d: nat :: PlainCall(c, f, args, d) == Done(v)
  }

  function KeyOf(f: Name, args: seq<Value>): Key {
    Key(f, ArgsText(args))
  }

  /** No function tells two argument lists apart that are written alike, whatever the constants are. */
  ghost predicate OrderBlind(c: Context) {
    forall values: map<Name, Value>, f: Name, a: seq<Value>, b: seq<Value>, v: Value ::
      f in c.functions && ArgsText(a) == ArgsText(b) && Gives(c.(values := values), f, a, v)
      ==> Gives(c.(values := values), f, b, v)
  }

  lemma BlindGives(c: Context, f: Name, a: seq<Value>, b: seq<Value>, v: Value)
    requires OrderBlind(c) && f in c.functions && ArgsText(a) == ArgsText(b) && Gives(c, f, a, v)
    ensures Gives(c, f, b, v)
  {
    hide Gives, ArgsText;
    assert c.(values := c.values) == c;
    assert Gives(c.(values := c.values), f, a, v);
  }

  /** The depth at which a remembered value is the plain one. */
  lemma HitDepth(c: Context, f: Name, first: seq<Value>, args: seq<Value>, v: Value) returns (d: nat)
    requires f in c.functions && Gives(c, f, first, v)
    requires first == args || (OrderBlind(c) && ArgsText(first) == ArgsText(args))
    ensures PlainCall(c, f, args, d) == Done(v)
  {
    hide OrderBlind, ArgsText, PlainCall;
    if first != args { BlindGives(c, f, first, args, v); }
    d :| PlainCall(c, f, args, d) == Done(v);
  }

  /** Every remembered value is the plain value of the call that was first asked for under its key. */
  ghost predicate Remembered(c: Context, memo: map<Key, Value>, asked: map<Key, seq<Value>>) {
    forall k :: k in memo ==> k in asked && k.f in c.functions && Gives(c, k.f, asked[k], memo[k])
  }

  predicate IsCycle<T>(r: Res<T>) {
    r.Err? && r.e.Cycle?
  }

  /** The call of a reported cycle is running, and has a derivation within `n`. */
  ghost predicate Runs<T>(c: Context, r: Res<T>, active: set<Key>, n: nat)
    requires IsCycle(r)
  {
    r.e.f in c.functions && KeyOf(r.e.f, r.e.args) in active && !PlainCall(c, r.e.f, r.e.args, n).Deep?
  }

  lemma {:induction false} RunsDeeper<T>(c: Context, r: Res<T>, active: set<Key>, n: nat, n': nat)
    requires IsCycle(r) && n <= n' && Runs(c, r, active, n)
    ensures Runs(c, r, active, n')
  {
    CarryCall(true, c, c, r.e.f, r.e.args, n, n');
  }

  /** A call that has no derivation unless it has a smaller one has none. */
  lemma {:induction false} NoDescent(c: Context, f: Name, args: seq<Value>, n: nat)
    requires f in c.functions
    requires forall k: nat :: !PlainCall(c, f, args, k).Deep? ==> k > 0 && !PlainCall(c, f, args, k - 1).Deep?
    ensures PlainCall(c, f, args, n).Deep?
    decreases n
  {
    if n > 0 { NoDescent(c, f, args, n - 1); }
  }

  /** Two answers that are not `Deep` are the same. */
  lemma SameExpr(c: Context, e: Expr, l: Locals, n: nat, d: nat)
    requires !PlainExpr(c, e, l, n).Deep? && !PlainExpr(c, e, l, d).Deep?
    ensures PlainExpr(c, e, l, n) == PlainExpr(c, e, l, d)
  {
    if n <= d { CarryExpr(true, c, c, e, l, n, d); } else { CarryExpr(true, c, c, e, l, d, n); }
  }

  function Max(a: nat, b: nat): nat {
    if a < b then b else a
  }

  function Prepend(vs: seq<Value>, r: Out<seq<Value>>): Out<seq<Value>> {
    if r.Done? then Done(vs + r.v) else r
  }

  lemma PrependNone(r: Out<seq<Value>>)
    ensures Prepend([], r) == r
  {
    if r.Done? { assert [] + r.v == r.v; }
  }

  // ----- one step of each loop -----

  lemma SameExprs(c: Context, es: Exprs, l: Locals, n: nat, d: nat, needed: bool)
    requires !PlainExprs(c, es, l, n, needed).Deep? && !PlainExprs(c, es, l, d, needed).Deep?
    ensures PlainExprs(c, es, l, n, needed) == PlainExprs(c, es, l, d, needed)
  {
    if n <= d { CarryExprs(true, c, c, es, l, n, d, needed); } else { CarryExprs(true, c, c, es, l, d, n, needed); }
  }

  lemma SameBind(c: Context, ps: Params, args: seq<Value>, n: nat, d: nat)
    requires !PlainBind(c, ps, args, n).Deep? && !PlainBind(c, ps, args, d).Deep?
    ensures PlainBind(c, ps, args, n) == PlainBind(c, ps, args, d)
  {
    if n <= d { CarryBind(true, c, c, ps, args, n, d); } else { CarryBind(true, c, c, ps, args, d, n); }
  }

  lemma SameBlock(c: Context, b: Block, l: Locals, asValue: bool, n: nat, d: nat)
    requires !PlainBlock(c, b, l, asValue, n).Deep? && !PlainBlock(c, b, l, asValue, d).Deep?
    ensures PlainBlock(c, b, l, asValue, n) == PlainBlock(c, b, l, asValue, d)
  {
    if n <= d { CarryBlock(true, c, c, b, l, asValue, n, d); } else { CarryBlock(true, c, c, b, l, asValue, d, n); }
  }

  lemma SameStmt(c: Context, s: Stmt, l: Locals, tail: bool, n: nat, d: nat)
    requires !PlainStmt(c, s, l, tail, n).Deep? && !PlainStmt(c, s, l, tail, d).Deep?
    ensures PlainStmt(c, s, l, tail, n) == PlainStmt(c, s, l, tail, d)
  {
    if n <= d { CarryStmt(true, c, c, s, l, tail, n, d); } else { CarryStmt(true, c, c, s, l, tail, d, n); }
  }

  /** The head of a list has been evaluated to `one` within `d1`. */
  /** `vs` are the values of the elements before `rest`. */
  ghost predicate ItemsAt(c: Context, es: Exprs, l: Locals, needed: bool, vs: seq<Value>, rest: Exprs, d: nat) {
    && (forall n: nat :: n >= d ==> PlainExprs(c, es, l, n, needed) == Prepend(vs, PlainExprs(c, rest, l, n, needed)))
    && forall n: nat :: !PlainExprs(c, es, l, n, needed).Deep? ==> !PlainExprs(c, rest, l, n, needed).Deep?
  }

  lemma ItemsStart(c: Context, es: Exprs, l: Locals, needed: bool)
    ensures ItemsAt(c, es, l, needed, [], es, 0)
  {
    forall n: nat ensures PlainExprs(c, es, l, n, needed) == Prepend([], PlainExprs(c, es, l, n, needed)) { PrependNone(PlainExprs(c, es, l, n, needed)); }
  }

  lemma ItemsEnd(c: Context, es: Exprs, l: Locals, needed: bool, vs: seq<Value>, d: nat)
    requires ItemsAt(c, es, l, needed, vs, NoExpr, d)
    ensures Agrees(Val(vs), PlainExprs(c, es, l, d, needed))
  {
    assert PlainExprs(c, es, l, d, needed) == Prepend(vs, Done([])) && vs + [] == vs;
  }

  lemma ItemStep(c: Context, es: Exprs, rest: Exprs, l: Locals, needed: bool, vs: seq<Value>, one: Res<Value>, d: nat, d1: nat)
    requires rest.MoreExpr? && Agrees(one, PlainExpr(c, rest.head, l, d1)) && ItemsAt(c, es, l, needed, vs, rest, d)
    ensures one.Val? ==> ItemsAt(c, es, l, needed, vs + [one.v], rest.tail, Max(d, d1))
    ensures forall n: nat :: !PlainExprs(c, es, l, n, needed).Deep? ==> !PlainExpr(c, rest.head, l, n).Deep?
    ensures !one.Val? ==> Agrees((if needed then one.Needed() else one).Cast<seq<Value>>(), PlainExprs(c, es, l, Max(d, d1), needed))
  {
    if one.Val? {
      forall n: nat | n >= Max(d, d1)
        ensures PlainExprs(c, es, l, n, needed) == Prepend(vs + [one.v], PlainExprs(c, rest.tail, l, n, needed)) {
        CarryExpr(true, c, c, rest.head, l, d1, n);
        var more := PlainExprs(c, rest.tail, l, n, needed);
        if more.Done? { assert vs + ([one.v] + more.v) == (vs + [one.v]) + more.v; }
      }
      forall n: nat | !PlainExprs(c, es, l, n, needed).Deep? ensures !PlainExprs(c, rest.tail, l, n, needed).Deep? {
        SameExpr(c, rest.head, l, n, d1);
      }
    } else {
      CarryExpr(true, c, c, rest.head, l, d1, Max(d, d1));
    }
  }

  /** `bound` are the values of the parameters before `rest`. */
  ghost predicate BoundAt(c: Context, ps: Params, args: seq<Value>, bound: seq<Value>, rest: Params, left: seq<Value>, d: nat) {
    && (forall n: nat :: n >= d ==> PlainBind(c, ps, args, n) == Prepend(bound, PlainBind(c, rest, left, n)))
    && forall n: nat :: !PlainBind(c, ps, args, n).Deep? ==> !PlainBind(c, rest, left, n).Deep?
  }

  lemma BoundStart(c: Context, ps: Params, args: seq<Value>)
    ensures BoundAt(c, ps, args, [], ps, args, 0)
  {
    forall n: nat ensures PlainBind(c, ps, args, n) == Prepend([], PlainBind(c, ps, args, n)) { PrependNone(PlainBind(c, ps, args, n)); }
  }

  lemma BoundEnd(c: Context, ps: Params, args: seq<Value>, bound: seq<Value>, rest: Params, left: seq<Value>, d: nat)
    requires BoundAt(c, ps, args, bound, rest, left, d)
    ensures rest.NoParam? ==> PlainBind(c, ps, args, d) == if left == [] then Done(bound) else Fail(ExtraArguments)
    ensures rest.Param? && left == [] && rest.default.None? ==> PlainBind(c, ps, args, d) == Fail(MissingArgument)
  {
    assert PlainBind(c, ps, args, d) == Prepend(bound, PlainBind(c, rest, left, d)) && bound + [] == bound;
  }

  lemma BoundStep(c: Context, ps: Params, args: seq<Value>, rest: Params, left: seq<Value>, bound: seq<Value>, d: nat)
    requires rest.Param? && left != [] && BoundAt(c, ps, args, bound, rest, left, d)
    ensures BoundAt(c, ps, args, bound + [left[0]], rest.rest, left[1..], d)
  {
    forall n: nat | n >= d ensures PlainBind(c, ps, args, n) == Prepend(bound + [left[0]], PlainBind(c, rest.rest, left[1..], n)) {
      var more := PlainBind(c, rest.rest, left[1..], n);
      if more.Done? { assert bound + ([left[0]] + more.v) == (bound + [left[0]]) + more.v; }
    }
  }

  lemma DefaultStep(c: Context, ps: Params, args: seq<Value>, rest: Params, left: seq<Value>, bound: seq<Value>, one: Res<Value>, d: nat, d1: nat)
    requires rest.Param? && left == [] && rest.default.Some? && !one.Dynamic?
    requires Agrees(one, PlainExpr(c, rest.default.value, NO_LOCALS, d1).Needed())
    requires BoundAt(c, ps, args, bound, rest, left, d)
    ensures one.Val? ==> BoundAt(c, ps, args, bound + [one.v], rest.rest, left, Max(d, d1))
    ensures one.Err? ==> Agrees(one.Cast<seq<Value>>(), PlainBind(c, ps, args, Max(d, d1)))
    ensures forall n: nat :: !PlainBind(c, ps, args, n).Deep? ==> !PlainExpr(c, rest.default.value, NO_LOCALS, n).Deep?
  {
    var e := rest.default.value;
    if one.Val? {
      forall n: nat | n >= Max(d, d1) ensures PlainBind(c, ps, args, n) == Prepend(bound + [one.v], PlainBind(c, rest.rest, left, n)) {
        CarryExpr(true, c, c, e, NO_LOCALS, d1, n);
        var more := PlainBind(c, rest.rest, [], n);
        if more.Done? { assert bound + ([one.v] + more.v) == (bound + [one.v]) + more.v; }
      }
      forall n: nat | !PlainBind(c, ps, args, n).Deep? ensures !PlainBind(c, rest.rest, left, n).Deep? { SameExpr(c, e, NO_LOCALS, n, d1); }
    } else {
      CarryExpr(true, c, c, e, NO_LOCALS, d1, Max(d, d1));
    }
  }

  function Outcome(ran: Res<(Flow, Locals)>): (r: Res<Value>)
    requires !ran.Dynamic?
    ensures !r.Dynamic? && (ran.Err? ==> r == Err(ran.e)) && (r.Err? && ran.Val? ==> r.e.Fault?)
  {
    if ran.Err? then Err(ran.e) else
    match ran.v.0
    case Returned(v) => Val(v)
    case Normal => Val(Unit)
    case _ => Err(Fault(Escaped))
  }

  /** A cycle found in the body of a call: of this call, which then has no derivation, or of one
      that was running before. */
  lemma CallCycles(c: Context, f: Name, args: seq<Value>, ran: Res<(Flow, Locals)>, active: set<Key>, asked: map<Key, seq<Value>>)
    requires f in c.functions && !ran.Dynamic? && IsCycle(ran) && KeyOf(f, args) !in active && KeyOf(f, args) in asked && asked[KeyOf(f, args)] == args
    requires KeyOf(ran.e.f, ran.e.args) in asked && asked[KeyOf(ran.e.f, ran.e.args)] == ran.e.args
    requires forall n: nat :: !PlainBlock(c, c.functions[f].body, Entered(c.functions[f].params, args, NO_LOCALS), true, n).Deep?
               ==> Runs(c, ran, active + {KeyOf(f, args)}, n)
    ensures forall n: nat :: !PlainCall(c, f, args, n).Deep? ==> Runs(c, Outcome(ran), active, n)
  {
    var key := KeyOf(f, args);
    var l := Entered(c.functions[f].params, args, NO_LOCALS);
    forall n: nat | !PlainCall(c, f, args, n).Deep? ensures n > 0 && Runs(c, ran, active + {key}, n - 1) {
      assert !PlainBlock(c, c.functions[f].body, l, true, n - 1).Deep?;
    }
    if KeyOf(ran.e.f, ran.e.args) == key {
      assert ran.e.args == args;
      forall n: nat ensures PlainCall(c, f, args, n).Deep? { NoDescent(c, f, args, n); }
    } else {
      forall n: nat | !PlainCall(c, f, args, n).Deep? ensures Runs(c, Outcome(ran), active, n) {
        RunsDeeper(c, ran, active + {key}, n - 1, n);
      }
    }
  }

  lemma CallEnds(c: Context, f: Name, args: seq<Value>, ran: Res<(Flow, Locals)>, d: nat)
    requires f in c.functions && !ran.Dynamic?
    requires Agrees(ran, PlainBlock(c, c.functions[f].body, Entered(c.functions[f].params, args, NO_LOCALS), true, d))
    ensures Agrees(Outcome(ran), PlainCall(c, f, args, d + 1))
    ensures Outcome(ran).Val? ==> PlainCall(c, f, args, d + 1) == Done(Outcome(ran).v)
  {
    hide PlainBlock;
  }

  lemma RememberOne(c: Context, memo: map<Key, Value>, asked: map<Key, seq<Value>>, f: Name, args: seq<Value>, v: Value, d: nat)
    requires f in c.functions && Remembered(c, memo, asked) && PlainCall(c, f, args, d) == Done(v)
    requires var key := KeyOf(f, args);
             key in asked && ArgsText(asked[key]) == ArgsText(args) && (asked[key] == args || OrderBlind(c))
    ensures Remembered(c, memo[KeyOf(f, args) := v], asked)
  {
    hide ArgsText, OrderBlind;
    assert Gives(c, f, args, v);
    var first := asked[KeyOf(f, args)];
    if first != args { BlindGives(c, f, args, first, v); }
  }

  /** From `l`, the block has come to `cur` before `rest`. */
  ghost predicate BlockAt(c: Context, b: Block, l: Locals, asValue: bool, rest: Block, cur: Locals, d: nat) {
    && (forall n: nat :: n >= d ==> PlainBlock(c, b, l, asValue, n) == PlainBlock(c, rest, cur, asValue, n))
    && forall n: nat :: !PlainBlock(c, b, l, asValue, n).Deep? ==> !PlainBlock(c, rest, cur, asValue, n).Deep?
  }

  lemma BlockStart(c: Context, b: Block, l: Locals, asValue: bool)
    ensures BlockAt(c, b, l, asValue, b, l, 0)
  {
  }

  lemma BlockEnd(c: Context, b: Block, l: Locals, asValue: bool, cur: Locals, d: nat)
    requires BlockAt(c, b, l, asValue, Nil, cur, d)
    ensures PlainBlock(c, b, l, asValue, d) == Done((Normal, cur))
  {
  }

  lemma BlockStep(c: Context, b: Block, l: Locals, asValue: bool, rest: Block, cur: Locals, one: Res<(Flow, Locals)>, d: nat, d1: nat)
    requires rest.Cons? && !one.Dynamic?
    requires Agrees(one, PlainStmt(c, rest.head, cur, asValue && !rest.head.Comment? && OnlyComments(rest.tail), d1))
    requires BlockAt(c, b, l, asValue, rest, cur, d)
    ensures one.Val? && one.v.0.Normal? ==> BlockAt(c, b, l, asValue, rest.tail, one.v.1, Max(d, d1))
    ensures one.Err? || !one.v.0.Normal? ==> Agrees(one, PlainBlock(c, b, l, asValue, Max(d, d1)))
    ensures forall n: nat :: !PlainBlock(c, b, l, asValue, n).Deep? ==>
              !PlainStmt(c, rest.head, cur, asValue && !rest.head.Comment? && OnlyComments(rest.tail), n).Deep?
  {
    var tail := asValue && !rest.head.Comment? && OnlyComments(rest.tail);
    hide PlainStmt;
    if one.Val? {
      forall n: nat | n >= Max(d, d1)
        ensures PlainBlock(c, b, l, asValue, n) == if one.v.0.Normal? then PlainBlock(c, rest.tail, one.v.1, asValue, n) else Done(one.v) {
        CarryStmt(true, c, c, rest.head, cur, tail, d1, n);
      }
      forall n: nat | !PlainBlock(c, b, l, asValue, n).Deep? && one.v.0.Normal? ensures !PlainBlock(c, rest.tail, one.v.1, asValue, n).Deep? {
        assert !PlainStmt(c, rest.head, cur, tail, n).Deep?;
        SameStmt(c, rest.head, cur, tail, n, d1);
      }
    } else {
      CarryStmt(true, c, c, rest.head, cur, tail, d1, Max(d, d1));
    }
  }

  /** No arm before `rest` has been taken. */
  ghost predicate ArmsAt(c: Context, arms: Arms, l: Locals, tail: bool, rest: Arms, d: nat) {
    && (forall n: nat :: n >= d ==> PlainArms(c, arms, l, tail, n) == PlainArms(c, rest, l, tail, n))
    && forall n: nat :: !PlainArms(c, arms, l, tail, n).Deep? ==> !PlainArms(c, rest, l, tail, n).Deep?
  }

  lemma ArmsStart(c: Context, arms: Arms, l: Locals, tail: bool)
    ensures ArmsAt(c, arms, l, tail, arms, 0)
  {
  }

  /** The arm with this body is taken. */
  ghost predicate ArmIn(c: Context, arms: Arms, l: Locals, tail: bool, body: Block, d: nat) {
    && (forall n: nat :: n >= d ==> PlainArms(c, arms, l, tail, n) == Taken(PlainBlock(c, body, l, tail, n)))
    && forall n: nat :: !PlainArms(c, arms, l, tail, n).Deep? ==> !PlainBlock(c, body, l, tail, n).Deep?
  }

  lemma ArmEnd(c: Context, arms: Arms, l: Locals, tail: bool, body: Block, b: Res<(Flow, Locals)>, d: nat, d2: nat)
    requires ArmIn(c, arms, l, tail, body, d) && !b.Dynamic? && Agrees(b, PlainBlock(c, body, l, tail, d2))
    ensures Agrees(if b.Val? then Val((Some(b.v.0), b.v.1)) else b.Cast<(Option<Flow>, Locals)>(), PlainArms(c, arms, l, tail, Max(d, d2)))
    ensures forall n: nat :: !PlainArms(c, arms, l, tail, n).Deep? ==> !PlainBlock(c, body, l, tail, n).Deep?
  {
    hide PlainBlock, PlainArms;
    CarryBlock(true, c, c, body, l, tail, d2, Max(d, d2));
  }

  lemma ArmStep(c: Context, arms: Arms, rest: Arms, l: Locals, tail: bool, g: Res<Value>, d: nat, d1: nat)
    requires !g.Dynamic? && Agrees(g, PlainExpr(c, rest.cond, l, d1).Needed())
    requires ArmsAt(c, arms, l, tail, rest, d)
    ensures forall n: nat :: !PlainArms(c, arms, l, tail, n).Deep? ==> !PlainExpr(c, rest.cond, l, n).Deep?
    ensures g.Err? ==> Agrees(g.Cast<(Option<Flow>, Locals)>(), PlainArms(c, arms, l, tail, Max(d, d1)))
    ensures g.Val? && Truthy(c.ops, g.v) ==> ArmIn(c, arms, l, tail, rest.body, Max(d, d1))
    ensures g.Val? && !Truthy(c.ops, g.v) && rest.LastArm? ==> PlainArms(c, arms, l, tail, Max(d, d1)) == Done((None, l))
    ensures g.Val? && !Truthy(c.ops, g.v) && rest.Arm? ==> ArmsAt(c, arms, l, tail, rest.rest, Max(d, d1))
  {
    hide PlainExpr, PlainBlock;
    if g.Err? {
      CarryExpr(true, c, c, rest.cond, l, d1, Max(d, d1));
    } else {
      forall n: nat | n >= Max(d, d1)
        ensures PlainArms(c, arms, l, tail, n) ==
                if Truthy(c.ops, g.v) then Taken(PlainBlock(c, rest.body, l, tail, n))
                else if rest.Arm? then PlainArms(c, rest.rest, l, tail, n) else Done((None, l)) {
        CarryExpr(true, c, c, rest.cond, l, d1, n);
        assert PlainArms(c, arms, l, tail, n) == PlainArms(c, rest, l, tail, n);
      }
      forall n: nat | !PlainArms(c, arms, l, tail, n).Deep?
        ensures Truthy(c.ops, g.v) ==> !PlainBlock(c, rest.body, l, tail, n).Deep?
        ensures !Truthy(c.ops, g.v) && rest.Arm? ==> !PlainArms(c, rest.rest, l, tail, n).Deep? {
        assert !PlainArms(c, rest, l, tail, n).Deep?;
        SameExpr(c, rest.cond, l, n, d1);
      }
    }
  }

  lemma ElseStep(c: Context, s: Stmt, l: Locals, tail: bool, l1: Locals, r: Res<(Flow, Locals)>, d1: nat, d: nat)
    requires s.If? && s.els.Some? && PlainArms(c, s.arms, l, tail, d1) == Done((None, l1)) && Agrees(r, PlainBlock(c, s.els.value, l1, tail, d))
    ensures Agrees(r, PlainStmt(c, s, l, tail, Max(d1, d)))
    ensures forall n: nat :: !PlainStmt(c, s, l, tail, n).Deep? ==> !PlainBlock(c, s.els.value, l1, tail, n).Deep?
  {
    hide PlainExpr, PlainBlock, PlainArms;
    CarryArms(true, c, c, s.arms, l, tail, d1, Max(d1, d));
    CarryBlock(true, c, c, s.els.value, l1, tail, d, Max(d1, d));
    forall n: nat | !PlainStmt(c, s, l, tail, n).Deep? ensures !PlainBlock(c, s.els.value, l1, tail, n).Deep? {
      if n <= d1 { CarryArms(true, c, c, s.arms, l, tail, n, d1); } else { CarryArms(true, c, c, s.arms, l, tail, d1, n); }
    }
  }

  /** One round of `while`: the flow it ends the loop with, or none to go on. */
  function PlainRound(c: Context, s: Stmt, l: Locals, d: nat): Out<(Option<Flow>, Locals)>
    requires s.While?
  {
    var r := PlainExpr(c, s.cond, l, d).Needed();
    if !r.Done? then r.Cast() else if !Truthy(c.ops, r.v) then Done((Some(Normal), l)) else
    var b := PlainBlock(c, s.body, l, false, d);
    if b.Done? then Done(Turned(b.v, s.lbl)) else b.Cast()
  }

  function Turned(ran: (Flow, Locals), lbl: Label): (Option<Flow>, Locals) {
    match TurnOf(ran.0, lbl)
    case LeaveWith(flow) => (Some(flow), ran.1)
    case Stop => (Some(Normal), ran.1)
    case Again => (None, ran.1)
  }

  lemma WhileRounds(c: Context, s: Stmt, l: Locals, n: nat)
    requires s.While?
    ensures PlainWhile(c, s.lbl, s.cond, s.body, l, n) ==
            if n == 0 then Deep else
            var r := PlainRound(c, s, l, n - 1);
            if !r.Done? then r.Cast() else
            if r.v.0.Some? then Done((r.v.0.value, r.v.1)) else PlainWhile(c, s.lbl, s.cond, s.body, r.v.1, n - 1)
  {
    hide PlainExpr, PlainBlock;
  }

  lemma SameRound(c: Context, s: Stmt, l: Locals, n: nat, d: nat)
    requires s.While? && !PlainRound(c, s, l, d).Deep? && (n >= d || !PlainRound(c, s, l, n).Deep?)
    ensures PlainRound(c, s, l, n) == PlainRound(c, s, l, d)
  {
    hide PlainExpr, PlainBlock;
    CarryExpr(true, c, c, s.cond, l, if n < d then n else d, Max(n, d));
    CarryBlock(true, c, c, s.body, l, false, if n < d then n else d, Max(n, d));
  }

  /** From `l`, the loop has come to `cur` in `k` rounds. */
  ghost predicate WhileAt(c: Context, s: Stmt, l: Locals, cur: Locals, k: nat, d: nat)
    requires s.While?
  {
    && (forall n: nat :: n >= d + k ==> PlainWhile(c, s.lbl, s.cond, s.body, l, n) == PlainWhile(c, s.lbl, s.cond, s.body, cur, n - k))
    && forall n: nat :: !PlainWhile(c, s.lbl, s.cond, s.body, l, n).Deep? ==>
         n >= k && !PlainWhile(c, s.lbl, s.cond, s.body, cur, n - k).Deep?
  }

  lemma WhileStart(c: Context, s: Stmt, l: Locals)
    requires s.While?
    ensures WhileAt(c, s, l, l, 0, 0)
  {
  }

  lemma RoundStep(c: Context, s: Stmt, l: Locals, cur: Locals, k: nat, r: Res<(Option<Flow>, Locals)>, d: nat, d1: nat)
    requires s.While? && !r.Dynamic? && WhileAt(c, s, l, cur, k, d) && Agrees(r, PlainRound(c, s, cur, d1))
    ensures forall n: nat :: !PlainWhile(c, s.lbl, s.cond, s.body, l, n).Deep? ==> n > k && !PlainRound(c, s, cur, n - 1 - k).Deep?
    ensures r.Err? ==> Agrees(r.Cast<(Flow, Locals)>(), PlainWhile(c, s.lbl, s.cond, s.body, l, Max(d, d1 + 1) + k))
    ensures r.Val? ==>
              if r.v.0.Some? then PlainWhile(c, s.lbl, s.cond, s.body, l, Max(d, d1 + 1) + k) == Done((r.v.0.value, r.v.1))
              else WhileAt(c, s, l, r.v.1, k + 1, Max(d, d1 + 1))
  {
    hide PlainRound, PlainWhile;
    var top := Max(d, d1 + 1);
    forall n: nat | !PlainWhile(c, s.lbl, s.cond, s.body, l, n).Deep? ensures n > k && !PlainRound(c, s, cur, n - 1 - k).Deep? {
      WhileRounds(c, s, cur, n - k);
    }
    if r.Err? {
      WhileRounds(c, s, cur, top);
      assert PlainWhile(c, s.lbl, s.cond, s.body, l, top + k) == PlainWhile(c, s.lbl, s.cond, s.body, cur, top);
      if !PlainRound(c, s, cur, d1).Deep? { SameRound(c, s, cur, top - 1, d1); }
    } else {
      forall n: nat | n >= top + k || !PlainWhile(c, s.lbl, s.cond, s.body, l, n).Deep?
        ensures n > k && PlainWhile(c, s.lbl, s.cond, s.body, cur, n - k) ==
                  if r.v.0.Some? then Done((r.v.0.value, r.v.1)) else PlainWhile(c, s.lbl, s.cond, s.body, r.v.1, n - k - 1) {
        WhileRounds(c, s, cur, n - k);
        SameRound(c, s, cur, n - k - 1, d1);
      }
    }
  }

  ghost predicate LoopAt(c: Context, lbl: Label, body: Block, count: nat, l: Locals, left: nat, cur: Locals, d: nat) {
    && (forall n: nat :: n >= d ==> PlainLoop(c, lbl, body, count, l, n) == PlainLoop(c, lbl, body, left, cur, n))
    && forall n: nat :: !PlainLoop(c, lbl, body, count, l, n).Deep? ==> !PlainLoop(c, lbl, body, left, cur, n).Deep?
  }

  lemma LoopStart(c: Context, lbl: Label, body: Block, count: nat, l: Locals)
    ensures LoopAt(c, lbl, body, count, l, count, l, 0)
  {
  }

  lemma LoopEnd(c: Context, lbl: Label, body: Block, count: nat, l: Locals, cur: Locals, d: nat)
    requires LoopAt(c, lbl, body, count, l, 0, cur, d)
    ensures PlainLoop(c, lbl, body, count, l, d) == Done((Normal, cur))
  {
  }

  lemma LoopStep(c: Context, lbl: Label, body: Block, count: nat, l: Locals, left: nat, cur: Locals, b: Res<(Flow, Locals)>, d: nat, d1: nat)
    requires left > 0 && !b.Dynamic? && LoopAt(c, lbl, body, count, l, left, cur, d) && Agrees(b, PlainBlock(c, body, cur, false, d1))
    ensures forall n: nat :: !PlainLoop(c, lbl, body, count, l, n).Deep? ==> !PlainBlock(c, body, cur, false, n).Deep?
    ensures b.Err? ==> Agrees(b, PlainLoop(c, lbl, body, count, l, Max(d, d1)))
    ensures b.Val? ==> var turn := TurnOf(b.v.0, lbl);
              && (turn.LeaveWith? ==> PlainLoop(c, lbl, body, count, l, Max(d, d1)) == Done((turn.flow, b.v.1)))
              && (turn.Stop? ==> PlainLoop(c, lbl, body, count, l, Max(d, d1)) == Done((Normal, b.v.1)))
              && (turn.Again? ==> LoopAt(c, lbl, body, count, l, left - 1, b.v.1, Max(d, d1)))
  {
    hide PlainBlock;
    forall n: nat | !PlainLoop(c, lbl, body, count, l, n).Deep? ensures !PlainBlock(c, body, cur, false, n).Deep? {
      assert !PlainLoop(c, lbl, body, left, cur, n).Deep?;
    }
    if b.Err? {
      CarryBlock(true, c, c, body, cur, false, d1, Max(d, d1));
      assert PlainLoop(c, lbl, body, count, l, Max(d, d1)) == PlainLoop(c, lbl, body, left, cur, Max(d, d1));
    } else {
      var turn := TurnOf(b.v.0, lbl);
      forall n: nat | n >= Max(d, d1)
        ensures PlainLoop(c, lbl, body, count, l, n) == match turn
                  case LeaveWith(flow) => Done((flow, b.v.1))
                  case Stop => Done((Normal, b.v.1))
                  case Again => PlainLoop(c, lbl, body, left - 1, b.v.1, n) {
        CarryBlock(true, c, c, body, cur, false, d1, n);
        assert PlainLoop(c, lbl, body, count, l, n) == PlainLoop(c, lbl, body, left, cur, n);
      }
      forall n: nat | !PlainLoop(c, lbl, body, count, l, n).Deep? && turn.Again? ensures !PlainLoop(c, lbl, body, left - 1, b.v.1, n).Deep? {
        assert !PlainLoop(c, lbl, body, left, cur, n).Deep?;
        SameBlock(c, body, cur, false, n, d1);
      }
    }
  }

  lemma LoopCounted(c: Context, s: Stmt, l: Locals, tail: bool, v: Value, r: Res<(Flow, Locals)>, d1: nat, d: nat)
    requires s.Loop? && s.count.Some? && PlainExpr(c, s.count.value, l, d1) == Done(v) && CountOf(v).Done?
    requires Agrees(r, PlainLoop(c, s.lbl, s.body, CountOf(v).v, l, d))
    ensures Agrees(r, PlainStmt(c, s, l, tail, Max(d1, d)))
    ensures forall n: nat :: !PlainStmt(c, s, l, tail, n).Deep? ==> !PlainLoop(c, s.lbl, s.body, CountOf(v).v, l, n).Deep?
  {
    hide PlainExpr, PlainLoop;
    CarryExpr(true, c, c, s.count.value, l, d1, Max(d1, d));
    CarryLoop(true, c, c, s.lbl, s.body, CountOf(v).v, l, d, Max(d1, d));
    forall n: nat | !PlainStmt(c, s, l, tail, n).Deep? ensures !PlainLoop(c, s.lbl, s.body, CountOf(v).v, l, n).Deep? {
      SameExpr(c, s.count.value, l, n, d1);
    }
  }

  ghost predicate ForAt(c: Context, lbl: Label, x: Name, body: Block, items: seq<Value>, l: Locals, left: seq<Value>, cur: Locals, d: nat) {
    && (forall n: nat :: n >= d ==> PlainFor(c, lbl, x, body, items, l, n) == PlainFor(c, lbl, x, body, left, cur, n))
    && forall n: nat :: !PlainFor(c, lbl, x, body, items, l, n).Deep? ==> !PlainFor(c, lbl, x, body, left, cur, n).Deep?
  }

  lemma ForStart(c: Context, lbl: Label, x: Name, body: Block, items: seq<Value>, l: Locals)
    ensures ForAt(c, lbl, x, body, items, l, items, l, 0)
  {
  }

  lemma ForEnd(c: Context, lbl: Label, x: Name, body: Block, items: seq<Value>, l: Locals, cur: Locals, d: nat)
    requires ForAt(c, lbl, x, body, items, l, [], cur, d)
    ensures PlainFor(c, lbl, x, body, items, l, d) == Done((None, cur))
  {
  }

  lemma ForStep(c: Context, lbl: Label, x: Name, body: Block, items: seq<Value>, l: Locals, left: seq<Value>, cur: Locals,
                b: Res<(Flow, Locals)>, d: nat, d1: nat)
    requires left != [] && !b.Dynamic? && ForAt(c, lbl, x, body, items, l, left, cur, d)
    requires Agrees(b, PlainBlock(c, body, Item(x, left[0], cur), false, d1))
    ensures forall n: nat :: !PlainFor(c, lbl, x, body, items, l, n).Deep? ==> !PlainBlock(c, body, Item(x, left[0], cur), false, n).Deep?
    ensures b.Err? ==> Agrees(b.Cast<(Option<Flow>, Locals)>(), PlainFor(c, lbl, x, body, items, l, Max(d, d1)))
    ensures b.Val? ==> var turn := TurnOf(b.v.0, lbl);
              && (turn.LeaveWith? ==> PlainFor(c, lbl, x, body, items, l, Max(d, d1)) == Done((Some(turn.flow), b.v.1)))
              && (turn.Stop? ==> PlainFor(c, lbl, x, body, items, l, Max(d, d1)) == Done((Some(Normal), b.v.1)))
              && (turn.Again? ==> ForAt(c, lbl, x, body, items, l, left[1..], b.v.1, Max(d, d1)))
  {
    hide PlainBlock;
    var l1 := Item(x, left[0], cur);
    forall n: nat | !PlainFor(c, lbl, x, body, items, l, n).Deep? ensures !PlainBlock(c, body, l1, false, n).Deep? {
      assert !PlainFor(c, lbl, x, body, left, cur, n).Deep?;
    }
    if b.Err? {
      CarryBlock(true, c, c, body, l1, false, d1, Max(d, d1));
      assert PlainFor(c, lbl, x, body, items, l, Max(d, d1)) == PlainFor(c, lbl, x, body, left, cur, Max(d, d1));
    } else {
      var turn := TurnOf(b.v.0, lbl);
      forall n: nat | n >= Max(d, d1)
        ensures PlainFor(c, lbl, x, body, items, l, n) == match turn
                  case LeaveWith(flow) => Done((Some(flow), b.v.1))
                  case Stop => Done((Some(Normal), b.v.1))
                  case Again => PlainFor(c, lbl, x, body, left[1..], b.v.1, n) {
        CarryBlock(true, c, c, body, l1, false, d1, n);
        assert PlainFor(c, lbl, x, body, items, l, n) == PlainFor(c, lbl, x, body, left, cur, n);
      }
      forall n: nat | !PlainFor(c, lbl, x, body, items, l, n).Deep? && turn.Again? ensures !PlainFor(c, lbl, x, body, left[1..], b.v.1, n).Deep? {
        assert !PlainFor(c, lbl, x, body, left, cur, n).Deep?;
        SameBlock(c, body, l1, false, n, d1);
      }
    }
  }

  lemma ForLooped(c: Context, s: Stmt, l: Locals, tail: bool, v: Value, looped: Res<(Option<Flow>, Locals)>, d1: nat, d2: nat)
    requires s.For? && PlainExpr(c, s.iterable, l, d1) == Done(v) && Items(v).Some? && !looped.Dynamic?
    requires Agrees(looped, PlainFor(c, s.lbl, s.x, s.body, Items(v).value, l, d2))
    ensures var d := Max(d1, d2);
            && PlainExpr(c, s.iterable, l, d) == Done(v)
            && Agrees(looped, PlainFor(c, s.lbl, s.x, s.body, Items(v).value, l, d))
            && (looped.Err? ==> Agrees(looped.Cast<(Flow, Locals)>(), PlainStmt(c, s, l, tail, d)))
            && (looped.Val? && (looped.v.0.Some? || s.els.None?) ==>
                  PlainStmt(c, s, l, tail, d) == Done((if looped.v.0.Some? then looped.v.0.value else Normal, looped.v.1)))
    ensures forall n: nat :: !PlainStmt(c, s, l, tail, n).Deep? ==> !PlainFor(c, s.lbl, s.x, s.body, Items(v).value, l, n).Deep?
  {
    hide PlainExpr, PlainFor, PlainBlock;
    CarryExpr(true, c, c, s.iterable, l, d1, Max(d1, d2));
    CarryItems(true, c, c, s.lbl, s.x, s.body, Items(v).value, l, d2, Max(d1, d2));
    forall n: nat | !PlainStmt(c, s, l, tail, n).Deep? ensures !PlainFor(c, s.lbl, s.x, s.body, Items(v).value, l, n).Deep? {
      SameExpr(c, s.iterable, l, n, d1);
    }
  }

  lemma ForElse(c: Context, s: Stmt, l: Locals, tail: bool, v: Value, l1: Locals, r: Res<(Flow, Locals)>, d: nat, d3: nat)
    requires s.For? && s.els.Some? && PlainExpr(c, s.iterable, l, d) == Done(v) && Items(v).Some?
    requires PlainFor(c, s.lbl, s.x, s.body, Items(v).value, l, d) == Done((None, l1))
    requires Agrees(r, PlainBlock(c, s.els.value, l1, false, d3))
    ensures Agrees(r, PlainStmt(c, s, l, tail, Max(d, d3)))
    ensures forall n: nat :: !PlainStmt(c, s, l, tail, n).Deep? ==> !PlainBlock(c, s.els.value, l1, false, n).Deep?
  {
    var items := Items(v).value;
    hide PlainExpr, PlainFor, PlainBlock;
    CarryExpr(true, c, c, s.iterable, l, d, Max(d, d3));
    CarryItems(true, c, c, s.lbl, s.x, s.body, items, l, d, Max(d, d3));
    CarryBlock(true, c, c, s.els.value, l1, false, d3, Max(d, d3));
    forall n: nat | !PlainStmt(c, s, l, tail, n).Deep? ensures !PlainBlock(c, s.els.value, l1, false, n).Deep? {
      SameExpr(c, s.iterable, l, n, d);
      if n <= d { CarryItems(true, c, c, s.lbl, s.x, s.body, items, l, n, d); } else { CarryItems(true, c, c, s.lbl, s.x, s.body, items, l, d, n); }
    }
  }

  // ----- short calls: whatever has happened before, their evaluation is known step by step -----

  predicate Known(c: Context, e: Expr, l: Locals) {
    e.Var? && (e.x in l.values || e.x in c.values)
  }

  function Lookup(c: Context, e: Expr, l: Locals): Value
    requires Known(c, e, l)
  {
    if e.x in l.values then l.values[e.x] else c.values[e.x]
  }

  predicate AllKnown(c: Context, es: Exprs, l: Locals) {
    es.MoreExpr? ==> Known(c, es.head, l) && AllKnown(c, es.tail, l)
  }

  function LookupAll(c: Context, es: Exprs, l: Locals): seq<Value>
    requires AllKnown(c, es, l)
  {
    if es.MoreExpr? then [Lookup(c, es.head, l)] + LookupAll(c, es.tail, l) else []
  }

  /** `vs` are what the names before `rest` stand for. */
  predicate LookedUp(c: Context, es: Exprs, l: Locals, vs: seq<Value>, rest: Exprs) {
    AllKnown(c, es, l) && AllKnown(c, rest, l) && vs + LookupAll(c, rest, l) == LookupAll(c, es, l)
  }

  lemma LookedUpStart(c: Context, es: Exprs, l: Locals)
    requires AllKnown(c, es, l)
    ensures LookedUp(c, es, l, [], es)
  {
  }

  lemma LookedUpStep(c: Context, es: Exprs, l: Locals, vs: seq<Value>, rest: Exprs)
    requires LookedUp(c, es, l, vs, rest)
    ensures rest.MoreExpr? ==> Known(c, rest.head, l) && LookedUp(c, es, l, vs + [Lookup(c, rest.head, l)], rest.tail)
                               && Length(rest) == 1 + Length(rest.tail)
    ensures rest.NoExpr? ==> vs == LookupAll(c, es, l) && Length(rest) == 0
  {
    hide Known, Lookup;
    if rest.NoExpr? { assert vs + [] == vs; }
    else {
      var v, more := Lookup(c, rest.head, l), LookupAll(c, rest.tail, l);
      assert vs + ([v] + more) == (vs + [v]) + more;
    }
  }

  function Length(es: Exprs): nat {
    if es.MoreExpr? then 1 + Length(es.tail) else 0
  }

  function Arity(ps: Params): nat {
    if ps.Param? then 1 + Arity(ps.rest) else 0
  }

  /** The body is one expression, and that is a name. */
  predicate ShortBody(c: Context, f: Name, args: seq<Value>) {
    && f in c.functions && Arity(c.functions[f].params) == |args|
    && var b := c.functions[f].body;
       b.Cons? && b.head.Eval? && b.tail.Nil? && Known(c, b.head.e, Entered(c.functions[f].params, args, NO_LOCALS))
  }

  function BodyValue(c: Context, f: Name, args: seq<Value>): Value
    requires ShortBody(c, f, args)
  {
    Lookup(c, c.functions[f].body.head.e, Entered(c.functions[f].params, args, NO_LOCALS))
  }

  predicate ShortCall(c: Context, e: Expr, l: Locals) {
    e.Call? && AllKnown(c, e.args, l) && !c.ops.isBuiltin(e.f) && ShortBody(c, e.f, LookupAll(c, e.args, l))
  }

  /** What is remembered under the key of the call, or else what the body gives now. */
  function AnswerTo(c: Context, memo: map<Key, Value>, f: Name, args: seq<Value>): Value
    requires ShortBody(c, f, args)
  {
    if KeyOf(f, args) in memo then memo[KeyOf(f, args)] else BodyValue(c, f, args)
  }

  // ----- the state of an evaluation -----

  class EvalState {
    var steps: nat
    var depth: nat
    var alloc: nat
    var nodes: nat
    var stack: seq<Name>
    var memo: map<Key, Value>
    var active: set<Key>
    /** The arguments first asked for under a key, and the first time that others were. */
    ghost var asked: map<Key, seq<Value>>
    ghost var clash: Option<Clash>

    ghost predicate Recorded()
      reads this`asked, this`clash
    {
      && (forall k :: k in asked ==> k == KeyOf(k.f, asked[k]))
      && (clash.Some? ==> clash.value.first != clash.value.second && ArgsText(clash.value.first) == ArgsText(clash.value.second))
    }

    ghost predicate Good()
      reads this
    {
      depth == |stack| <= MAX_DEPTH && alloc <= MAX_ALLOC && nodes <= MAX_NODES && Recorded()
    }

    /** The memo is right, and either no two different argument lists have met under one key so far or
        no function can tell such lists apart. */
    ghost predicate Trusted(c: Context)
      reads this`clash, this`memo, this`asked
    {
      (clash.None? || OrderBlind(c)) && Remembered(c, memo, asked)
    }

    /** The evaluation began with a right memo, and it has stayed right. */
    twostate predicate Sure(c: Context)
      reads this
    {
      old(Trusted(c)) && (clash.None? || OrderBlind(c))
    }

    /** Besides, no argument lists have met in it. */
    twostate predicate Clear(c: Context)
      reads this
    {
      old(Trusted(c)) && clash.None?
    }

    /** No argument lists have met, and all that is recorded and remembered is tidy. */
    ghost predicate Quiet()
      reads this`clash, this`memo, this`asked
    {
      clash.None? && (forall k :: k in asked ==> AllTidy(asked[k])) && forall k :: k in memo ==> Tidy(memo[k])
    }

    /** The sets of the constants are sorted and stay so, and this was so of all that was recorded. */
    twostate predicate Calm(c: Context)
      reads this
    {
      TidyContext(c) && old(Quiet())
    }

    twostate predicate Grown()
      reads this
    {
      && steps <= old(steps) && Recorded() && (old(clash).Some? ==> clash == old(clash))
      && forall k :: k in old(asked) ==> k in asked && asked[k] == old(asked[k])
    }

    /** What an evaluation that does not fail leaves as it was. */
    twostate predicate Kept()
      reads this
    {
      && stack == old(stack) && active == old(active) && steps <= old(steps)
      && forall k :: k in old(memo) ==> k in memo && memo[k] == old(memo[k])
    }

    /** Only steps have been used. */
    twostate predicate Untouched()
      reads this
    {
      && depth == old(depth) && alloc == old(alloc) && nodes == old(nodes) && stack == old(stack) && memo == old(memo)
      && active == old(active)
    }

    /** A short call has been answered, at a cost of some steps. */
    twostate predicate Answered(c: Context, r: Res<Value>, f: Name, args: seq<Value>, cost: nat)
      requires ShortBody(c, f, args)
      reads this
    {
      && r == Val(AnswerTo(c, old(memo), f, args)) && memo == old(memo)[KeyOf(f, args) := r.v] && steps + cost >= old(steps)
      && depth == old(depth) && alloc == old(alloc) && nodes == old(nodes) && stack == old(stack) && active == old(active)
    }

    ghost predicate CycleKnown<T>(r: Res<T>)
      reads this
    {
      IsCycle(r) && clash.None? ==> KeyOf(r.e.f, r.e.args) in asked && asked[KeyOf(r.e.f, r.e.args)] == r.e.args
    }

    constructor ()
      ensures steps == MAX_STEPS && depth == 0 && alloc == 0 && nodes == 0 && stack == [] && memo == map[] && active == {}
      ensures asked == map[] && clash == None
    {
      steps, depth, alloc, nodes, stack, memo, active := MAX_STEPS, 0, 0, 0, [], map[], {};
      asked, clash := map[], None;
    }

    method Tick() returns (ok: bool)
      modifies this`steps
      ensures ok == (old(steps) > 0) && steps == if ok then old(steps) - 1 else old(steps)
    {
      ok := steps > 0;
      if ok {
        steps := steps - 1;
      }
    }

    method Charge(bytes: nat, count: nat) returns (e: Option<Error>)
      modifies this`alloc, this`nodes
      ensures alloc == old(alloc) + bytes && nodes == old(nodes) + count
      ensures e == if alloc > MAX_ALLOC then Some(AllocLimit) else if nodes > MAX_NODES then Some(NodeLimit) else None
    {
      alloc, nodes := alloc + bytes, nodes + count;
      e := if alloc > MAX_ALLOC then Some(AllocLimit) else if nodes > MAX_NODES then Some(NodeLimit) else None;
    }

    method Enter(f: Name) returns (ok: bool)
      modifies this`depth, this`stack
      ensures depth == old(depth) + 1 && ok == (depth <= MAX_DEPTH) && stack == if ok then old(stack) + [f] else old(stack)
    {
      depth := depth + 1;
      ok := depth <= MAX_DEPTH;
      if ok {
        stack := stack + [f];
      }
    }

    method Leave()
      modifies this`depth, this`stack
      ensures stack == if old(stack) == [] then [] else old(stack)[..|old(stack)| - 1]
      ensures depth == if old(depth) == 0 then 0 else old(depth) - 1
    {
      if stack != [] {
        stack := stack[..|stack| - 1];
      }
      depth := if depth == 0 then 0 else depth - 1;
    }

    // ----- expressions -----

    /** `Err`: a limit, a cycle, or the plain fault; on anything else the state is restored. */
    method Eval(c: Context, e: Expr, l: Locals) returns (r: Res<Value>, ghost d: nat)
      requires Good()
      modifies this
      ensures Grown() && (!r.Err? ==> Good() && Kept() && steps < old(steps))
      ensures Known(c, e, l) && old(steps) >= 1 ==> r == Val(Lookup(c, e, l)) && steps == old(steps) - 1 && Untouched()
      ensures ShortCall(c, e, l) && old(steps) >= Length(e.args) + 3 && old(depth) < MAX_DEPTH ==>
                var args := LookupAll(c, e.args, l);
                KeyOf(e.f, args) !in old(active) ==> Answered(c, r, e.f, args, Length(e.args) + 3)
      ensures Sure(c) ==> Agrees(r, PlainExpr(c, e, l, d)) && (!r.Err? ==> Trusted(c)) && CycleKnown(r)
      ensures Clear(c) && IsCycle(r) ==> forall n: nat :: !PlainExpr(c, e, l, n).Deep? ==> Runs(c, r, old(active), n)
      ensures Calm(c) && TidyLocals(l) ==> Quiet() && (r.Val? ==> Tidy(r.v))
      decreases steps, 1, e, 0
    {
      hide OrderBlind, Tidy, TidyContext, Quiet, TidyLocals, AllTidy, Recorded, Remembered, Runs, LookupAll, ArgsText,
           PlainExprs, PlainApply, ShortBody, BodyValue;
      d := 0;
      var ok := Tick();
      if !ok {
        return Err(StepLimit), 0;
      }
      if e.Const? {
        AtomTidy(e.v);
        r := Val(e.v);
        if e.v.Text? {
          var over := Charge(c.ops.size(e.v.s), 1);
          if over.Some? { r := Err(over.value); }
        }
      } else if e.Var? {
        if TidyContext(c) && TidyLocals(l) { NameTidy(c, e.x, l); }
        r := if e.x in l.values then Val(l.values[e.x]) else if e.x in c.values then Val(c.values[e.x]) else Dynamic;
      } else if e.Runtime? {
        r := Dynamic;
      } else {
        r, d := EvalParts(c, e, l);
      }
    }

    /** Expressions that have parts. */
    method EvalParts(c: Context, e: Expr, l: Locals) returns (r: Res<Value>, ghost d: nat)
      requires Good() && !e.Const? && !e.Var? && !e.Runtime?
      modifies this
      ensures Grown() && (!r.Err? ==> Good() && Kept())
      ensures ShortCall(c, e, l) && old(steps) >= Length(e.args) + 2 && old(depth) < MAX_DEPTH ==>
                var args := LookupAll(c, e.args, l);
                KeyOf(e.f, args) !in old(active) ==> Answered(c, r, e.f, args, Length(e.args) + 2)
      ensures Sure(c) ==> Agrees(r, PlainExpr(c, e, l, d)) && (!r.Err? ==> Trusted(c)) && CycleKnown(r)
      ensures Clear(c) && IsCycle(r) ==> forall n: nat :: !PlainExpr(c, e, l, n).Deep? ==> Runs(c, r, old(active), n)
      ensures Calm(c) && TidyLocals(l) ==> Quiet() && (r.Val? ==> Tidy(r.v))
      decreases steps, 5, e, 0
    {
      hide OrderBlind, Tidy, TidyContext, Quiet, TidyLocals, AllTidy, Recorded, Remembered, Runs, LookupAll, ArgsText,
           PlainExprs, PlainApply, ShortBody, BodyValue, Trusted;
      match e
      case TupleOf(_) => r, d := EvalItems(c, e, l);
      case ListOf(_) => r, d := EvalItems(c, e, l);
      case Unary(op, a) =>
        r, d := Eval(c, a, l);
        if r.Val? {
          UnaryTidy(c, op, r.v);
          r := Of(c.ops.unary(op, r.v));
        }
      case Binary(_, _, _) => r, d := EvalBinary(c, e, l);
      case IfElse(_, _, _) => r, d := EvalIfElse(c, e, l);
      case Index(_, _) => r, d := EvalIndex(c, e, l);
      case Call(_, _) => r, d := EvalCall(c, e, l);
    }

    static function Of(a: Answer): Res<Value> {
      match a
      case Got(v) => Val(v)
      case Bad(id) => Err(Fault(Operator(id)))
    }

    method Required(c: Context, e: Expr, l: Locals) returns (r: Res<Value>, ghost d: nat)
      requires Good()
      modifies this
      ensures Grown() && !r.Dynamic? && (!r.Err? ==> Good() && Kept() && steps < old(steps))
      ensures Known(c, e, l) && old(steps) >= 1 ==> r == Val(Lookup(c, e, l)) && steps == old(steps) - 1 && Untouched()
      ensures ShortCall(c, e, l) && old(steps) >= Length(e.args) + 3 && old(depth) < MAX_DEPTH ==>
                var args := LookupAll(c, e.args, l);
                KeyOf(e.f, args) !in old(active) ==> Answered(c, r, e.f, args, Length(e.args) + 3)
      ensures Sure(c) ==> Agrees(r, PlainExpr(c, e, l, d).Needed()) && (!r.Err? ==> Trusted(c)) && CycleKnown(r)
      ensures Clear(c) && IsCycle(r) ==> forall n: nat :: !PlainExpr(c, e, l, n).Deep? ==> Runs(c, r, old(active), n)
      ensures Calm(c) && TidyLocals(l) ==> Quiet() && (r.Val? ==> Tidy(r.v))
      decreases steps, 1, e, 1
    {
      hide OrderBlind, Tidy, TidyContext, Quiet, TidyLocals, AllTidy;
      r, d := Eval(c, e, l);
      r := r.Needed();
    }

    method EvalBinary(c: Context, e: Expr, l: Locals) returns (r: Res<Value>, ghost d: nat)
      requires Good() && e.Binary?
      modifies this
      ensures Grown() && (!r.Err? ==> Good() && Kept())
      ensures Sure(c) ==> Agrees(r, PlainExpr(c, e, l, d)) && (!r.Err? ==> Trusted(c)) && CycleKnown(r)
      ensures Clear(c) && IsCycle(r) ==> forall n: nat :: !PlainExpr(c, e, l, n).Deep? ==> Runs(c, r, old(active), n)
      ensures Calm(c) && TidyLocals(l) ==> Quiet() && (r.Val? ==> Tidy(r.v))
      decreases steps, 1, e, 0
    {
      hide OrderBlind, Tidy, TidyContext, Quiet, TidyLocals, AllTidy, Recorded, Remembered, Trusted, PlainStmt, Runs,
           PlainCall, ShortBody, PlainExprs;
      r, d := Eval(c, e.left, l);
      if !r.Val? || (e.bop.And? && !Truthy(c.ops, r.v)) || (e.bop.Or? && Truthy(c.ops, r.v)) {
        return;
      }
      var left, d1 := r.v, d;
      r, d := Eval(c, e.right, l);
      ghost var top := Max(d1, d);
      if Sure(c) {
        forall n: nat | Clear(c) && IsCycle(r) && !PlainExpr(c, e, l, n).Deep? ensures Runs(c, r, old(active), n) {
          SameExpr(c, e.left, l, n, d1);
        }
        CarryExpr(true, c, c, e.left, l, d1, top);
        CarryExpr(true, c, c, e.right, l, d, top);
      }
      d := top;
      if r.Val? && e.bop.Plain? {
        BinaryTidy(c, e.bop.op, left, r.v);
        r := Of(c.ops.binary(e.bop.op, left, r.v));
      }
    }

    method EvalIfElse(c: Context, e: Expr, l: Locals) returns (r: Res<Value>, ghost d: nat)
      requires Good() && e.IfElse?
      modifies this
      ensures Grown() && (!r.Err? ==> Good() && Kept())
      ensures Sure(c) ==> Agrees(r, PlainExpr(c, e, l, d)) && (!r.Err? ==> Trusted(c)) && CycleKnown(r)
      ensures Clear(c) && IsCycle(r) ==> forall n: nat :: !PlainExpr(c, e, l, n).Deep? ==> Runs(c, r, old(active), n)
      ensures Calm(c) && TidyLocals(l) ==> Quiet() && (r.Val? ==> Tidy(r.v))
      decreases steps, 1, e, 0
    {
      hide OrderBlind, Tidy, TidyContext, Quiet, TidyLocals, AllTidy;
      r, d := Eval(c, e.cond, l);
      if !r.Val? {
        return;
      }
      var d1 := d;
      var branch := if Truthy(c.ops, r.v) then e.thn else e.els;
      r, d := Eval(c, branch, l);
      ghost var top := Max(d1, d);
      if Sure(c) {
        forall n: nat | Clear(c) && IsCycle(r) && !PlainExpr(c, e, l, n).Deep? ensures Runs(c, r, old(active), n) {
          SameExpr(c, e.cond, l, n, d1);
        }
        CarryExpr(true, c, c, e.cond, l, d1, top);
        CarryExpr(true, c, c, branch, l, d, top);
      }
      d := top;
    }

    method EvalIndex(c: Context, e: Expr, l: Locals) returns (r: Res<Value>, ghost d: nat)
      requires Good() && e.Index?
      modifies this
      ensures Grown() && (!r.Err? ==> Good() && Kept())
      ensures Sure(c) ==> Agrees(r, PlainExpr(c, e, l, d)) && (!r.Err? ==> Trusted(c)) && CycleKnown(r)
      ensures Clear(c) && IsCycle(r) ==> forall n: nat :: !PlainExpr(c, e, l, n).Deep? ==> Runs(c, r, old(active), n)
      ensures Calm(c) && TidyLocals(l) ==> Quiet() && (r.Val? ==> Tidy(r.v))
      decreases steps, 1, e, 0
    {
      hide OrderBlind, Tidy, TidyContext, Quiet, TidyLocals, AllTidy, Recorded, Remembered;
      r, d := Required(c, e.obj, l);
      if !r.Val? {
        return;
      }
      var obj, d1 := r.v, d;
      r, d := Required(c, e.idx, l);
      ghost var top := Max(d1, d);
      if Sure(c) {
        forall n: nat | Clear(c) && IsCycle(r) && !PlainExpr(c, e, l, n).Deep? ensures Runs(c, r, old(active), n) {
          SameExpr(c, e.obj, l, n, d1);
        }
        CarryExpr(true, c, c, e.obj, l, d1, top);
        CarryExpr(true, c, c, e.idx, l, d, top);
      }
      d := top;
      if r.Val? {
        IndexTidy(c, obj, r.v);
        r := Of(c.ops.index(obj, r.v));
      }
    }

    method EvalItems(c: Context, e: Expr, l: Locals) returns (r: Res<Value>, ghost d: nat)
      requires Good() && (e.TupleOf? || e.ListOf?)
      modifies this
      ensures Grown() && (!r.Err? ==> Good() && Kept())
      ensures Sure(c) ==> Agrees(r, PlainExpr(c, e, l, d)) && (!r.Err? ==> Trusted(c)) && CycleKnown(r)
      ensures Clear(c) && IsCycle(r) ==> forall n: nat :: !PlainExpr(c, e, l, n).Deep? ==> Runs(c, r, old(active), n)
      ensures Calm(c) && TidyLocals(l) ==> Quiet() && (r.Val? ==> Tidy(r.v))
      decreases steps, 1, e, 0
    {
      hide OrderBlind, Tidy, TidyContext, Quiet, TidyLocals, AllTidy;
      var all;
      all, d := EvalAll(c, e.es, l, e.ListOf?);
      if !all.Val? {
        return all.Cast(), d;
      }
      CollectionTidy(all.v);
      var over := Charge(16 * |all.v|, |all.v| + 1);
      r := if over.Some? then Err(over.value) else if e.ListOf? then Val(List(all.v)) else Val(Tuple(all.v));
    }

    method EvalAll(c: Context, es: Exprs, l: Locals, needed: bool) returns (r: Res<seq<Value>>, ghost d: nat)
      requires Good()
      modifies this
      ensures Grown() && (!r.Err? ==> Good() && Kept())
      ensures AllKnown(c, es, l) && old(steps) >= Length(es) ==>
                r == Val(LookupAll(c, es, l)) && steps == old(steps) - Length(es) && Untouched()
      ensures Sure(c) ==> Agrees(r, PlainExprs(c, es, l, d, needed)) && (!r.Err? ==> Trusted(c)) && CycleKnown(r)
      ensures Clear(c) && IsCycle(r) ==> forall n: nat :: !PlainExprs(c, es, l, n, needed).Deep? ==> Runs(c, r, old(active), n)
      ensures Calm(c) && TidyLocals(l) ==> Quiet() && (r.Val? ==> AllTidy(r.v))
      decreases steps, 1, es, 0
    {
      hide Agrees, Max, ItemsAt, LookedUp, AllKnown, LookupAll, Known, Lookup, PlainExprs, OrderBlind, Tidy,
           TidyContext, Quiet, TidyLocals, Recorded, Remembered, PlainStmt, PlainBlock, PlainCall, Trusted, PlainExpr;
      var vs: seq<Value> := [];
      var rest := es;
      d := 0;
      ItemsStart(c, es, l, needed);
      if AllKnown(c, es, l) { LookedUpStart(c, es, l); }
      while rest.MoreExpr?
        invariant Good() && Kept() && Grown() && (rest == es || steps < old(steps)) && (Sure(c) ==> Trusted(c))
        invariant Calm(c) && TidyLocals(l) ==> Quiet() && AllTidy(vs)
        invariant Sure(c) ==> ItemsAt(c, es, l, needed, vs, rest, d)
        invariant AllKnown(c, es, l) && old(steps) >= Length(es) ==>
                    LookedUp(c, es, l, vs, rest) && steps == old(steps) - Length(es) + Length(rest) && Untouched()
        decreases rest
      {
        var one;
        ghost var d1;
        if LookedUp(c, es, l, vs, rest) { LookedUpStep(c, es, l, vs, rest); }
        one, d1 := Eval(c, rest.head, l);
        if Sure(c) { ItemStep(c, es, rest, l, needed, vs, one, d, d1); }
        d := Max(d, d1);
        if !one.Val? {
          return (if needed then one.Needed() else one).Cast(), d;
        }
        vs := vs + [one.v];
        rest := rest.tail;
      }
      if Sure(c) { ItemsEnd(c, es, l, needed, vs, d); }
      if LookedUp(c, es, l, vs, rest) { LookedUpStep(c, es, l, vs, rest); }
      r := Val(vs);
    }

    // ----- calls -----

    method EvalCall(c: Context, e: Expr, l: Locals) returns (r: Res<Value>, ghost d: nat)
      requires Good() && e.Call?
      modifies this
      ensures Grown() && (!r.Err? ==> Good() && Kept())
      ensures ShortCall(c, e, l) && old(steps) >= Length(e.args) + 2 && old(depth) < MAX_DEPTH ==>
                var args := LookupAll(c, e.args, l);
                KeyOf(e.f, args) !in old(active) ==> Answered(c, r, e.f, args, Length(e.args) + 2)
      ensures Sure(c) ==> Agrees(r, PlainExpr(c, e, l, d)) && (!r.Err? ==> Trusted(c)) && CycleKnown(r)
      ensures Clear(c) && IsCycle(r) ==> forall n: nat :: !PlainExpr(c, e, l, n).Deep? ==> Runs(c, r, old(active), n)
      ensures Calm(c) && TidyLocals(l) ==> Quiet() && (r.Val? ==> Tidy(r.v))
      decreases steps, 4, e, 0
    {
      hide OrderBlind, Tidy, TidyContext, Quiet, TidyLocals, AllTidy, Recorded, Remembered, ArgsText;
      var args;
      args, d := EvalAll(c, e.args, l, false);
      if !args.Val? {
        return args.Cast(), d;
      }
      if c.ops.isBuiltin(e.f) {
        BuiltinTidy(c, e.f, args.v);
        return Of(c.ops.builtin(e.f, args.v)), d;
      }
      if e.f !in c.functions {
        return Dynamic, d;
      }
      ghost var d1 := d;
      r, d := EvalApply(c, e.f, args.v);
      ghost var top := Max(d1, d);
      if Sure(c) {
        forall n: nat | Clear(c) && IsCycle(r) && !PlainExpr(c, e, l, n).Deep? ensures Runs(c, r, old(active), n) {
          SameExprs(c, e.args, l, n, d1, false);
        }
        CarryExprs(true, c, c, e.args, l, d1, top, false);
        CarryApply(true, c, c, e.f, args.v, d, top);
      }
      d := top;
    }

    method EvalApply(c: Context, f: Name, args: seq<Value>) returns (r: Res<Value>, ghost d: nat)
      requires Good() && f in c.functions
      modifies this
      ensures Grown() && (!r.Err? ==> Good() && Kept())
      ensures ShortBody(c, f, args) && old(steps) >= 2 && old(depth) < MAX_DEPTH && KeyOf(f, args) !in old(active) ==>
                Answered(c, r, f, args, 2)
      ensures Sure(c) ==> Agrees(r, PlainApply(c, f, args, d)) && (!r.Err? ==> Trusted(c)) && CycleKnown(r)
      ensures Clear(c) && IsCycle(r) ==> forall n: nat :: !PlainApply(c, f, args, n).Deep? ==> Runs(c, r, old(active), n)
      ensures Calm(c) && AllTidy(args) ==> Quiet() && (r.Val? ==> Tidy(r.v))
      decreases steps, 3
    {
      hide OrderBlind, Tidy, TidyContext, Quiet, TidyLocals, AllTidy, Recorded, Remembered;
      var ps := c.functions[f].params;
      var bound;
      bound, d := BindArgs(c, ps, args);
      ghost var d1 := d;
      d := d1 + 1;
      if !bound.Val? {
        forall n: nat | Clear(c) && IsCycle(bound) && !PlainApply(c, f, args, n).Deep? ensures Runs(c, bound, old(active), n) {
          RunsDeeper(c, bound, old(active), n - 1, n);
        }
        return bound.Cast(), d;
      }
      r, d := CallFunction(c, f, bound.v);
      ghost var top := Max(d1 + 1, d);
      if Sure(c) {
        forall n: nat | Clear(c) && IsCycle(r) && !PlainApply(c, f, args, n).Deep? ensures Runs(c, r, old(active), n) {
          SameBind(c, ps, args, n - 1, d1);
        }
        CarryBind(true, c, c, ps, args, d1, top - 1);
        CarryCall(true, c, c, f, bound.v, d, top);
      }
      d := top;
    }

    /** Positional arguments, then the defaults of the parameters that are left. */
    method BindArgs(c: Context, ps: Params, args: seq<Value>) returns (r: Res<seq<Value>>, ghost d: nat)
      requires Good()
      modifies this
      ensures Grown() && !r.Dynamic? && (!r.Err? ==> Good() && Kept())
      ensures Arity(ps) == |args| ==> r == Val(args) && steps == old(steps) && Untouched()
      ensures Sure(c) ==> Agrees(r, PlainBind(c, ps, args, d)) && (!r.Err? ==> Trusted(c)) && CycleKnown(r)
      ensures Clear(c) && IsCycle(r) ==> forall n: nat :: !PlainBind(c, ps, args, n).Deep? ==> Runs(c, r, old(active), n)
      ensures Calm(c) && AllTidy(args) ==> Quiet() && (r.Val? ==> AllTidy(r.v))
      decreases steps, 1, ps, 0
    {
      hide BoundAt, PlainBind, OrderBlind, Tidy, TidyContext, Quiet, TidyLocals, Recorded, Remembered, PlainStmt,
           PlainExpr, Trusted, Max, PlainBlock, PlainCall, TidyRan, TidyTaken, TidyFlow;
      var bound: seq<Value> := [];
      var rest, left := ps, args;
      d := 0;
      BoundStart(c, ps, args);
      while rest.Param?
        invariant Good() && Kept() && Grown() && (rest == ps || rest < ps) && (Sure(c) ==> Trusted(c))
        invariant Calm(c) && AllTidy(args) ==> Quiet() && AllTidy(bound) && AllTidy(left)
        invariant Sure(c) ==> BoundAt(c, ps, args, bound, rest, left, d)
        invariant Arity(ps) == |args| ==> Arity(rest) == |left| && bound + left == args && steps == old(steps) && Untouched()
        decreases rest
      {
        if left != [] {
          if Sure(c) { BoundStep(c, ps, args, rest, left, bound, d); }
          bound, left := bound + [left[0]], left[1..];
        } else if rest.default.None? {
          if Sure(c) { BoundEnd(c, ps, args, bound, rest, left, d); }
          return Err(Fault(MissingArgument)), d;
        } else {
          NoLocalsTidy();
          var one;
          ghost var d1;
          one, d1 := Required(c, rest.default.value, NO_LOCALS);
          if Sure(c) { DefaultStep(c, ps, args, rest, left, bound, one, d, d1); }
          d := Max(d, d1);
          if !one.Val? {
            return one.Cast(), d;
          }
          bound := bound + [one.v];
        }
        rest := rest.rest;
      }
      if Sure(c) { BoundEnd(c, ps, args, bound, rest, left, d); }
      assert bound + [] == bound;
      r := if left == [] then Val(bound) else Err(Fault(ExtraArguments));
    }

    /** The first arguments under a key are recorded, and the first others. */
    ghost method Ask(f: Name, args: seq<Value>)
      requires Recorded()
      modifies this`asked, this`clash
      ensures Recorded() && KeyOf(f, args) in asked && (old(clash).Some? ==> clash == old(clash))
      ensures clash.None? ==> asked[KeyOf(f, args)] == args
      ensures forall k :: k in old(asked) ==> k in asked && asked[k] == old(asked[k])
      ensures old(Quiet()) && AllTidy(args) ==> Quiet()
    {
      hide Tidy, ArgsText;
      var key := KeyOf(f, args);
      if old(Quiet()) && AllTidy(args) && key in asked { TidyTextsTell(asked[key], args); }
      if key !in asked {
        asked := asked[key := args];
      } else if asked[key] != args && clash.None? {
        clash := Some(Clash(f, asked[key], args));
      }
    }

    /** A remembered call is answered from the memo, a running one is a cycle. */
    method CallFunction(c: Context, f: Name, args: seq<Value>) returns (r: Res<Value>, ghost d: nat)
      requires Good() && f in c.functions
      modifies this
      ensures Grown() && !r.Dynamic? && (!r.Err? ==> Good() && Kept())
      ensures KeyOf(f, args) in old(memo) ==> r == Val(old(memo)[KeyOf(f, args)])
      ensures r.Val? ==> KeyOf(f, args) in memo && memo[KeyOf(f, args)] == r.v
      ensures ShortBody(c, f, args) && old(steps) >= 2 && old(depth) < MAX_DEPTH && KeyOf(f, args) !in old(active) ==>
                Answered(c, r, f, args, 2)
      ensures Sure(c) ==> Agrees(r, PlainCall(c, f, args, d)) && (!r.Err? ==> Trusted(c)) && CycleKnown(r)
      ensures Clear(c) && IsCycle(r) ==> forall n: nat :: !PlainCall(c, f, args, n).Deep? ==> Runs(c, r, old(active), n)
      ensures Calm(c) && AllTidy(args) ==> Quiet() && (r.Val? ==> Tidy(r.v))
      decreases steps, 2
    {
      hide Gives, PlainCall, ArgsText, Recorded, ShortBody, BodyValue, OrderBlind, Tidy, TidyContext, TidyLocals,
           AllTidy;
      var key := KeyOf(f, args);
      d := 0;
      Ask(f, args);
      if key in memo {
        if Sure(c) {
          SameText(f, args);
          d := HitDepth(c, f, asked[key], args, memo[key]);
        }
        return Val(memo[key]), d;
      }
      if key in active {
        return Err(Cycle(f, args)), 0;
      }
      r, d := RunCall(c, f, args);
    }

    lemma SameText(f: Name, args: seq<Value>)
      requires Recorded() && KeyOf(f, args) in asked
      ensures ArgsText(asked[KeyOf(f, args)]) == ArgsText(args)
    {
      hide ArgsText;
    }

    /** The body of a call that is neither remembered nor running. */
    method RunCall(c: Context, f: Name, args: seq<Value>) returns (r: Res<Value>, ghost d: nat)
      requires Good() && f in c.functions && KeyOf(f, args) !in memo && KeyOf(f, args) !in active
      requires KeyOf(f, args) in asked && (clash.None? ==> asked[KeyOf(f, args)] == args)
      modifies this
      ensures Grown() && !r.Dynamic? && (!r.Err? ==> Good() && Kept())
      ensures r.Val? ==> KeyOf(f, args) in memo && memo[KeyOf(f, args)] == r.v
      ensures ShortBody(c, f, args) && old(steps) >= 2 && old(depth) < MAX_DEPTH ==> Answered(c, r, f, args, 2)
      ensures Sure(c) ==> Agrees(r, PlainCall(c, f, args, d)) && (!r.Err? ==> Trusted(c)) && CycleKnown(r)
      ensures Clear(c) && IsCycle(r) ==> forall n: nat :: !PlainCall(c, f, args, n).Deep? ==> Runs(c, r, old(active), n)
      ensures Calm(c) && AllTidy(args) ==> Quiet() && (r.Val? ==> Tidy(r.v))
      decreases steps, 1
    {
      hide OrderBlind, Tidy, TidyContext, TidyLocals, AllTidy, PlainBlock, PlainCall, Runs, Gives, Entered, Recorded,
           Remembered, Known, Lookup;
      var ran;
      ran, d := RunBody(c, f, args);
      r := Outcome(ran);
      AtomTidy(Unit);
      if Sure(c) {
        CallEnds(c, f, args, ran, d);
        if Clear(c) && IsCycle(ran) { CallCycles(c, f, args, ran, old(active), asked); }
        if r.Val? {
          SameText(f, args);
          RememberOne(c, memo, asked, f, args, r.v, d + 1);
        }
      }
      d := d + 1;
      if r.Val? {
        memo := memo[KeyOf(f, args) := r.v];
      }
    }

    method RunBody(c: Context, f: Name, args: seq<Value>) returns (r: Res<(Flow, Locals)>, ghost d: nat)
      requires Good() && f in c.functions && KeyOf(f, args) !in active
      modifies this
      ensures Grown() && !r.Dynamic? && (!r.Err? ==> Good() && Kept())
      ensures ShortBody(c, f, args) && old(steps) >= 2 && old(depth) < MAX_DEPTH ==>
                r.Val? && r.v.0 == Returned(BodyValue(c, f, args)) && steps + 2 >= old(steps) && Untouched()
      ensures var l := Entered(c.functions[f].params, args, NO_LOCALS);
              && (Sure(c) ==> Agrees(r, PlainBlock(c, c.functions[f].body, l, true, d)) && (!r.Err? ==> Trusted(c)) && CycleKnown(r))
              && (Clear(c) && IsCycle(r) ==> forall n: nat :: !PlainBlock(c, c.functions[f].body, l, true, n).Deep?
                                                 ==> Runs(c, r, old(active) + {KeyOf(f, args)}, n))
      ensures Calm(c) && AllTidy(args) ==> Quiet() && (r.Val? ==> TidyRan(r.v))
      decreases steps, 1, c.functions[f].body, 1
    {
      hide OrderBlind, Tidy, TidyContext, Quiet, AllTidy, PlainBlock, Runs, Entered, Recorded, Remembered;
      var key := KeyOf(f, args);
      active := active + {key};
      var ok := Enter(f);
      if !ok {
        return Err(DepthLimit), 0;
      }
      var l := EnterLocals(c.functions[f].params, args);
      if AllTidy(args) { EnteredTidy(c.functions[f].params, args, NO_LOCALS); }
      r, d := ExecBlock(c, c.functions[f].body, l, true);
      Leave();
      active := active - {key};
    }

    method EnterLocals(ps: Params, args: seq<Value>) returns (l: Locals)
      ensures l == Entered(ps, args, NO_LOCALS)
    {
      l := NO_LOCALS;
      var rest, left := ps, args;
      while rest.Param? && left != []
        invariant Entered(ps, args, NO_LOCALS) == Entered(rest, left, l)
        decreases rest
      {
        l := l.Set(rest.x, left[0]);
        rest, left := rest.rest, left[1..];
      }
    }

    // ----- statements -----

    method ExecBlock(c: Context, b: Block, l: Locals, asValue: bool) returns (r: Res<(Flow, Locals)>, ghost d: nat)
      requires Good()
      modifies this
      ensures Grown() && !r.Dynamic? && (!r.Err? ==> Good() && Kept())
      ensures b.Cons? && b.head.Eval? && b.tail.Nil? && asValue && Known(c, b.head.e, l) && old(steps) >= 2 ==>
                r == Val((Returned(Lookup(c, b.head.e, l)), l)) && steps == old(steps) - 2 && Untouched()
      ensures Sure(c) ==> Agrees(r, PlainBlock(c, b, l, asValue, d)) && (!r.Err? ==> Trusted(c)) && CycleKnown(r)
      ensures Clear(c) && IsCycle(r) ==> forall n: nat :: !PlainBlock(c, b, l, asValue, n).Deep? ==> Runs(c, r, old(active), n)
      ensures Calm(c) && TidyLocals(l) ==> Quiet() && (r.Val? ==> TidyRan(r.v))
      decreases steps, 1, b, 0
    {
      hide BlockAt, PlainBlock, OrderBlind, Tidy, TidyContext, Quiet, TidyLocals, AllTidy, Recorded, Remembered,
           PlainStmt, Max, Runs, Known;
      var rest, cur := b, l;
      d := 0;
      BlockStart(c, b, l, asValue);
      while rest.Cons?
        invariant Good() && Kept() && Grown() && (Sure(c) ==> Trusted(c))
        invariant Calm(c) && TidyLocals(l) ==> Quiet() && TidyLocals(cur)
        invariant b.Cons? && b.head.Eval? && b.tail.Nil? && asValue && Known(c, b.head.e, l) && old(steps) >= 2 ==>
                    rest == b && cur == l && steps == old(steps) && Untouched()
        invariant Sure(c) ==> BlockAt(c, b, l, asValue, rest, cur, d)
        decreases rest
      {
        var tail := asValue && !rest.head.Comment? && OnlyComments(rest.tail);
        var ok := Tick();
        if !ok {
          return Err(StepLimit), d;
        }
        var one;
        ghost var d1;
        one, d1 := ExecStmt(c, rest.head, cur, tail);
        if Sure(c) { BlockStep(c, b, l, asValue, rest, cur, one, d, d1); }
        d := Max(d, d1);
        if one.Err? || !one.v.0.Normal? {
          return one, d;
        }
        rest, cur := rest.tail, one.v.1;
      }
      if Sure(c) { BlockEnd(c, b, l, asValue, cur, d); }
      r := Val((Normal, cur));
    }

    method ExecStmt(c: Context, s: Stmt, l: Locals, tail: bool) returns (r: Res<(Flow, Locals)>, ghost d: nat)
      requires Good()
      modifies this
      ensures Grown() && !r.Dynamic? && (!r.Err? ==> Good() && Kept())
      ensures s.Eval? && tail && Known(c, s.e, l) && old(steps) >= 1 ==>
                r == Val((Returned(Lookup(c, s.e, l)), l)) && steps == old(steps) - 1 && Untouched()
      ensures Sure(c) ==> Agrees(r, PlainStmt(c, s, l, tail, d)) && (!r.Err? ==> Trusted(c)) && CycleKnown(r)
      ensures Clear(c) && IsCycle(r) ==> forall n: nat :: !PlainStmt(c, s, l, tail, n).Deep? ==> Runs(c, r, old(active), n)
      ensures Calm(c) && TidyLocals(l) ==> Quiet() && (r.Val? ==> TidyRan(r.v))
      decreases steps, 1, s, 2
    {
      hide OrderBlind, Tidy, TidyContext, Quiet, TidyLocals, AllTidy;
      d := 0;
      AtomTidy(Unit);
      match s
      case Comment => r := Val((Normal, l));
      case Return(result) =>
        if result.None? { r := Val((Returned(Unit), l)); } else { r, d := ExecOne(c, s, result.value, l, tail); }
      case Let(x, e, isVar) => r, d := ExecOne(c, s, e, l, tail);
      case Assign(x, e) =>
        if x !in l.values { r := Err(Fault(NotAllowed)); }
        else if x !in l.mutable { r := Err(Fault(Immutable)); }
        else { r, d := ExecOne(c, s, e, l, tail); }
      case Eval(e) => r, d := ExecOne(c, s, e, l, tail);
      case If(arms, els) => r, d := ExecIf(c, s, l, tail);
      case While(lbl, g, body) => r, d := ExecWhile(c, s, l, tail);
      case Loop(lbl, count, body) => r, d := ExecLoop(c, s, l, tail);
      case For(lbl, x, iterable, body, els) => r, d := ExecFor(c, s, l, tail);
      case Break(lbl) => r := Val((Broke(lbl), l));
      case Continue(lbl) => r := Val((Continued(lbl), l));
      case Inner(body) => r, d := ExecBlock(c, body, l, tail);
      case Forbidden => r := Err(Fault(NotAllowed));
    }

    /** Statements of one expression. */
    method ExecOne(c: Context, s: Stmt, e: Expr, l: Locals, tail: bool) returns (r: Res<(Flow, Locals)>, ghost d: nat)
      requires Good() && (s == Return(Some(e)) || (s.Let? && s.e == e) || (s.Assign? && s.e == e) || s == Stmt.Eval(e))
      requires s.Assign? ==> s.x in l.values && s.x in l.mutable
      modifies this
      ensures Grown() && !r.Dynamic? && (!r.Err? ==> Good() && Kept())
      ensures s.Eval? && tail && Known(c, s.e, l) && old(steps) >= 1 ==>
                r == Val((Returned(Lookup(c, s.e, l)), l)) && steps == old(steps) - 1 && Untouched()
      ensures Sure(c) ==> Agrees(r, PlainStmt(c, s, l, tail, d)) && (!r.Err? ==> Trusted(c)) && CycleKnown(r)
      ensures Clear(c) && IsCycle(r) ==> forall n: nat :: !PlainStmt(c, s, l, tail, n).Deep? ==> Runs(c, r, old(active), n)
      ensures Calm(c) && TidyLocals(l) ==> Quiet() && (r.Val? ==> TidyRan(r.v))
      decreases steps, 1, s, 0
    {
      hide OrderBlind, Tidy, TidyContext, Quiet, AllTidy;
      var v;
      v, d := Required(c, e, l);
      if !v.Val? {
        return v.Cast(), d;
      }
      if s.Return? {
        r := Val((Returned(v.v), l));
      } else if s.Let? {
        r := Val((Normal, l.Bind(s.x, v.v, s.isVar)));
      } else if s.Assign? {
        r := Val((Normal, l.Set(s.x, v.v)));
      } else {
        r := Val((if tail then Returned(v.v) else Normal, l));
      }
    }

    method ExecIf(c: Context, s: Stmt, l: Locals, tail: bool) returns (r: Res<(Flow, Locals)>, ghost d: nat)
      requires Good() && s.If?
      modifies this
      ensures Grown() && !r.Dynamic? && (!r.Err? ==> Good() && Kept())
      ensures Sure(c) ==> Agrees(r, PlainStmt(c, s, l, tail, d)) && (!r.Err? ==> Trusted(c)) && CycleKnown(r)
      ensures Clear(c) && IsCycle(r) ==> forall n: nat :: !PlainStmt(c, s, l, tail, n).Deep? ==> Runs(c, r, old(active), n)
      ensures Calm(c) && TidyLocals(l) ==> Quiet() && (r.Val? ==> TidyRan(r.v))
      decreases steps, 1, s, 0
    {
      hide OrderBlind, Tidy, TidyContext, Quiet, TidyLocals, AllTidy;
      var chosen;
      chosen, d := ExecArms(c, s.arms, l, tail);
      if !chosen.Val? {
        return chosen.Cast(), d;
      }
      if chosen.v.0.Some? {
        return Val((chosen.v.0.value, chosen.v.1)), d;
      }
      if s.els.None? {
        return Val((Normal, chosen.v.1)), d;
      }
      ghost var d1 := d;
      r, d := ExecBlock(c, s.els.value, chosen.v.1, tail);
      if Sure(c) { ElseStep(c, s, l, tail, chosen.v.1, r, d1, d); }
      d := Max(d1, d);
    }

    method ExecArms(c: Context, arms: Arms, l: Locals, tail: bool) returns (r: Res<(Option<Flow>, Locals)>, ghost d: nat)
      requires Good()
      modifies this
      ensures Grown() && !r.Dynamic? && (!r.Err? ==> Good() && Kept())
      ensures Sure(c) ==> Agrees(r, PlainArms(c, arms, l, tail, d)) && (!r.Err? ==> Trusted(c)) && CycleKnown(r)
      ensures Clear(c) && IsCycle(r) ==> forall n: nat :: !PlainArms(c, arms, l, tail, n).Deep? ==> Runs(c, r, old(active), n)
      ensures Calm(c) && TidyLocals(l) ==> Quiet() && (r.Val? ==> TidyTaken(r.v))
      decreases steps, 1, arms, 0
    {
      hide ArmsAt, ArmIn, OrderBlind, Tidy, TidyContext, Quiet, TidyLocals, AllTidy, PlainExpr, PlainBlock, PlainArms,
           Recorded, Remembered, Truthy, Trusted;
      var rest := arms;
      d := 0;
      ArmsStart(c, arms, l, tail);
      while true
        invariant Good() && Kept() && Grown() && (rest == arms || rest < arms) && (Sure(c) ==> Trusted(c))
        invariant Calm(c) && TidyLocals(l) ==> Quiet()
        invariant Sure(c) ==> ArmsAt(c, arms, l, tail, rest, d)
        decreases rest
      {
        var g;
        ghost var d1;
        g, d1 := Required(c, rest.cond, l);
        if Sure(c) { ArmStep(c, arms, rest, l, tail, g, d, d1); }
        d := Max(d, d1);
        if !g.Val? {
          return g.Cast(), d;
        }
        if Truthy(c.ops, g.v) {
          var b;
          ghost var d2;
          b, d2 := ExecBlock(c, rest.body, l, tail);
          if Sure(c) { ArmEnd(c, arms, l, tail, rest.body, b, d, d2); }
          d := Max(d, d2);
          return if b.Val? then Val((Some(b.v.0), b.v.1)) else b.Cast(), d;
        }
        if rest.LastArm? {
          return Val((None, l)), d;
        }
        rest := rest.rest;
      }
    }

    method ExecWhile(c: Context, s: Stmt, l: Locals, tail: bool) returns (r: Res<(Flow, Locals)>, ghost d: nat)
      requires Good() && s.While?
      modifies this
      ensures Grown() && !r.Dynamic? && (!r.Err? ==> Good() && Kept())
      ensures Sure(c) ==> Agrees(r, PlainStmt(c, s, l, tail, d)) && (!r.Err? ==> Trusted(c)) && CycleKnown(r)
      ensures Clear(c) && IsCycle(r) ==> forall n: nat :: !PlainStmt(c, s, l, tail, n).Deep? ==> Runs(c, r, old(active), n)
      ensures Calm(c) && TidyLocals(l) ==> Quiet() && (r.Val? ==> TidyRan(r.v))
      decreases steps, 1, s, 1
    {
      hide OrderBlind, Tidy, TidyContext, Quiet, TidyLocals, AllTidy, PlainRound, PlainWhile, PlainCall, WhileAt,
           Remembered, Recorded;
      assert WhileAt(c, s, l, l, 0, 0) by { WhileStart(c, s, l); }
      var cur := l;
      ghost var k := 0;
      d := 0;
      while true
        invariant Good() && Kept() && Grown() && (Sure(c) ==> Trusted(c) && WhileAt(c, s, l, cur, k, d))
        invariant Calm(c) && TidyLocals(l) ==> Quiet() && TidyLocals(cur)
        decreases steps
      {
        var one;
        ghost var d1;
        one, d1 := ExecRound(c, s, cur);
        if Sure(c) { RoundStep(c, s, l, cur, k, one, d, d1); }
        d := Max(d, d1 + 1);
        if one.Err? {
          forall n: nat | Clear(c) && IsCycle(one) && !PlainStmt(c, s, l, tail, n).Deep? ensures Runs(c, one, old(active), n) {
            assert !PlainWhile(c, s.lbl, s.cond, s.body, l, n).Deep?;
            RunsDeeper(c, one, old(active), n - 1 - k, n);
          }
          return Err(one.e), d + k;
        }
        if one.v.0.Some? {
          return Val((one.v.0.value, one.v.1)), d + k;
        }
        cur, k := one.v.1, k + 1;
      }
    }

    /** The condition, and if it holds the body. */
    method ExecRound(c: Context, s: Stmt, l: Locals) returns (r: Res<(Option<Flow>, Locals)>, ghost d: nat)
      requires Good() && s.While?
      modifies this
      ensures Grown() && !r.Dynamic? && (!r.Err? ==> Good() && Kept() && steps < old(steps))
      ensures Sure(c) ==> Agrees(r, PlainRound(c, s, l, d)) && (!r.Err? ==> Trusted(c)) && CycleKnown(r)
      ensures Clear(c) && IsCycle(r) ==> forall n: nat :: !PlainRound(c, s, l, n).Deep? ==> Runs(c, r, old(active), n)
      ensures Calm(c) && TidyLocals(l) ==> Quiet() && (r.Val? ==> TidyTaken(r.v))
      decreases steps, 1, s, 0
    {
      hide OrderBlind, Tidy, TidyContext, Quiet, TidyLocals, AllTidy, PlainExpr, PlainBlock, Remembered, Recorded,
           Truthy;
      var g;
      g, d := Required(c, s.cond, l);
      if !g.Val? {
        return g.Cast(), d;
      }
      if !Truthy(c.ops, g.v) {
        return Val((Some(Normal), l)), d;
      }
      ghost var d1 := d;
      var b;
      b, d := ExecBlock(c, s.body, l, false);
      ghost var top := Max(d1, d);
      if Sure(c) {
        forall n: nat | Clear(c) && IsCycle(b) && !PlainRound(c, s, l, n).Deep? ensures Runs(c, b, old(active), n) {
          SameExpr(c, s.cond, l, n, d1);
        }
        CarryExpr(true, c, c, s.cond, l, d1, top);
        CarryBlock(true, c, c, s.body, l, false, d, top);
      }
      d := top;
      r := if b.Val? then Val(Turned(b.v, s.lbl)) else Err(b.e);
    }

    method ExecLoop(c: Context, s: Stmt, l: Locals, tail: bool) returns (r: Res<(Flow, Locals)>, ghost d: nat)
      requires Good() && s.Loop?
      modifies this
      ensures Grown() && !r.Dynamic? && (!r.Err? ==> Good() && Kept())
      ensures Sure(c) ==> Agrees(r, PlainStmt(c, s, l, tail, d)) && (!r.Err? ==> Trusted(c)) && CycleKnown(r)
      ensures Clear(c) && IsCycle(r) ==> forall n: nat :: !PlainStmt(c, s, l, tail, n).Deep? ==> Runs(c, r, old(active), n)
      ensures Calm(c) && TidyLocals(l) ==> Quiet() && (r.Val? ==> TidyRan(r.v))
      decreases steps, 1, s, 0
    {
      hide OrderBlind, Tidy, TidyContext, Quiet, TidyLocals, AllTidy;
      d := 0;
      if s.count.None? {
        r, d := Repeat(c, s.lbl, s.body, MAX_COUNT, l);
        return;
      }
      var v;
      v, d := Required(c, s.count.value, l);
      if !v.Val? {
        return v.Cast(), d;
      }
      var count := CountOf(v.v);
      if !count.Done? {
        return Err(Fault(count.fault)), d;
      }
      ghost var d1 := d;
      r, d := Repeat(c, s.lbl, s.body, count.v, l);
      if Sure(c) { LoopCounted(c, s, l, tail, v.v, r, d1, d); }
      d := Max(d1, d);
    }

    method Repeat(c: Context, lbl: Label, body: Block, count: nat, l: Locals) returns (r: Res<(Flow, Locals)>, ghost d: nat)
      requires Good()
      modifies this
      ensures Grown() && !r.Dynamic? && (!r.Err? ==> Good() && Kept())
      ensures Sure(c) ==> Agrees(r, PlainLoop(c, lbl, body, count, l, d)) && (!r.Err? ==> Trusted(c)) && CycleKnown(r)
      ensures Clear(c) && IsCycle(r) ==> forall n: nat :: !PlainLoop(c, lbl, body, count, l, n).Deep? ==> Runs(c, r, old(active), n)
      ensures Calm(c) && TidyLocals(l) ==> Quiet() && (r.Val? ==> TidyRan(r.v))
      decreases steps, 1, body, 2
    {
      hide LoopAt, PlainLoop, PlainBlock, OrderBlind, Tidy, TidyContext, Quiet, TidyLocals, AllTidy, Recorded,
           Remembered;
      var cur, left := l, count;
      d := 0;
      LoopStart(c, lbl, body, count, l);
      while left > 0
        invariant Good() && Kept() && Grown() && (Sure(c) ==> Trusted(c) && LoopAt(c, lbl, body, count, l, left, cur, d))
        invariant Calm(c) && TidyLocals(l) ==> Quiet() && TidyLocals(cur)
      {
        var b;
        ghost var d1;
        b, d1 := ExecBlock(c, body, cur, false);
        if Sure(c) { LoopStep(c, lbl, body, count, l, left, cur, b, d, d1); }
        d := Max(d, d1);
        if b.Err? {
          return b, d;
        }
        var turn := TurnOf(b.v.0, lbl);
        if turn.LeaveWith? {
          return Val((turn.flow, b.v.1)), d;
        }
        if turn.Stop? {
          return Val((Normal, b.v.1)), d;
        }
        cur, left := b.v.1, left - 1;
      }
      if Sure(c) { LoopEnd(c, lbl, body, count, l, cur, d); }
      r := Val((Normal, cur));
    }

    method ExecFor(c: Context, s: Stmt, l: Locals, tail: bool) returns (r: Res<(Flow, Locals)>, ghost d: nat)
      requires Good() && s.For?
      modifies this
      ensures Grown() && !r.Dynamic? && (!r.Err? ==> Good() && Kept())
      ensures Sure(c) ==> Agrees(r, PlainStmt(c, s, l, tail, d)) && (!r.Err? ==> Trusted(c)) && CycleKnown(r)
      ensures Clear(c) && IsCycle(r) ==> forall n: nat :: !PlainStmt(c, s, l, tail, n).Deep? ==> Runs(c, r, old(active), n)
      ensures Calm(c) && TidyLocals(l) ==> Quiet() && (r.Val? ==> TidyRan(r.v))
      decreases steps, 1, s, 0
    {
      hide PlainFor, PlainBlock, PlainExpr, OrderBlind, Tidy, TidyContext, Quiet, TidyLocals, AllTidy, Recorded,
           Remembered, Trusted, Good, ShortBody, Max, PlainCall, Items;
      var v;
      v, d := Required(c, s.iterable, l);
      if !v.Val? {
        return v.Cast(), d;
      }
      var items := Items(v.v);
      if items.None? {
        return Err(Fault(NotIterable)), d;
      }
      if Tidy(v.v) { ItemsTidy(v.v); }
      ghost var d1 := d;
      var looped;
      ghost var d2;
      looped, d2 := Iterate(c, s.lbl, s.x, s.body, items.value, l);
      d := Max(d1, d2);
      if Sure(c) { ForLooped(c, s, l, tail, v.v, looped, d1, d2); }
      if !looped.Val? {
        return looped.Cast(), d;
      }
      if looped.v.0.Some? || s.els.None? {
        return Val((if looped.v.0.Some? then looped.v.0.value else Normal, looped.v.1)), d;
      }
      ghost var d3;
      r, d3 := ExecBlock(c, s.els.value, looped.v.1, false);
      if Sure(c) { ForElse(c, s, l, tail, v.v, looped.v.1, r, d, d3); }
      d := Max(d, d3);
    }

    method Iterate(c: Context, lbl: Label, x: Name, body: Block, items: seq<Value>, l: Locals)
      returns (r: Res<(Option<Flow>, Locals)>, ghost d: nat)
      requires Good()
      modifies this
      ensures Grown() && !r.Dynamic? && (!r.Err? ==> Good() && Kept())
      ensures Sure(c) ==> Agrees(r, PlainFor(c, lbl, x, body, items, l, d)) && (!r.Err? ==> Trusted(c)) && CycleKnown(r)
      ensures Clear(c) && IsCycle(r) ==> forall n: nat :: !PlainFor(c, lbl, x, body, items, l, n).Deep? ==> Runs(c, r, old(active), n)
      ensures Calm(c) && TidyLocals(l) && AllTidy(items) ==> Quiet() && (r.Val? ==> TidyTaken(r.v))
      decreases steps, 1, body, 2
    {
      hide ForAt, PlainFor, PlainBlock, OrderBlind, Tidy, TidyContext, Quiet, Recorded, Remembered;
      var cur, i := l, 0;
      d := 0;
      assert items[0..] == items;
      ForStart(c, lbl, x, body, items, l);
      while i < |items|
        invariant 0 <= i <= |items| && Good() && Kept() && Grown()
        invariant Sure(c) ==> Trusted(c) && ForAt(c, lbl, x, body, items, l, items[i..], cur, d)
        invariant Calm(c) && TidyLocals(l) && AllTidy(items) ==> Quiet() && TidyLocals(cur)
      {
        var ok := Tick();
        if !ok {
          return Err(StepLimit), d;
        }
        var b;
        ghost var d1;
        b, d1 := ExecBlock(c, body, Item(x, items[i], cur), false);
        assert items[i..][0] == items[i] && items[i..][1..] == items[i + 1..];
        if Sure(c) { ForStep(c, lbl, x, body, items, l, items[i..], cur, b, d, d1); }
        d := Max(d, d1);
        if b.Err? {
          return Err(b.e), d;
        }
        var turn := TurnOf(b.v.0, lbl);
        if turn.LeaveWith? {
          return Val((Some(turn.flow), b.v.1)), d;
        }
        if turn.Stop? {
          return Val((Some(Normal), b.v.1)), d;
        }
        cur, i := b.v.1, i + 1;
      }
      assert items[i..] == [];
      if Sure(c) { ForEnd(c, lbl, x, body, items, l, cur, d); }
      r := Val((None, cur));
    }
  }
}
