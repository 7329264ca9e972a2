/** Compile-time code and its plain meaning: no memo, no fuel, no limits. `d` bounds how deep
    calls and `while` iterations nest; running out of it is the separate outcome `Deep`. */
module ConstSemantics {
  import opened Wrappers

  type Name = string

  /** What can be in a set. */
  datatype SetKey = BoolKey(b: bool) | NumKey(n: int) | TextKey(s: string)

  function Gcd(a: nat, b: nat): nat
    decreases b
  {
    if b == 0 then a else Gcd(b, a % b)
  }

  datatype Ratio = Ratio(num: int, den: nat)

  /** Numbers are exact; numerator and denominator are in lowest terms. */
  type Rational = q: Ratio | q.den > 0 && Gcd(if q.num < 0 then -q.num else q.num, q.den) == 1 witness Ratio(0, 1)

  function FromInt(n: int): Rational {
    assert Gcd(1, 0) == 1;
    Ratio(n, 1)
  }

  /** Tuples, frozen lists, and frozen sets with their elements in the order they were put in. */
  datatype Value = Unit | Bool(b: bool) | Num(q: Rational) | Text(s: string) | Tuple(items: seq<Value>) | List(items: seq<Value>) | FrozenSet(keys: seq<SetKey>)

  predicate Atom(v: Value) {
    v.Unit? || v.Bool? || v.Num? || v.Text?
  }

  /** What can be written as one word of the source. */
  type Literal = v: Value | Atom(v) witness Unit

  datatype BinOp = And | Or | Plain(op: nat)

  datatype Answer = Got(v: Value) | Bad(id: nat)

  type Label = Option<Name>

  datatype Expr =
    | Const(v: Literal)
    | Var(x: Name)
    | TupleOf(es: Exprs)
    | ListOf(es: Exprs)
    | Unary(op: nat, operand: Expr)
    | Binary(bop: BinOp, left: Expr, right: Expr)
    | IfElse(cond: Expr, thn: Expr, els: Expr)
    | Index(obj: Expr, idx: Expr)
    | Call(f: Name, args: Exprs)
    | Runtime

  datatype Exprs = NoExpr | MoreExpr(head: Expr, tail: Exprs)

  datatype Stmt =
    | Comment
    | Return(result: Option<Expr>)
    | Let(x: Name, e: Expr, isVar: bool)
    | Assign(x: Name, e: Expr)
    | If(arms: Arms, els: Option<Block>)
    | While(lbl: Label, cond: Expr, body: Block)
    | Loop(lbl: Label, count: Option<Expr>, body: Block)
    | For(lbl: Label, x: Name, iterable: Expr, body: Block, els: Option<Block>)
    | Break(lbl: Label)
    | Continue(lbl: Label)
    | Eval(e: Expr)
    | Inner(body: Block)
    | Forbidden

  datatype Block = Nil | Cons(head: Stmt, tail: Block)

  datatype Arms = LastArm(cond: Expr, body: Block) | Arm(cond: Expr, body: Block, rest: Arms)

  datatype Params = NoParam | Param(x: Name, default: Option<Expr>, rest: Params)

  datatype Function = Function(params: Params, body: Block)

  /** The operators and builtins of the language, and the length of a text in bytes. */
  datatype Ops = Ops(
    unary: (nat, Value) -> Answer,
    binary: (nat, Value, Value) -> Answer,
    index: (Value, Value) -> Answer,
    isBuiltin: Name -> bool,
    builtin: (Name, seq<Value>) -> Answer,
    size: string -> nat)

  /** Constants and `const func`s. */
  datatype Context = Context(values: map<Name, Value>, functions: map<Name, Function>, ops: Ops)

  datatype Locals = Locals(values: map<Name, Value>, mutable: set<Name>) {
    function Bind(x: Name, v: Value, isVar: bool): Locals {
      Locals(values[x := v], if isVar then mutable + {x} else mutable - {x})
    }

    function Set(x: Name, v: Value): Locals {
      Locals(values[x := v], mutable)
    }
  }

  const NO_LOCALS := Locals(map[], {})

  datatype Fault =
    | Operator(id: nat) | NeedsRuntime | MissingArgument | ExtraArguments | Immutable | CountNotNumber | CountNotInteger
    | CountNegative | NotIterable | NotAllowed | Escaped

  datatype Out<+T> = Done(v: T) | NotConst | Fail(fault: Fault) | Deep {
    /** For something that must not depend on a runtime value. */
    function Needed(): Out<T> {
      if NotConst? then Fail(NeedsRuntime) else this
    }

    function Cast<U>(): Out<U>
      requires !Done?
    {
      match this
      case NotConst => NotConst
      case Fail(f) => Fail(f)
      case Deep => Deep
    }
  }

  datatype Flow = Normal | Returned(v: Value) | Broke(lbl: Label) | Continued(lbl: Label)

  predicate Truthy(ops: Ops, v: Value) {
    match v
    case Unit => false
    case Bool(b) => b
    case Num(q) => q.num != 0
    case Text(s) => s != ""
    case Tuple(items) => items != []
    case List(items) => items != []
    case FrozenSet(keys) => keys != []
  }

  function Respond(a: Answer): Out<Value> {
    match a
    case Got(v) => Done(v)
    case Bad(id) => Fail(Operator(id))
  }

  function KeyValue(k: SetKey): Value {
    match k
    case BoolKey(b) => Bool(b)
    case NumKey(n) => Num(FromInt(n))
    case TextKey(s) => Text(s)
  }

  /** What `for` goes through: of a set, the elements in its own order. */
  function Items(v: Value): Option<seq<Value>> {
    match v
    case Tuple(items) => Some(items)
    case List(items) => Some(items)
    case Text(s) => Some(seq(|s|, i requires 0 <= i < |s| => Text([s[i]])))
    case FrozenSet(keys) => Some(seq(|keys|, i requires 0 <= i < |keys| => KeyValue(keys[i])))
    case _ => None
  }

  predicate Hits(target: Label, lbl: Label) {
    target.None? || target == lbl
  }

  /** What a loop does after its body: leave with a flow, stop, or go on. */
  datatype Turn = LeaveWith(flow: Flow) | Stop | Again

  function TurnOf(flow: Flow, lbl: Label): Turn {
    match flow
    case Returned(_) => LeaveWith(flow)
    case Broke(t) => if Hits(t, lbl) then Stop else LeaveWith(flow)
    case Continued(t) => if Hits(t, lbl) then Again else LeaveWith(flow)
    case Normal => Again
  }

  predicate OnlyComments(b: Block) {
    b.Cons? ==> b.head.Comment? && OnlyComments(b.tail)
  }

  const MAX_COUNT := 0x7fff_ffff_ffff_ffff

  function CountOf(v: Value): Out<nat> {
    if !v.Num? then Fail(CountNotNumber)
    else if v.q.den != 1 || !(-MAX_COUNT - 1 <= v.q.num <= MAX_COUNT) then Fail(CountNotInteger)
    else if v.q.num < 0 then Fail(CountNegative)
    else Done(v.q.num)
  }

  // ----- expressions -----

  function PlainExpr(c: Context, e: Expr, l: Locals, d: nat): Out<Value>
    decreases d, 1, e, 0
  {
    match e
    case Const(v) => Done(v)
    case Var(x) =>
      if x in l.values then Done(l.values[x]) else if x in c.values then Done(c.values[x]) else NotConst
    case TupleOf(es) =>
      var r := PlainExprs(c, es, l, d, false);
      if r.Done? then Done(Tuple(r.v)) else r.Cast()
    case ListOf(es) =>
      var r := PlainExprs(c, es, l, d, true);
      if r.Done? then Done(List(r.v)) else r.Cast()
    case Unary(op, a) =>
      var r := PlainExpr(c, a, l, d);
      if r.Done? then Respond(c.ops.unary(op, r.v)) else r
    case Binary(op, a, b) =>
      var r := PlainExpr(c, a, l, d);
      if !r.Done? || (op.And? && !Truthy(c.ops, r.v)) || (op.Or? && Truthy(c.ops, r.v)) then r else
      var r2 := PlainExpr(c, b, l, d);
      if !r2.Done? || !op.Plain? then r2 else Respond(c.ops.binary(op.op, r.v, r2.v))
    case IfElse(g, a, b) =>
      var r := PlainExpr(c, g, l, d);
      if !r.Done? then r else if Truthy(c.ops, r.v) then PlainExpr(c, a, l, d) else PlainExpr(c, b, l, d)
    case Index(o, i) =>
      var r := PlainExpr(c, o, l, d).Needed();
      if !r.Done? then r else
      var r2 := PlainExpr(c, i, l, d).Needed();
      if !r2.Done? then r2 else Respond(c.ops.index(r.v, r2.v))
    case Call(f, args) =>
      var r := PlainExprs(c, args, l, d, false);
      if !r.Done? then r.Cast()
      else if c.ops.isBuiltin(f) then Respond(c.ops.builtin(f, r.v))
      else if f !in c.functions then NotConst
      else PlainApply(c, f, r.v, d)
    case Runtime => NotConst
  }

  /** `needed`: an element must not depend on a runtime value. */
  function PlainExprs(c: Context, es: Exprs, l: Locals, d: nat, needed: bool): Out<seq<Value>>
    decreases d, 1, es, 0
  {
    match es
    case NoExpr => Done([])
    case MoreExpr(e, rest) =>
      var r := PlainExpr(c, e, l, d);
      if !r.Done? then (if needed then r.Needed() else r).Cast() else
      var rs := PlainExprs(c, rest, l, d, needed);
      if rs.Done? then Done([r.v] + rs.v) else rs
  }

  // ----- calls -----

  function PlainApply(c: Context, f: Name, args: seq<Value>, d: nat): Out<Value>
    requires f in c.functions
    decreases d, 0, 1
  {
    if d == 0 then Deep else
    var bound := PlainBind(c, c.functions[f].params, args, d - 1);
    if !bound.Done? then bound.Cast() else PlainCall(c, f, bound.v, d)
  }

  /** Positional arguments, then defaults. */
  function PlainBind(c: Context, ps: Params, args: seq<Value>, d: nat): Out<seq<Value>>
    decreases d, 1, ps, 0
  {
    match ps
    case NoParam => if args == [] then Done([]) else Fail(ExtraArguments)
    case Param(_, default, rest) =>
      if args != [] then
        var r := PlainBind(c, rest, args[1..], d);
        if r.Done? then Done([args[0]] + r.v) else r
      else if default.None? then Fail(MissingArgument)
      else
        var r := PlainExpr(c, default.value, NO_LOCALS, d).Needed();
        if !r.Done? then r.Cast() else
        var rs := PlainBind(c, rest, [], d);
        if rs.Done? then Done([r.v] + rs.v) else rs
  }

  function Entered(ps: Params, args: seq<Value>, l: Locals): Locals {
    if ps.NoParam? || args == [] then l else Entered(ps.rest, args[1..], l.Set(ps.x, args[0]))
  }

  function PlainCall(c: Context, f: Name, args: seq<Value>, d: nat): Out<Value>
    requires f in c.functions
    decreases d, 0, 0
  {
    if d == 0 then Deep else
    var r := PlainBlock(c, c.functions[f].body, Entered(c.functions[f].params, args, NO_LOCALS), true, d - 1);
    if !r.Done? then r.Cast() else Result(r.v.0)
  }

  function Result(flow: Flow): Out<Value> {
    match flow
    case Returned(v) => Done(v)
    case Normal => Done(Unit)
    case _ => Fail(Escaped)
  }

  // ----- statements -----

  type Ran = Out<(Flow, Locals)>

  /** `asValue`: the last statement's value is the value of the block. */
  function PlainBlock(c: Context, b: Block, l: Locals, asValue: bool, d: nat): Ran
    decreases d, 1, b, 0
  {
    if b.Nil? then Done((Normal, l)) else
    var r := PlainStmt(c, b.head, l, asValue && !b.head.Comment? && OnlyComments(b.tail), d);
    if !r.Done? || !r.v.0.Normal? then r else PlainBlock(c, b.tail, r.v.1, asValue, d)
  }

  function PlainStmt(c: Context, s: Stmt, l: Locals, tail: bool, d: nat): Ran
    decreases d, 1, s, 1
  {
    match s
    case Comment => Done((Normal, l))
    case Return(e) =>
      if e.None? then Done((Returned(Unit), l)) else
      var r := PlainExpr(c, e.value, l, d).Needed();
      if r.Done? then Done((Returned(r.v), l)) else r.Cast()
    case Let(x, e, isVar) =>
      var r := PlainExpr(c, e, l, d).Needed();
      if r.Done? then Done((Normal, l.Bind(x, r.v, isVar))) else r.Cast()
    case Assign(x, e) =>
      if x !in l.values then Fail(NotAllowed) else if x !in l.mutable then Fail(Immutable) else
      var r := PlainExpr(c, e, l, d).Needed();
      if r.Done? then Done((Normal, l.Set(x, r.v))) else r.Cast()
    case If(arms, els) => (
      var r := PlainArms(c, arms, l, tail, d);
      if !r.Done? then r.Cast() else
      match r.v.0
      case Some(flow) => Done((flow, r.v.1))
      case None => if els.Some? then PlainBlock(c, els.value, r.v.1, tail, d) else Done((Normal, r.v.1)))
    case While(lbl, g, body) => PlainWhile(c, lbl, g, body, l, d)
    case Loop(lbl, count, body) =>
      if count.None? then PlainLoop(c, lbl, body, MAX_COUNT, l, d) else
      var r := PlainExpr(c, count.value, l, d).Needed();
      if !r.Done? then r.Cast() else
      var n := CountOf(r.v);
      if n.Done? then PlainLoop(c, lbl, body, n.v, l, d) else n.Cast()
    case For(lbl, x, iterable, body, els) =>
      var r := PlainExpr(c, iterable, l, d).Needed();
      if !r.Done? then r.Cast() else
      var items := Items(r.v);
      if items.None? then Fail(NotIterable) else
      var looped := PlainFor(c, lbl, x, body, items.value, l, d);
      if !looped.Done? then looped.Cast() else (
      match looped.v.0
      case Some(flow) => Done((flow, looped.v.1))
      case None => if els.Some? then PlainBlock(c, els.value, looped.v.1, false, d) else Done((Normal, looped.v.1)))
    case Break(lbl) => Done((Broke(lbl), l))
    case Continue(lbl) => Done((Continued(lbl), l))
    case Eval(e) =>
      var r := PlainExpr(c, e, l, d).Needed();
      if r.Done? then Done((if tail then Returned(r.v) else Normal, l)) else r.Cast()
    case Inner(body) => PlainBlock(c, body, l, tail, d)
    case Forbidden => Fail(NotAllowed)
  }

  function Taken(b: Ran): Out<(Option<Flow>, Locals)> {
    if b.Done? then Done((Some(b.v.0), b.v.1)) else b.Cast()
  }

  /** The first arm whose condition holds, if there is one. */
  function PlainArms(c: Context, arms: Arms, l: Locals, tail: bool, d: nat): Out<(Option<Flow>, Locals)>
    decreases d, 1, arms, 0
  {
    var r := PlainExpr(c, arms.cond, l, d).Needed();
    if !r.Done? then r.Cast()
    else if Truthy(c.ops, r.v) then Taken(PlainBlock(c, arms.body, l, tail, d))
    else if arms.Arm? then PlainArms(c, arms.rest, l, tail, d)
    else Done((None, l))
  }

  function PlainWhile(c: Context, lbl: Label, g: Expr, body: Block, l: Locals, d: nat): Ran
    decreases d, 1, body, 2
  {
    if d == 0 then Deep else
    var r := PlainExpr(c, g, l, d - 1).Needed();
    if !r.Done? then r.Cast() else if !Truthy(c.ops, r.v) then Done((Normal, l)) else
    var b := PlainBlock(c, body, l, false, d - 1);
    if !b.Done? then b else
    match TurnOf(b.v.0, lbl)
    case LeaveWith(flow) => Done((flow, b.v.1))
    case Stop => Done((Normal, b.v.1))
    case Again => PlainWhile(c, lbl, g, body, b.v.1, d - 1)
  }

  function PlainLoop(c: Context, lbl: Label, body: Block, n: nat, l: Locals, d: nat): Ran
    decreases d, 1, body, 2, n
  {
    if n == 0 then Done((Normal, l)) else
    var b := PlainBlock(c, body, l, false, d);
    if !b.Done? then b else
    match TurnOf(b.v.0, lbl)
    case LeaveWith(flow) => Done((flow, b.v.1))
    case Stop => Done((Normal, b.v.1))
    case Again => PlainLoop(c, lbl, body, n - 1, b.v.1, d)
  }

  function Item(x: Name, v: Value, l: Locals): Locals {
    if x == "_" then l else l.Bind(x, v, false)
  }

  /** No flow: all items have been gone through. */
  function PlainFor(c: Context, lbl: Label, x: Name, body: Block, items: seq<Value>, l: Locals, d: nat): Out<(Option<Flow>, Locals)>
    decreases d, 1, body, 2, |items|
  {
    if items == [] then Done((None, l)) else
    var b := PlainBlock(c, body, Item(x, items[0], l), false, d);
    if !b.Done? then b.Cast() else
    match TurnOf(b.v.0, lbl)
    case LeaveWith(flow) => Done((Some(flow), b.v.1))
    case Stop => Done((Some(Normal), b.v.1))
    case Again => PlainFor(c, lbl, x, body, items[1..], b.v.1, d)
  }
}
