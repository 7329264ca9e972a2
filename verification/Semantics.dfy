/** The structured meaning of expressions and statements: no labels, no operand
    stack, no handler frames. `fuel` bounds loop iterations only; running out of it
    is the separate outcome `Timeout`. */
module Semantics {
  import opened Wrappers
  import opened Syntax

  // ----- operators on values -----

  function Truthy(env: Env, v: Value): bool {
    match v
    case Unit => false
    case Bool(b) => b
    case Num(r) => r != 0.0
    case Text(s) => |s| != 0
    case Seq(items) => |items| != 0
    case _ => env.truthy(v)
  }

  function ApplyUnary(env: Env, op: UnOp, v: Value): Response {
    match op
    case Not => if v.Bool? then Ret(Bool(!v.b)) else Fail(NOT_BOOL_ERROR)
    case TruthyNot => Ret(Bool(!Truthy(env, v)))
    case _ => env.unary(op, v)
  }

  function ApplyBinary(env: Env, op: BinOp, a: Value, b: Value): Response {
    if op == Eq && a.Num? && b.Num? then Ret(Bool(a.r == b.r)) else env.binary(op, a, b)
  }

  // ----- expressions -----

  /** Constants come first: a local with the name of a constant in `sc` is never read here. */
  function Look(x: Name, sc: Scope, env: Env, w: World): Response {
    if x in sc.consts then Ret(sc.consts[x])
    else if x in sc.locals then Ret(w.Get(x))
    else env.global(w.trace, x)
  }

  function CallValue(f: Value, args: seq<Value>, env: Env, w: World): (Response, World) {
    (env.call(w.trace, f, args), w.Log(Called(f, args)))
  }

  function ReadAttr(v: Value, field: Name, env: Env, w: World): (Response, World) {
    (env.attr(w.trace, v, field), w.Log(GotAttr(v, field)))
  }

  function EvalExpr(e: Expr, sc: Scope, env: Env, w: World): (Response, World) {
    match e
    case Const(v) => (Ret(v), w)
    case Var(x) => (Look(x, sc, env, w), w)
    case Unary(op, a) =>
      var (r, w1) := EvalExpr(a, sc, env, w);
      if r.Fail? then (r, w1) else (ApplyUnary(env, op, r.value), w1)
    case Binary(op, a, b) =>
      var (r1, w1) := EvalExpr(a, sc, env, w);
      if r1.Fail? then (r1, w1) else
      var (r2, w2) := EvalExpr(b, sc, env, w1);
      if r2.Fail? then (r2, w2) else (ApplyBinary(env, op, r1.value, r2.value), w2)
    case And(a, b) =>
      var (r, w1) := EvalExpr(a, sc, env, w);
      if r.Fail? || !Truthy(env, r.value) then (r, w1) else EvalExpr(b, sc, env, w1)
    case Or(a, b) =>
      var (r, w1) := EvalExpr(a, sc, env, w);
      if r.Fail? || Truthy(env, r.value) then (r, w1) else EvalExpr(b, sc, env, w1)
    case IfElse(c, t, f) =>
      var (r, w1) := EvalExpr(c, sc, env, w);
      if r.Fail? then (r, w1)
      else if Truthy(env, r.value) then EvalExpr(t, sc, env, w1) else EvalExpr(f, sc, env, w1)
    case Tuple(es) =>
      var (r, w1) := EvalExprs(es, sc, env, w);
      if r.Failed? then (Fail(r.exc), w1) else (Ret(Seq(r.values)), w1)
    case Member(o, field) =>
      var (r, w1) := EvalExpr(o, sc, env, w);
      if r.Fail? then (r, w1) else ReadAttr(r.value, field, env, w1)
    case Call(f, args) =>
      var (rs, w1) := EvalExprs(args, sc, env, w);
      if rs.Failed? then (Fail(rs.exc), w1) else
      var (r, w2) := EvalExpr(f, sc, env, w1);
      if r.Fail? then (r, w2) else CallValue(r.value, rs.values, env, w2)
  }

  datatype Results = Values(values: seq<Value>) | Failed(exc: Value)

  function EvalExprs(es: Exprs, sc: Scope, env: Env, w: World): (Results, World) {
    match es
    case NoExpr => (Values([]), w)
    case MoreExpr(e, rest) =>
      var (r, w1) := EvalExpr(e, sc, env, w);
      if r.Fail? then (Failed(r.exc), w1) else
      var (rs, w2) := EvalExprs(rest, sc, env, w1);
      if rs.Failed? then (rs, w2) else (Values([r.value] + rs.values), w2)
  }

  // ----- patterns -----

  datatype Matched = Yes | No | MatchFails(exc: Value)

  function MatchPattern(p: Pattern, v: Value, sc: Scope, env: Env, w: World): (Matched, World) {
    match p
    case BindPat(_) => (Yes, w)
    case ValuePat(e) =>
      var (r, w1) := EvalExpr(e, sc, env, w);
      if r.Fail? then (MatchFails(r.exc), w1)
      else (if env.matchEq(v, r.value) then Yes else No, w1)
    case SeqPat(ps) =>
      if !v.Seq? || |v.items| != ps.Count() then (No, w) else MatchItems(ps, v.items, 0, sc, env, w)
  }

  function MatchItems(ps: Patterns, items: seq<Value>, i: nat, sc: Scope, env: Env, w: World)
    : (Matched, World)
    requires |items| == i + ps.Count()
  {
    match ps
    case NoPat => (Yes, w)
    case MorePat(p, rest) =>
      var (m, w1) := MatchPattern(p, items[i], sc, env, w);
      if m.Yes? then MatchItems(rest, items, i + 1, sc, env, w1) else (m, w1)
  }

  /** The value has the shape of the pattern, so every bound position exists. */
  predicate Fits(p: Pattern, v: Value) {
    match p
    case SeqPat(ps) => v.Seq? && |v.items| == ps.Count() && ItemsFit(ps, v.items, 0)
    case _ => true
  }

  predicate ItemsFit(ps: Patterns, items: seq<Value>, i: nat)
    requires |items| == i + ps.Count()
  {
    match ps
    case NoPat => true
    case MorePat(p, rest) => Fits(p, items[i]) && ItemsFit(rest, items, i + 1)
  }

  function BindPattern(p: Pattern, v: Value, w: World): World {
    match p
    case BindPat(x) => w.Set(x, v)
    case ValuePat(_) => w
    case SeqPat(ps) =>
      if v.Seq? && |v.items| == ps.Count() then BindItems(ps, v.items, 0, w) else w
  }

  function BindItems(ps: Patterns, items: seq<Value>, i: nat, w: World): World
    requires |items| == i + ps.Count()
  {
    match ps
    case NoPat => w
    case MorePat(p, rest) => BindItems(rest, items, i + 1, BindPattern(p, items[i], w))
  }

  // ----- statements -----

  /** How a statement ends. `Returned` counts the `for` loops the `return` leaves;
      `ReturnedVar` is a `return x` whose variable is read only at the very end. */
  datatype Outcome =
    | Normal(v: Value)
    | Broke(lbl: Label)
    | Continued(lbl: Label)
    | Returned(v: Value, fors: nat)
    | ReturnedVar(x: Name, fors: nat)
    | Threw(exc: Value)
    | Timeout

  predicate Hits(target: Label, loop: Label) {
    target.None? || target == loop
  }

  /** Two choices in which the generated code differs from the reading a programmer
      would expect. `CODE` is what is compiled, `INTENDED` is that reading:
      lateReturn: `return x` reads `x` after the cleanups of the regions it leaves;
      lostException: an exception that passes a `defer` is replaced. */
  datatype Mode = Mode(lateReturn: bool, lostException: bool)

  const CODE := Mode(true, true)
  const INTENDED := Mode(false, false)

  type Result = (Outcome, World)

  function OfResponse(r: Response): Outcome {
    match r
    case Ret(v) => Normal(v)
    case Fail(e) => Threw(e)
  }

  function ThroughFor(r: Result): Result {
    match r.0
    case Returned(v, k) => (Returned(v, k + 1), r.1)
    case ReturnedVar(x, k) => (ReturnedVar(x, k + 1), r.1)
    case _ => r
  }

  /** A deferred body has run to `after` once its region had ended with `inner`. */
  function Resume(mode: Mode, inner: Outcome, after: Result): Result {
    if !after.0.Normal? then after
    else if inner.Threw? && mode.lostException then (Threw(RETHROW_ERROR), after.1)
    else (inner, after.1)
  }

  /** The clause that handles an exception: the first typed clause that matches,
      and only then the first untyped one. */
  function SelectTyped(cs: Catches, exc: Value, env: Env, i: nat): Option<nat> {
    match cs
    case NoCatch => None
    case Catch(p, _, rest) =>
      if p.BindExc? && p.typeName.Some? && env.isA(exc, p.typeName.value) then Some(i)
      else SelectTyped(rest, exc, env, i + 1)
  }

  function SelectUntyped(cs: Catches, i: nat): Option<nat> {
    match cs
    case NoCatch => None
    case Catch(p, _, rest) =>
      if p.AnyExc? || p.typeName.None? then Some(i) else SelectUntyped(rest, i + 1)
  }

  function Select(cs: Catches, exc: Value, env: Env): Option<nat> {
    var typed := SelectTyped(cs, exc, env, 0);
    if typed.Some? then typed else SelectUntyped(cs, 0)
  }

  function BindCaught(p: CatchPattern, exc: Value, w: World): World {
    if p.BindExc? then w.Set(p.x, exc) else w
  }

  /** Everything that stays the same during one run. */
  datatype Setting = Setting(mode: Mode, sc: Scope, env: Env)

  function ExecStmt(s: Stmt, t: Setting, w: World, fuel: nat): Result
    decreases fuel, s
  {
    match s
    case Eval(e) => var (r, w1) := EvalExpr(e, t.sc, t.env, w); (OfResponse(r), w1)
    case Let(x, e) => Store(x, EvalExpr(e, t.sc, t.env, w))
    case Assign(x, e) => Store(x, EvalExpr(e, t.sc, t.env, w))
    case Throw(e) =>
      var (r, w1) := EvalExpr(e, t.sc, t.env, w);
      (Threw(if r.Fail? then r.exc else Raisable(t.env, r.value)), w1)
    case If(arms, els) =>
      var (r, w1) := ExecArms(arms, t, w, fuel);
      if r.Some? then (r.value, w1) else ExecElse(els, t, w1, fuel)
    case While(lbl, c, body) =>
      var (r, w1) := EvalExpr(c, t.sc, t.env, w);
      if r.Fail? then (Threw(r.exc), w1)
      else if !Truthy(t.env, r.value) then (Normal(Unit), w1)
      else if fuel == 0 then (Timeout, w1)
      else
        var (o, w2) := ExecBlock(body, t, w1, fuel - 1);
        if Goes(o, lbl) then ExecStmt(s, t, w2, fuel - 1) else LoopEnd(o, lbl, w2)
    case Loop(lbl, count, body) =>
      if count.Some? then
        var (r, w1) := EvalExpr(count.value, t.sc, t.env, w);
        if r.Fail? then (Threw(r.exc), w1) else ExecCounted(r.value, lbl, body, t, w1, fuel)
      else if fuel == 0 then (Timeout, w)
      else
        var (o, w1) := ExecBlock(body, t, w, fuel - 1);
        if Goes(o, lbl) then ExecStmt(s, t, w1, fuel - 1) else LoopEnd(o, lbl, w1)
    case For(lbl, binder, iterable, body, els) =>
      var (r, w1) := EvalExpr(iterable, t.sc, t.env, w);
      if r.Fail? then (Threw(r.exc), w1) else
      var it := t.env.iter(w1.trace, r.value);
      var w2 := w1.Log(IterMade(r.value));
      if it.Fail? then (Threw(it.exc), w2)
      else
        var (o, w3) := ExecFor(it.value, lbl, binder, body, t, w2, fuel);
        if o.Some? then (o.value, w3) else ExecElse(els, t, w3, fuel)
    case Try(_, _, _) => ExecTry(s, t, w, fuel)
    case With(_, _, _) => ExecWith(s, t, w, fuel)
    case Match(_, _, _) => ExecMatch(s, t, w, fuel)
    case Defer(_) => (Normal(Unit), w)
    case Break(lbl) => (Broke(lbl), w)
    case Continue(lbl) => (Continued(lbl), w)
    case Return(result) =>
      if result.None? then (Returned(Unit, 0), w)
      else if result.value.Var? && result.value.x in t.sc.locals then
        if t.mode.lateReturn then (ReturnedVar(result.value.x, 0), w)
        else (Returned(w.Get(result.value.x), 0), w)
      else
        var (r, w1) := EvalExpr(result.value, t.sc, t.env, w);
        (if r.Fail? then Threw(r.exc) else Returned(r.value, 0), w1)
  }

  function ExecTry(s: Stmt, t: Setting, w: World, fuel: nat): Result
    requires s.Try?
    decreases fuel, s, 0
  {
    var (o, w1) := ExecBlock(s.body, t, w, fuel);
    if o.Normal? && s.els.Some? then ExecBlock(s.els.value, t, w1, fuel)
    else if o.Threw? && Select(s.catches, o.exc, t.env).Some? then
      ExecCatch(s.catches, Select(s.catches, o.exc, t.env).value, o.exc, t, w1, fuel)
    else (o, w1)
  }

  function ExecWith(s: Stmt, t: Setting, w: World, fuel: nat): Result
    requires s.With?
    decreases fuel, s, 0
  {
    var (r, w1) := EvalExpr(s.context, t.sc, t.env, w);
    if r.Fail? then (Threw(r.exc), w1) else
    var (enter, w2) := ReadAttr(r.value, WITH_ENTER, t.env, w1);
    if enter.Fail? then (Threw(enter.exc), w2) else
    var (entered, w3) := CallValue(enter.value, [], t.env, w2);
    if entered.Fail? then (Threw(entered.exc), w3) else
    var w4 := if s.alias.Some? then w3.Set(s.alias.value, entered.value) else w3;
    WithExit(r.value, ExecBlock(s.body, t, w4, fuel), t.env)
  }

  function ExecMatch(s: Stmt, t: Setting, w: World, fuel: nat): Result
    requires s.Match?
    decreases fuel, s, 0
  {
    var (r, w1) := EvalExpr(s.subject, t.sc, t.env, w);
    if r.Fail? then (Threw(r.exc), w1) else
    var (o, w2) := ExecCases(s.cases, r.value, t, w1, fuel);
    if o.Some? then (o.value, w2) else ExecElse(s.els, t, w2, fuel)
  }

  function Store(x: Name, rw: (Response, World)): Result {
    if rw.0.Fail? then (Threw(rw.0.exc), rw.1) else (Normal(Unit), rw.1.Set(x, rw.0.value))
  }

  /** The loop goes on to its next iteration. */
  predicate Goes(o: Outcome, lbl: Label) {
    o.Normal? || (o.Continued? && Hits(o.lbl, lbl))
  }

  function LoopEnd(o: Outcome, lbl: Label, w: World): Result {
    if o.Broke? && Hits(o.lbl, lbl) then (Normal(Unit), w) else (o, w)
  }

  function ExecElse(els: Option<Block>, t: Setting, w: World, fuel: nat): Result
    decreases fuel, els
  {
    if els.Some? then ExecBlock(els.value, t, w, fuel) else (Normal(Unit), w)
  }

  function ExecArms(arms: Arms, t: Setting, w: World, fuel: nat): (Option<Outcome>, World)
    decreases fuel, arms
  {
    var (r, w1) := EvalExpr(arms.cond, t.sc, t.env, w);
    if r.Fail? then (Some(Threw(r.exc)), w1)
    else if Truthy(t.env, r.value) then
      var (o, w2) := ExecBlock(arms.body, t, w1, fuel);
      (Some(o), w2)
    else if arms.LastArm? then (None, w1)
    else ExecArms(arms.rest, t, w1, fuel)
  }

  function ExecCounted(count: Value, lbl: Label, body: Block, t: Setting, w: World, fuel: nat): Result
    decreases fuel, body, 1
  {
    if !count.Num? then (Threw(LOOP_COUNT_ERROR), w)
    else if count.r <= 0.0 then (Normal(Unit), w)
    else if fuel == 0 then (Timeout, w)
    else
      var (o, w1) := ExecBlock(body, t, w, fuel - 1);
      if Goes(o, lbl) then ExecCounted(Num(count.r - 1.0), lbl, body, t, w1, fuel - 1)
      else LoopEnd(o, lbl, w1)
  }

  /** `None`: the iterator is exhausted, so the `else` block runs next. */
  function ExecFor(it: Value, lbl: Label, binder: Option<Name>, body: Block, t: Setting, w: World, fuel: nat)
    : (Option<Outcome>, World)
    decreases fuel, body, 1
  {
    var item := t.env.next(w.trace, it);
    var w1 := w.Log(IterAdvanced(it));
    match item
    case Exhausted => (None, w1)
    case NextFails(e) => (Some(Threw(e)), w1)
    case Item(v) =>
      if fuel == 0 then (Some(Timeout), w1)
      else
        var w2 := if binder.Some? then w1.Set(binder.value, v) else w1;
        var (o, w3) := ExecBlock(body, t, w2, fuel - 1);
        if Goes(o, lbl) then ExecFor(it, lbl, binder, body, t, w3, fuel - 1)
        else
          var (o', w4) := ThroughFor(LoopEnd(o, lbl, w3));
          (Some(o'), w4)
  }

  function ExecCatch(cs: Catches, i: nat, exc: Value, t: Setting, w: World, fuel: nat): Result
    decreases fuel, cs
  {
    match cs
    case NoCatch => (Threw(exc), w)
    case Catch(p, body, rest) =>
      if i == 0 then ExecBlock(body, t, BindCaught(p, exc, w), fuel)
      else ExecCatch(rest, i - 1, exc, t, w, fuel)
  }

  /** Only exceptions can be thrown. */
  function Raisable(env: Env, v: Value): Value {
    if env.isException(v) then v else NOT_EXCEPTION_ERROR
  }

  /** Leaving a `with` region: `__exit__` sees the exception, and a truthy answer swallows it;
      otherwise the exception is thrown again. */
  function WithExit(ctx: Value, body: Result, env: Env): Result {
    if body.0.Timeout? then body else
    var exc := if body.0.Threw? then body.0.exc else Unit;
    var (r, w) := CallValue(Builtin(WITH_EXIT), [ctx, exc], env, body.1);
    if r.Fail? then (Threw(r.exc), w)
    else if !body.0.Threw? then (body.0, w)
    else if Truthy(env, r.value) then (Normal(Unit), w)
    else (Threw(Raisable(env, exc)), w)
  }

  function ExecCases(cs: Cases, v: Value, t: Setting, w: World, fuel: nat): (Option<Outcome>, World)
    decreases fuel, cs
  {
    match cs
    case NoCase => (None, w)
    case Case(p, body, rest) =>
      var (m, w1) := MatchCase(p, v, t, w);
      match m
      case Taken(alt) =>
        var (o, w2) := ExecBlock(body, t, BindPattern(alt, v, w1), fuel);
        (Some(o), w2)
      case Missed => ExecCases(rest, v, t, w1, fuel)
      case CaseFails(e) => (Some(Threw(e)), w1)
  }

  datatype CaseMatch = Taken(alt: Pattern) | Missed | CaseFails(exc: Value)

  function MatchCase(p: CasePattern, v: Value, t: Setting, w: World): (CaseMatch, World) {
    match p
    case Single(q) =>
      var (m, w1) := MatchPattern(q, v, t.sc, t.env, w);
      (OfMatched(m, q), w1)
    case OneOf(alts) => MatchAlts(alts, v, t, w)
  }

  function OfMatched(m: Matched, p: Pattern): CaseMatch {
    match m
    case Yes => Taken(p)
    case No => Missed
    case MatchFails(e) => CaseFails(e)
  }

  function MatchAlts(alts: Patterns, v: Value, t: Setting, w: World): (CaseMatch, World) {
    match alts
    case NoPat => (Missed, w)
    case MorePat(p, rest) =>
      var (m, w1) := MatchPattern(p, v, t.sc, t.env, w);
      if m.No? then MatchAlts(rest, v, t, w1) else (OfMatched(m, p), w1)
  }

  /** The value of a block is the value of its last statement if that can yield one. */
  function ExecBlock(b: Block, t: Setting, w: World, fuel: nat): Result
    decreases fuel, b
  {
    match b
    case Nil => (Normal(Unit), w)
    case Cons(Defer(cleanup), rest) =>
      var (o, w1) := ExecBlock(rest, t, w, fuel);
      if o.Timeout? then (o, w1) else Resume(t.mode, o, ExecBlock(cleanup, t, w1, fuel))
    case Cons(s, rest) =>
      var (o, w1) := ExecStmt(s, t, w, fuel);
      if !o.Normal? then (o, w1)
      else if rest.Nil? then (if Yields(s) then o else Normal(Unit), w1)
      else ExecBlock(rest, t, w1, fuel)
  }

  datatype Final = Gave(v: Value, fors: nat) | Raised(exc: Value) | Running | Stray

  /** A function body: falling off its end returns the value of the block. */
  function ExecBody(b: Block, t: Setting, w: World, fuel: nat): (Final, World) {
    var (o, w1) := ExecBlock(b, t, w, fuel);
    match o
    case Normal(v) => (Gave(v, 0), w1)
    case Returned(v, k) => (Gave(v, k), w1)
    case ReturnedVar(x, k) => (Gave(w1.Get(x), k), w1)
    case Threw(e) => (Raised(e), w1)
    case Timeout => (Running, w1)
    case _ => (Stray, w1)
  }
}
