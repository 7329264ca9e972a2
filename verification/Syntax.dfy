/** Names, runtime values, the outside world, and the statements and expressions
    of a function body after parsing. */
module Syntax {
  import opened Wrappers

  type Name = string

  /** Numbers are exact rationals in the language, so `real` loses nothing.
      A list, tuple or frozen list is `Seq`; every other object is `Ref`. */
  datatype Value =
    | Unit
    | Bool(b: bool)
    | Num(r: real)
    | Text(s: string)
    | Seq(items: seq<Value>)
    | Builtin(name: Name)
    | Exc(kind: Name, message: string)
    | Ref(id: nat)

  datatype UnOp = Neg | Invert | Not | TruthyNot

  datatype BinOp =
    | Add | Sub | Mul | Div | Mod | Pow | BitAnd | BitOr | BitXor | LShift | RShift
    | Eq | Ne | Lt | Le | Gt | Ge | In | Is | IsNot

  // ----- the world a body runs in -----

  datatype Event =
    | Called(f: Value, args: seq<Value>)
    | GotAttr(obj: Value, field: Name)
    | IterMade(source: Value)
    | IterAdvanced(it: Value)

  type Trace = seq<Event>

  datatype Response = Ret(value: Value) | Fail(exc: Value)

  datatype NextItem = Item(value: Value) | Exhausted | NextFails(exc: Value)

  /** Everything the body cannot decide itself. Calls, attribute reads and iterators are
      answered from the whole history, so any deterministic environment is covered;
      operators on values are pure. `leaves` are the iterator frames that a call, when it
      returns, leaves on the stack it shares with its caller. */
  datatype Env = Env(
    call: (Trace, Value, seq<Value>) -> Response,
    leaves: (Trace, Value, seq<Value>) -> seq<Value>,
    attr: (Trace, Value, Name) -> Response,
    iter: (Trace, Value) -> Response,
    next: (Trace, Value) -> NextItem,
    global: (Trace, Name) -> Response,
    unary: (UnOp, Value) -> Response,
    binary: (BinOp, Value, Value) -> Response,
    truthy: Value -> bool,
    matchEq: (Value, Value) -> bool,
    isException: Value -> bool,
    isA: (Value, Name) -> bool)

  /** The named locals of the running function and the events so far. */
  datatype World = World(vars: map<Name, Value>, trace: Trace) {
    function Get(x: Name): Value {
      if x in vars then vars[x] else Unit
    }

    function Set(x: Name, v: Value): World {
      this.(vars := vars[x := v])
    }

    function Log(e: Event): World {
      this.(trace := trace + [e])
    }
  }

  const WITH_EXIT := "__with_exit__"
  const WITH_ENTER := "__enter__"
  const LOOP_COUNT_ERROR := Exc("TypeError", "loop count must be a number")
  const NOT_EXCEPTION_ERROR := Exc("TypeError", "can only throw exception")
  const RETHROW_ERROR := Exc("RuntimeError", "rethrow outside except handler")
  const NOT_BOOL_ERROR := Exc("TypeError", "! requires bool")
  const LIST_LEN_ERROR := Exc("TypeError", "ListLen requires list or tuple")
  const INDEX_ERROR := Exc("IndexError", "index out of range")

  // ----- expressions -----

  datatype Expr =
    | Const(v: Value)
    | Var(x: Name)
    | Unary(op: UnOp, operand: Expr)
    | Binary(bop: BinOp, left: Expr, right: Expr)
    | And(left: Expr, right: Expr)
    | Or(left: Expr, right: Expr)
    | IfElse(cond: Expr, thn: Expr, els: Expr)
    | Tuple(elems: Exprs)
    | Member(obj: Expr, field: Name)
    | Call(callee: Expr, args: Exprs)

  datatype Exprs = NoExpr | MoreExpr(head: Expr, tail: Exprs) {
    function Count(): nat {
      match this
      case NoExpr => 0
      case MoreExpr(_, tail) => 1 + tail.Count()
    }
  }

  /** What name resolution knows while a body is compiled: the names that own a
      slot, and the values of top-level `const` declarations. */
  datatype Scope = Scope(locals: set<Name>, consts: map<Name, Value>) {
    /** The scope a reader expects: a local hides a constant of the same name. */
    function Visible(): Scope {
      this.(consts := consts - locals)
    }
  }

  // ----- patterns and statements -----

  /** `SeqPat` is both the list and the tuple pattern: they test alike. */
  datatype Pattern = BindPat(x: Name) | ValuePat(e: Expr) | SeqPat(elems: Patterns)

  datatype Patterns = NoPat | MorePat(head: Pattern, tail: Patterns) {
    function Count(): nat {
      match this
      case NoPat => 0
      case MorePat(_, tail) => 1 + tail.Count()
    }
  }

  type Label = Option<Name>

  datatype Stmt =
    | Eval(e: Expr)
    | Let(x: Name, e: Expr)
    | Assign(x: Name, e: Expr)
    | If(arms: Arms, els: Option<Block>)
    | While(lbl: Label, cond: Expr, body: Block)
    | Loop(lbl: Label, count: Option<Expr>, body: Block)
    | For(lbl: Label, binder: Option<Name>, iterable: Expr, body: Block, els: Option<Block>)
    | Try(body: Block, catches: Catches, els: Option<Block>)
    | With(context: Expr, alias: Option<Name>, body: Block)
    | Match(subject: Expr, cases: Cases, els: Option<Block>)
    | Defer(body: Block)
    | Break(lbl: Label)
    | Continue(lbl: Label)
    | Return(result: Option<Expr>)
    | Throw(e: Expr)

  datatype Block = Nil | Cons(head: Stmt, tail: Block)

  datatype Arms = LastArm(cond: Expr, body: Block) | Arm(cond: Expr, body: Block, rest: Arms)

  datatype CatchPattern = AnyExc | BindExc(typeName: Option<Name>, x: Name)

  datatype Catches = NoCatch | Catch(pattern: CatchPattern, body: Block, rest: Catches) {
    function Count(): nat {
      match this
      case NoCatch => 0
      case Catch(_, _, rest) => 1 + rest.Count()
    }
  }

  /** The alternatives of one case; a plain pattern is a single alternative. */
  datatype Cases = NoCase | Case(pattern: CasePattern, body: Block, rest: Cases)

  datatype CasePattern = Single(p: Pattern) | OneOf(alts: Patterns)

  /** Statements that can leave their result on the operand stack when they end a block. */
  predicate Yields(s: Stmt) {
    s.Eval? || s.If? || s.Match? || s.Try? || s.With?
  }

  predicate BlockYields(b: Block) {
    match b
    case Nil => false
    case Cons(s, Nil) => Yields(s)
    case Cons(_, tail) => BlockYields(tail)
  }

  // ----- what may stand inside a deferred body -----

  predicate HasExit(s: Stmt) {
    match s
    case If(arms, els) => ArmsExit(arms) || (els.Some? && BlockExits(els.value))
    case While(_, _, body) => BlockExits(body)
    case Loop(_, _, body) => BlockExits(body)
    case For(_, _, _, body, els) => BlockExits(body) || (els.Some? && BlockExits(els.value))
    case Try(body, catches, els) =>
      BlockExits(body) || CatchesExit(catches) || (els.Some? && BlockExits(els.value))
    case With(_, _, body) => BlockExits(body)
    case Match(_, cases, els) => CasesExit(cases) || (els.Some? && BlockExits(els.value))
    case Defer(body) => BlockExits(body)
    case Break(_) => true
    case Continue(_) => true
    case Return(_) => true
    case _ => false
  }

  predicate BlockExits(b: Block) {
    match b
    case Nil => false
    case Cons(s, tail) => HasExit(s) || BlockExits(tail)
  }

  predicate ArmsExit(arms: Arms) {
    match arms
    case LastArm(_, body) => BlockExits(body)
    case Arm(_, body, rest) => BlockExits(body) || ArmsExit(rest)
  }

  predicate CatchesExit(cs: Catches) {
    match cs
    case NoCatch => false
    case Catch(_, body, rest) => BlockExits(body) || CatchesExit(rest)
  }

  predicate CasesExit(cs: Cases) {
    match cs
    case NoCase => false
    case Case(_, body, rest) => BlockExits(body) || CasesExit(rest)
  }
}
