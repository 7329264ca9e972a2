/** Every end the analysis foresees does happen, if every decision of the body is left to a call: the
    answers can be written down in advance, one for each event. */
module Scripts {
  import opened Wrappers
  import opened Syntax
  import opened Semantics
  import opened MayEnd
  import opened Shadowing
  import opened Traces

  // ----- bodies whose decisions are all left to calls -----

  predicate OpenArgs(es: Exprs, sc: Scope) {
    es.MoreExpr? ==> (es.head.Const? || (es.head.Var? && es.head.x in sc.locals)) && OpenArgs(es.tail, sc)
  }

  predicate OpenCall(e: Expr, sc: Scope) {
    e.Call? && e.callee.Const? && OpenArgs(e.args, sc)
  }

  predicate OpenStmt(s: Stmt, sc: Scope) {
    match s
    case Eval(e) => OpenCall(e, sc)
    case Let(_, e) => OpenCall(e, sc)
    case Assign(_, e) => OpenCall(e, sc)
    case Throw(e) => OpenCall(e, sc)
    case If(arms, els) => OpenArms(arms, sc) && OpenElse(els, sc)
    case While(_, c, body) => OpenCall(c, sc) && OpenBlock(body, sc)
    case Loop(_, count, body) => (count.Some? ==> OpenCall(count.value, sc)) && OpenBlock(body, sc)
    case For(_, _, iterable, body, els) => OpenCall(iterable, sc) && OpenBlock(body, sc) && OpenElse(els, sc)
    case Try(body, catches, els) => OpenBlock(body, sc) && OpenCatch(catches, sc) && OpenElse(els, sc)
    case With(context, _, body) => OpenCall(context, sc) && OpenBlock(body, sc)
    case Break(_) => true
    case Continue(_) => true
    case Return(result) => result.None? || LateVar(result.value, sc) || OpenCall(result.value, sc)
    case _ => false
  }

  predicate LateVar(e: Expr, sc: Scope) {
    e.Var? && e.x in sc.locals
  }

  predicate OpenElse(els: Option<Block>, sc: Scope) {
    els.Some? ==> OpenBlock(els.value, sc)
  }

  /** No clause, or one that takes every exception. */
  predicate OpenCatch(cs: Catches, sc: Scope) {
    cs.Catch? ==> (cs.pattern.AnyExc? || cs.pattern.typeName.None?) && OpenBlock(cs.body, sc) && cs.rest.NoCatch?
  }

  predicate OpenArms(arms: Arms, sc: Scope) {
    OpenCall(arms.cond, sc) && OpenBlock(arms.body, sc) && (arms.Arm? ==> OpenArms(arms.rest, sc))
  }

  predicate OpenBlock(b: Block, sc: Scope) {
    b.Cons? ==> OpenStmt(b.head, sc) && OpenBlock(b.tail, sc)
  }

  // ----- scripts -----

  /** The answer to one event, whether it is a call or an iterator. */
  datatype Answer = Answer(resp: Response, item: NextItem)

  function Give(v: Value): Answer { Answer(Ret(v), Item(v)) }
  function Deny(d: Value): Answer { Answer(Fail(d), NextFails(d)) }
  const STOP := Answer(Ret(Unit), Exhausted)
  const YES := Give(Bool(true))
  const NO := Give(Bool(false))

  /** The environment that answers the n-th event with the n-th answer. */
  function Scripted(z: seq<Answer>): Env {
    var at := (tr: Trace) => if |tr| < |z| then z[|tr|] else STOP;
    Env((tr: Trace, f: Value, args: seq<Value>) => at(tr).resp,
        (tr: Trace, f: Value, args: seq<Value>) => [],
        (tr: Trace, v: Value, field: Name) => at(tr).resp,
        (tr: Trace, v: Value) => at(tr).resp,
        (tr: Trace, v: Value) => at(tr).item,
        (tr: Trace, x: Name) => Ret(Unit),
        (op: UnOp, v: Value) => Ret(Unit),
        (op: BinOp, a: Value, b: Value) => Ret(Unit),
        (v: Value) => false,
        (a: Value, b: Value) => false,
        (v: Value) => true,
        (v: Value, t: Name) => false)
  }

  datatype Script = Script(answers: seq<Answer>, fuel: nat) {
    function After(a: seq<Answer>): Script {
      this.(answers := a + answers)
    }

    function Before(b: seq<Answer>): Script {
      this.(answers := answers + b)
    }

    function Then(s: Script): Script {
      Script(answers + s.answers, fuel + s.fuel)
    }

    function Round(): Script {
      this.(fuel := fuel + 1)
    }
  }

  /** One refusal for each arm. */
  function Refusals(arms: Arms): seq<Answer> {
    if arms.Arm? then [NO] + Refusals(arms.rest) else [NO]
  }

  /** Answers that make a statement end in the way `k`; every value given and every exception is `d`. */
  function StmtScript(s: Stmt, k: End, sc: Scope, d: Value): Script
    decreases s, 0
  {
    match s
    case If(arms, els) =>
      if MayArms(arms, k, sc) then ArmsScript(arms, k, sc, d) else ElseScript(els, k, sc, d).After(Refusals(arms))
    case While(lbl, _, body) =>
      if k.Falls? then Script([NO], 0)
      else if Passes(k, lbl) && MayBlock(body, k, sc) then BlockScript(body, k, sc, d).After([YES]).Round()
      else Script([Deny(d)], 0)
    case Loop(lbl, count, body) =>
      if count.None? then (if k.Falls? then BreakScript(body, lbl, sc, d) else BlockScript(body, k, sc, d)).Round()
      else if k.Falls? then Script([Give(Num(0.0))], 0)
      else if Passes(k, lbl) && MayBlock(body, k, sc) then BlockScript(body, k, sc, d).After([Give(Num(1.0))]).Round()
      else Script([Deny(d)], 0)
    case For(lbl, _, _, body, els) =>
      if k.Throws? then Script([Deny(d)], 0)
      else if MayElse(els, k, sc) then ElseScript(els, k, sc, d).After([Give(d), Give(d), STOP])
      else BodyScript(lbl, body, k, sc, d).After([Give(d), Give(d), Give(d)]).Round()
    case Try(body, catches, els) =>
      if MayBlock(body, Falls, sc) && MayElse(els, k, sc) then BlockScript(body, Falls, sc, d).Then(ElseScript(els, k, sc, d))
      else if MayBlock(body, Throws, sc) && MayCatch(catches, k, sc) then BlockScript(body, Throws, sc, d).Then(CatchScript(catches, k, sc, d))
      else BlockScript(body, k, sc, d)
    case With(_, _, body) =>
      if k.Throws? then Script([Deny(d)], 0)
      else BlockScript(body, if MayBlock(body, k, sc) then k else Throws, sc, d).After(Entering(d)).Before([YES])
    case Break(_) => Script([], 0)
    case Continue(_) => Script([], 0)
    case Return(result) =>
      if result.None? || LateVar(result.value, sc) then Script([], 0)
      else Script([if k.Returns? then Give(d) else Deny(d)], 0)
    case Throw(_) => Script([Give(d)], 0)
    case _ => Script([if k.Falls? then Give(d) else Deny(d)], 0)
  }

  function BreakScript(body: Block, lbl: Label, sc: Scope, d: Value): Script
    decreases body, 1
  {
    BlockScript(body, if MayBlock(body, Breaks(None), sc) then Breaks(None) else Breaks(lbl), sc, d)
  }

  function BodyScript(lbl: Label, body: Block, k: End, sc: Scope, d: Value): Script
    decreases body, 2
  {
    match k
    case Falls => BreakScript(body, lbl, sc, d)
    case Returns(_) => BlockScript(body, Returns(!MayBlock(body, Returns(false), sc)), sc, d)
    case _ => BlockScript(body, k, sc, d)
  }

  /** The context, the method that enters it, and the call of that. */
  function Entering(d: Value): seq<Answer> {
    [Give(d), Give(d), Give(d)]
  }

  function CatchScript(cs: Catches, k: End, sc: Scope, d: Value): Script
    decreases cs, 0
  {
    if cs.Catch? then BlockScript(cs.body, k, sc, d) else Script([], 0)
  }

  function ElseScript(els: Option<Block>, k: End, sc: Scope, d: Value): Script
    decreases els, 0
  {
    if els.Some? then BlockScript(els.value, k, sc, d) else Script([], 0)
  }

  function ArmsScript(arms: Arms, k: End, sc: Scope, d: Value): Script
    decreases arms, 0
  {
    if MayBlock(arms.body, k, sc) then BlockScript(arms.body, k, sc, d).After([YES])
    else if k.Throws? then Script([Deny(d)], 0)
    else if arms.Arm? then ArmsScript(arms.rest, k, sc, d).After([NO])
    else Script([], 0)
  }

  function BlockScript(b: Block, k: End, sc: Scope, d: Value): Script
    decreases b, 0
  {
    if b.Nil? then Script([], 0)
    else if !k.Falls? && May(b.head, k, sc) then StmtScript(b.head, k, sc, d)
    else StmtScript(b.head, Falls, sc, d).Then(BlockScript(b.tail, k, sc, d))
  }

  // ----- runs that follow a script -----

  predicate Follows(z: seq<Answer>, n: nat, a: seq<Answer>) {
    n + |a| <= |z| && z[n..n + |a|] == a
  }

  lemma FollowsParts(z: seq<Answer>, n: nat, a: seq<Answer>, b: seq<Answer>)
    requires Follows(z, n, a + b)
    ensures Follows(z, n, a) && Follows(z, n + |a|, b)
  {
    assert z[n..n + |a|] == (a + b)[..|a|];
    assert z[n + |a|..n + |a| + |b|] == (a + b)[|a|..];
  }

  /** These variables hold `d`. */
  ghost predicate Holds(w: World, names: set<Name>, d: Value) {
    forall x :: x in names ==> w.Get(x) == d
  }

  /** A run under a script so far: which answers are used up, and what the variables hold. */
  ghost predicate Staged(t: Setting, sc: Scope, z: seq<Answer>, w: World, names: set<Name>, d: Value) {
    t.sc == sc && t.env == Scripted(z) && Holds(w, names, d)
  }

  ghost predicate Ended(r: Result, w: World, k: End, used: nat, names: set<Name>, d: Value) {
    && !r.0.Timeout? && EndOf(r.0) == k && (r.0.Threw? ==> r.0.exc == d)
    && |r.1.trace| == |w.trace| + used && Holds(r.1, names, d)
  }

  lemma {:induction false} ArgsGiven(es: Exprs, sc: Scope, env: Env, w: World)
    requires OpenArgs(es, sc)
    ensures EvalExprs(es, sc, env, w).0.Values? && EvalExprs(es, sc, env, w).1 == w
    decreases es
  {
    if es.MoreExpr? { ArgsGiven(es.tail, sc, env, w); }
  }

  /** A call takes the next answer. */
  lemma CallRuns(e: Expr, t: Setting, sc: Scope, z: seq<Answer>, w: World, a: Answer, names: set<Name>, d: Value)
    requires OpenCall(e, sc) && Staged(t, sc, z, w, names, d) && Follows(z, |w.trace|, [a])
    ensures var (r, w1) := EvalExpr(e, t.sc, t.env, w);
            r == a.resp && |w1.trace| == |w.trace| + 1 && w1.vars == w.vars && Holds(w1, names, d)
  {
    ArgsGiven(e.args, sc, t.env, w);
    assert z[|w.trace|] == z[|w.trace|..|w.trace| + 1][0];
  }

  /** A statement ends in every way the analysis foresees. */
  lemma {:induction false} StmtRuns(s: Stmt, k: End, t: Setting, sc: Scope, z: seq<Answer>, w: World, fuel: nat, names: set<Name>, d: Value)
    requires OpenStmt(s, sc) && May(s, k, sc) && Staged(t, sc, z, w, names, d)
    requires Follows(z, |w.trace|, StmtScript(s, k, sc, d).answers) && fuel >= StmtScript(s, k, sc, d).fuel
    ensures Ended(ExecStmt(s, t, w, fuel), w, k, |StmtScript(s, k, sc, d).answers|, names, d)
    decreases s, 2
  {
    hide ExecBlock, MayBlock, OpenBlock, BlockScript;
    match s
    case If(arms, els) => IfRuns(s, k, t, sc, z, w, fuel, names, d);
    case While(lbl, c, body) => WhileRuns(s, k, t, sc, z, w, fuel, names, d);
    case Loop(_, count, _) =>
      if count.Some? { CountedRuns(s, k, t, sc, z, w, fuel, names, d); } else { LoopRuns(s, k, t, sc, z, w, fuel, names, d); }
    case For(_, _, _, _, _) => ForRuns(s, k, t, sc, z, w, fuel, names, d);
    case Try(_, _, _) => TryRuns(s, k, t, sc, z, w, fuel, names, d);
    case With(_, _, _) => WithRuns(s, k, t, sc, z, w, fuel, names, d);
    case Break(_) =>
    case Continue(_) =>
    case Return(result) =>
      if result.Some? && !LateVar(result.value, sc) {
        CallRuns(result.value, t, sc, z, w, StmtScript(s, k, sc, d).answers[0], names, d);
      }
    case Eval(e) => CallRuns(e, t, sc, z, w, StmtScript(s, k, sc, d).answers[0], names, d);
    case Let(_, e) => CallRuns(e, t, sc, z, w, StmtScript(s, k, sc, d).answers[0], names, d);
    case Assign(_, e) => CallRuns(e, t, sc, z, w, StmtScript(s, k, sc, d).answers[0], names, d);
    case Throw(e) => CallRuns(e, t, sc, z, w, Give(d), names, d);
    case _ =>
  }

  lemma IfRuns(s: Stmt, k: End, t: Setting, sc: Scope, z: seq<Answer>, w: World, fuel: nat, names: set<Name>, d: Value)
    requires s.If? && OpenStmt(s, sc) && May(s, k, sc) && Staged(t, sc, z, w, names, d)
    requires Follows(z, |w.trace|, StmtScript(s, k, sc, d).answers) && fuel >= StmtScript(s, k, sc, d).fuel
    ensures Ended(ExecStmt(s, t, w, fuel), w, k, |StmtScript(s, k, sc, d).answers|, names, d)
    decreases s, 0
  {
    if MayArms(s.arms, k, sc) {
      ArmsRun(s.arms, k, t, sc, z, w, fuel, names, d);
    } else {
      FollowsParts(z, |w.trace|, Refusals(s.arms), ElseScript(s.els, k, sc, d).answers);
      ArmsRefused(s.arms, t, sc, z, w, fuel, names, d);
      ElseRuns(s.els, k, t, sc, z, ExecArms(s.arms, t, w, fuel).1, fuel, names, d);
    }
  }

  lemma WhileRuns(s: Stmt, k: End, t: Setting, sc: Scope, z: seq<Answer>, w: World, fuel: nat, names: set<Name>, d: Value)
    requires s.While? && OpenStmt(s, sc) && May(s, k, sc) && Staged(t, sc, z, w, names, d)
    requires Follows(z, |w.trace|, StmtScript(s, k, sc, d).answers) && fuel >= StmtScript(s, k, sc, d).fuel
    ensures Ended(ExecStmt(s, t, w, fuel), w, k, |StmtScript(s, k, sc, d).answers|, names, d)
    decreases s, 0
  {
    hide ExecBlock, MayBlock, OpenBlock, BlockScript, EvalExpr, ExecFor, EvalExprs, ExecTry, Follows, ExecWith;
    if !k.Falls? && Passes(k, s.lbl) && MayBlock(s.body, k, sc) {
      FollowsParts(z, |w.trace|, [YES], BlockScript(s.body, k, sc, d).answers);
      CallRuns(s.cond, t, sc, z, w, YES, names, d);
      BlockRuns(s.body, k, t, sc, z, EvalExpr(s.cond, t.sc, t.env, w).1, fuel - 1, names, d);
    } else {
      CallRuns(s.cond, t, sc, z, w, StmtScript(s, k, sc, d).answers[0], names, d);
    }
  }

  lemma LoopRuns(s: Stmt, k: End, t: Setting, sc: Scope, z: seq<Answer>, w: World, fuel: nat, names: set<Name>, d: Value)
    requires s.Loop? && s.count.None? && OpenStmt(s, sc) && May(s, k, sc) && Staged(t, sc, z, w, names, d)
    requires Follows(z, |w.trace|, StmtScript(s, k, sc, d).answers) && fuel >= StmtScript(s, k, sc, d).fuel
    ensures Ended(ExecStmt(s, t, w, fuel), w, k, |StmtScript(s, k, sc, d).answers|, names, d)
    decreases s, 0
  {
    hide ExecBlock, MayBlock, OpenBlock, BlockScript;
    var k1 := if !k.Falls? then k else if MayBlock(s.body, Breaks(None), sc) then Breaks(None) else Breaks(s.lbl);
    BlockRuns(s.body, k1, t, sc, z, w, fuel - 1, names, d);
  }

  lemma CountedRuns(s: Stmt, k: End, t: Setting, sc: Scope, z: seq<Answer>, w: World, fuel: nat, names: set<Name>, d: Value)
    requires s.Loop? && s.count.Some? && OpenStmt(s, sc) && May(s, k, sc) && Staged(t, sc, z, w, names, d)
    requires Follows(z, |w.trace|, StmtScript(s, k, sc, d).answers) && fuel >= StmtScript(s, k, sc, d).fuel
    ensures Ended(ExecStmt(s, t, w, fuel), w, k, |StmtScript(s, k, sc, d).answers|, names, d)
    decreases s, 0
  {
    hide ExecBlock, MayBlock, OpenBlock, BlockScript, Follows, EvalExpr, EvalExprs, ExecFor, ExecTry, ExecWith;
    if !k.Falls? && Passes(k, s.lbl) && MayBlock(s.body, k, sc) {
      FollowsParts(z, |w.trace|, [Give(Num(1.0))], BlockScript(s.body, k, sc, d).answers);
      CallRuns(s.count.value, t, sc, z, w, Give(Num(1.0)), names, d);
      BlockRuns(s.body, k, t, sc, z, EvalExpr(s.count.value, t.sc, t.env, w).1, fuel - 1, names, d);
    } else {
      CallRuns(s.count.value, t, sc, z, w, StmtScript(s, k, sc, d).answers[0], names, d);
    }
  }

  lemma TryRuns(s: Stmt, k: End, t: Setting, sc: Scope, z: seq<Answer>, w: World, fuel: nat, names: set<Name>, d: Value)
    requires s.Try? && OpenStmt(s, sc) && May(s, k, sc) && Staged(t, sc, z, w, names, d)
    requires Follows(z, |w.trace|, StmtScript(s, k, sc, d).answers) && fuel >= StmtScript(s, k, sc, d).fuel
    ensures Ended(ExecStmt(s, t, w, fuel), w, k, |StmtScript(s, k, sc, d).answers|, names, d)
    decreases s, 1
  {
    hide ExecBlock, MayBlock, OpenBlock, BlockScript, Follows, ExecCatch, Select, MayCatch, CatchScript, Ended,
         ExecStmt, StmtScript;
    if MayBlock(s.body, Falls, sc) && MayElse(s.els, k, sc) {
      TryThrough(s, k, t, sc, z, w, fuel, names, d);
    } else if MayBlock(s.body, Throws, sc) && MayCatch(s.catches, k, sc) {
      TryCaught(s, k, t, sc, z, w, fuel, names, d);
    } else {
      TryPassed(s, k, t, sc, z, w, fuel, names, d);
    }
  }

  lemma TryThrough(s: Stmt, k: End, t: Setting, sc: Scope, z: seq<Answer>, w: World, fuel: nat, names: set<Name>, d: Value)
    requires s.Try? && OpenStmt(s, sc) && May(s, k, sc) && Staged(t, sc, z, w, names, d)
    requires Follows(z, |w.trace|, StmtScript(s, k, sc, d).answers) && fuel >= StmtScript(s, k, sc, d).fuel
    requires MayBlock(s.body, Falls, sc) && MayElse(s.els, k, sc)
    ensures Ended(ExecStmt(s, t, w, fuel), w, k, |StmtScript(s, k, sc, d).answers|, names, d)
    decreases s, 0
  {
    hide ExecBlock, MayBlock, OpenBlock, BlockScript, Follows, ExecCatch, Select, MayCatch, CatchScript;
    FollowsParts(z, |w.trace|, BlockScript(s.body, Falls, sc, d).answers, ElseScript(s.els, k, sc, d).answers);
    BlockRuns(s.body, Falls, t, sc, z, w, fuel, names, d);
    ElseRuns(s.els, k, t, sc, z, ExecBlock(s.body, t, w, fuel).1, fuel, names, d);
  }

  lemma TryCaught(s: Stmt, k: End, t: Setting, sc: Scope, z: seq<Answer>, w: World, fuel: nat, names: set<Name>, d: Value)
    requires s.Try? && OpenStmt(s, sc) && May(s, k, sc) && Staged(t, sc, z, w, names, d)
    requires Follows(z, |w.trace|, StmtScript(s, k, sc, d).answers) && fuel >= StmtScript(s, k, sc, d).fuel
    requires MayBlock(s.body, Throws, sc) && MayCatch(s.catches, k, sc) && !(MayBlock(s.body, Falls, sc) && MayElse(s.els, k, sc))
    ensures Ended(ExecStmt(s, t, w, fuel), w, k, |StmtScript(s, k, sc, d).answers|, names, d)
    decreases s, 0
  {
    hide ExecBlock, MayBlock, OpenBlock, BlockScript, Follows, ExecCatch, Select, MayCatch, CatchScript;
    FollowsParts(z, |w.trace|, BlockScript(s.body, Throws, sc, d).answers, CatchScript(s.catches, k, sc, d).answers);
    BlockRuns(s.body, Throws, t, sc, z, w, fuel, names, d);
    OneClause(s.catches, sc, d, t.env);
    CatchRuns(s.catches, k, t, sc, z, ExecBlock(s.body, t, w, fuel).1, fuel, names, d);
  }

  lemma TryPassed(s: Stmt, k: End, t: Setting, sc: Scope, z: seq<Answer>, w: World, fuel: nat, names: set<Name>, d: Value)
    requires s.Try? && OpenStmt(s, sc) && May(s, k, sc) && Staged(t, sc, z, w, names, d)
    requires Follows(z, |w.trace|, StmtScript(s, k, sc, d).answers) && fuel >= StmtScript(s, k, sc, d).fuel
    requires !(MayBlock(s.body, Falls, sc) && MayElse(s.els, k, sc)) && !(MayBlock(s.body, Throws, sc) && MayCatch(s.catches, k, sc))
    ensures Ended(ExecStmt(s, t, w, fuel), w, k, |StmtScript(s, k, sc, d).answers|, names, d)
    decreases s, 0
  {
    hide ExecBlock, MayBlock, OpenBlock, BlockScript, Follows, ExecCatch, Select, MayCatch, CatchScript;
    OneClause(s.catches, sc, d, t.env);
    BlockRuns(s.body, k, t, sc, z, w, fuel, names, d);
  }

  lemma CatchRuns(cs: Catches, k: End, t: Setting, sc: Scope, z: seq<Answer>, w: World, fuel: nat, names: set<Name>, d: Value)
    requires OpenCatch(cs, sc) && MayCatch(cs, k, sc) && Staged(t, sc, z, w, names, d)
    requires Follows(z, |w.trace|, CatchScript(cs, k, sc, d).answers) && fuel >= CatchScript(cs, k, sc, d).fuel
    ensures cs.Catch? && Ended(ExecCatch(cs, 0, d, t, w, fuel), w, k, |CatchScript(cs, k, sc, d).answers|, names, d)
    decreases cs, 0
  {
    hide ExecBlock, MayBlock, OpenBlock, BlockScript, Follows;
    assert !MayCatch(cs.rest, k, sc);
    BlockRuns(cs.body, k, t, sc, z, BindCaught(cs.pattern, d, w), fuel, names, d);
  }

  lemma OneClause(cs: Catches, sc: Scope, exc: Value, env: Env)
    requires OpenCatch(cs, sc) && forall v, name :: !env.isA(v, name)
    ensures Select(cs, exc, env) == if cs.Catch? then Some(0) else None
    ensures SelectUntyped(cs, 0).None? <==> cs.NoCatch?
  {
    if cs.Catch? { assert SelectTyped(cs.rest, exc, env, 1).None?; }
  }

  lemma WithRuns(s: Stmt, k: End, t: Setting, sc: Scope, z: seq<Answer>, w: World, fuel: nat, names: set<Name>, d: Value)
    requires s.With? && OpenStmt(s, sc) && May(s, k, sc) && Staged(t, sc, z, w, names, d)
    requires Follows(z, |w.trace|, StmtScript(s, k, sc, d).answers) && fuel >= StmtScript(s, k, sc, d).fuel
    ensures Ended(ExecStmt(s, t, w, fuel), w, k, |StmtScript(s, k, sc, d).answers|, names, d)
    decreases s, 0
  {
    hide ExecBlock, MayBlock, OpenBlock, BlockScript, EvalExpr, EvalExprs, ExecFor, ExecTry;
    if k.Throws? {
      CallRuns(s.context, t, sc, z, w, Deny(d), names, d);
    } else {
      var k1 := if MayBlock(s.body, k, sc) then k else Throws;
      var inner := BlockScript(s.body, k1, sc, d).answers;
      FollowsParts(z, |w.trace|, Entering(d) + inner, [YES]);
      var w4 := WithStarts(s, t, sc, z, w, inner, fuel, names, d);
      BlockRuns(s.body, k1, t, sc, z, w4, fuel, names, d);
      var w5 := ExecBlock(s.body, t, w4, fuel).1;
      assert z[|w5.trace|] == z[|w5.trace|..|w5.trace| + 1][0];
    }
  }

  /** The context is given and entered. */
  lemma WithStarts(s: Stmt, t: Setting, sc: Scope, z: seq<Answer>, w: World, rest: seq<Answer>, fuel: nat, names: set<Name>, d: Value)
    returns (w4: World)
    requires s.With? && OpenCall(s.context, sc) && Staged(t, sc, z, w, names, d) && Follows(z, |w.trace|, Entering(d) + rest)
    ensures ExecWith(s, t, w, fuel) == WithExit(d, ExecBlock(s.body, t, w4, fuel), t.env)
    ensures !Reads(s.context, Shadowed(sc)) ==> ExecWith(s, Hiding(t), w, fuel) == WithExit(d, ExecBlock(s.body, Hiding(t), w4, fuel), t.env)
    ensures |w4.trace| == |w.trace| + 3 && Holds(w4, names, d) && Follows(z, |w4.trace|, rest)
  {
    hide ExecBlock;
    var n := |w.trace|;
    FollowsParts(z, n, Entering(d), rest);
    var head := z[n..n + 3];
    assert z[n] == head[0] && z[n + 1] == head[1] && z[n + 2] == head[2];
    assert z[n..n + 1] == [Give(d)];
    CallRuns(s.context, t, sc, z, w, Give(d), names, d);
    var w1 := EvalExpr(s.context, t.sc, t.env, w).1;
    if !Reads(s.context, Shadowed(sc)) { ExprAlike(s.context, t.sc, t.env, w); }
    var w3 := w1.Log(GotAttr(d, WITH_ENTER)).Log(Called(d, []));
    w4 := if s.alias.Some? then w3.Set(s.alias.value, d) else w3;
  }

  lemma ForRuns(s: Stmt, k: End, t: Setting, sc: Scope, z: seq<Answer>, w: World, fuel: nat, names: set<Name>, d: Value)
    requires s.For? && OpenStmt(s, sc) && May(s, k, sc) && Staged(t, sc, z, w, names, d)
    requires Follows(z, |w.trace|, StmtScript(s, k, sc, d).answers) && fuel >= StmtScript(s, k, sc, d).fuel
    ensures Ended(ExecStmt(s, t, w, fuel), w, k, |StmtScript(s, k, sc, d).answers|, names, d)
    decreases s, 0
  {
    hide ExecBlock, MayBlock, OpenBlock, BlockScript, MayIterate, BodyScript, ExecWith, Follows, ExecTry, MayElse,
         EvalExpr, EvalExprs;
    if k.Throws? {
      CallRuns(s.iterable, t, sc, z, w, Deny(d), names, d);
    } else if MayElse(s.els, k, sc) {
      var w2 := ForStarts(s, t, sc, z, w, STOP, ElseScript(s.els, k, sc, d).answers, names, d);
      assert ExecFor(d, s.lbl, s.binder, s.body, t, w2, fuel) == (None, w2.Log(IterAdvanced(d)));
      ElseRuns(s.els, k, t, sc, z, w2.Log(IterAdvanced(d)), fuel, names, d);
    } else {
      var w2 := ForStarts(s, t, sc, z, w, Give(d), BodyScript(s.lbl, s.body, k, sc, d).answers, names, d);
      RoundRuns(s.lbl, s.binder, s.body, k, t, sc, z, w2, fuel, names, d);
    }
  }

  /** The iterable is given and its iterator made; `a` answers the first request for an item. */
  lemma ForStarts(s: Stmt, t: Setting, sc: Scope, z: seq<Answer>, w: World, a: Answer, rest: seq<Answer>, names: set<Name>, d: Value)
    returns (w2: World)
    requires s.For? && OpenCall(s.iterable, sc) && Staged(t, sc, z, w, names, d)
    requires Follows(z, |w.trace|, [Give(d), Give(d), a] + rest)
    ensures var (r, w1) := EvalExpr(s.iterable, t.sc, t.env, w);
            r == Ret(d) && t.env.iter(w1.trace, d) == Ret(d) && w2 == w1.Log(IterMade(d))
    ensures |w2.trace| == |w.trace| + 2 && Holds(w2, names, d) && t.env.next(w2.trace, d) == a.item
    ensures Follows(z, |w2.trace| + 1, rest)
  {
    var n := |w.trace|;
    FollowsParts(z, n, [Give(d), Give(d), a], rest);
    var head := z[n..n + 3];
    assert z[n] == head[0] && z[n + 1] == head[1] && z[n + 2] == head[2];
    assert z[n..n + 1] == [Give(d)];
    CallRuns(s.iterable, t, sc, z, w, Give(d), names, d);
    w2 := EvalExpr(s.iterable, t.sc, t.env, w).1.Log(IterMade(d));
  }

  /** The first round of a `for` ends it. */
  lemma RoundRuns(lbl: Label, binder: Option<Name>, body: Block, k: End, t: Setting, sc: Scope, z: seq<Answer>, w: World, fuel: nat,
                  names: set<Name>, d: Value)
    requires OpenBlock(body, sc) && MayIterate(lbl, body, k, sc) && !k.Throws? && Staged(t, sc, z, w, names, d)
    requires t.env.next(w.trace, d) == Item(d) && fuel >= 1 + BodyScript(lbl, body, k, sc, d).fuel
    requires Follows(z, |w.trace| + 1, BodyScript(lbl, body, k, sc, d).answers)
    ensures var (o, w1) := ExecFor(d, lbl, binder, body, t, w, fuel);
            o.Some? && Ended((o.value, w1), w, k, 1 + |BodyScript(lbl, body, k, sc, d).answers|, names, d)
    decreases body, 1
  {
    hide ExecBlock, MayBlock, OpenBlock, BlockScript;
    var w1 := w.Log(IterAdvanced(d));
    var w2 := if binder.Some? then w1.Set(binder.value, d) else w1;
    var k1 := match k
              case Falls => if MayBlock(body, Breaks(None), sc) then Breaks(None) else Breaks(lbl)
              case Returns(_) => Returns(!MayBlock(body, Returns(false), sc))
              case _ => k;
    assert Holds(w2, names, d);
    BlockRuns(body, k1, t, sc, z, w2, fuel - 1, names, d);
  }

  lemma ElseRuns(els: Option<Block>, k: End, t: Setting, sc: Scope, z: seq<Answer>, w: World, fuel: nat, names: set<Name>, d: Value)
    requires OpenElse(els, sc) && MayElse(els, k, sc) && Staged(t, sc, z, w, names, d)
    requires Follows(z, |w.trace|, ElseScript(els, k, sc, d).answers) && fuel >= ElseScript(els, k, sc, d).fuel
    ensures Ended(ExecElse(els, t, w, fuel), w, k, |ElseScript(els, k, sc, d).answers|, names, d)
    decreases els, 0
  {
    if els.Some? { BlockRuns(els.value, k, t, sc, z, w, fuel, names, d); }
  }

  lemma {:induction false} ArmsRun(arms: Arms, k: End, t: Setting, sc: Scope, z: seq<Answer>, w: World, fuel: nat, names: set<Name>, d: Value)
    requires OpenArms(arms, sc) && MayArms(arms, k, sc) && Staged(t, sc, z, w, names, d)
    requires Follows(z, |w.trace|, ArmsScript(arms, k, sc, d).answers) && fuel >= ArmsScript(arms, k, sc, d).fuel
    ensures var (o, w1) := ExecArms(arms, t, w, fuel);
            o.Some? && Ended((o.value, w1), w, k, |ArmsScript(arms, k, sc, d).answers|, names, d)
    decreases arms, 0
  {
    hide ExecBlock, MayBlock, OpenBlock, BlockScript;
    if MayBlock(arms.body, k, sc) {
      FollowsParts(z, |w.trace|, [YES], BlockScript(arms.body, k, sc, d).answers);
      CallRuns(arms.cond, t, sc, z, w, YES, names, d);
      BlockRuns(arms.body, k, t, sc, z, EvalExpr(arms.cond, t.sc, t.env, w).1, fuel, names, d);
    } else if k.Throws? {
      CallRuns(arms.cond, t, sc, z, w, Deny(d), names, d);
    } else {
      FollowsParts(z, |w.trace|, [NO], ArmsScript(arms.rest, k, sc, d).answers);
      CallRuns(arms.cond, t, sc, z, w, NO, names, d);
      ArmsRun(arms.rest, k, t, sc, z, EvalExpr(arms.cond, t.sc, t.env, w).1, fuel, names, d);
    }
  }

  lemma {:induction false} ArmsRefused(arms: Arms, t: Setting, sc: Scope, z: seq<Answer>, w: World, fuel: nat, names: set<Name>, d: Value)
    requires OpenArms(arms, sc) && Staged(t, sc, z, w, names, d) && Follows(z, |w.trace|, Refusals(arms))
    ensures var (o, w1) := ExecArms(arms, t, w, fuel);
            o.None? && |w1.trace| == |w.trace| + |Refusals(arms)| && Holds(w1, names, d)
    decreases arms
  {
    hide ExecBlock, MayBlock, OpenBlock;
    if arms.Arm? {
      FollowsParts(z, |w.trace|, [NO], Refusals(arms.rest));
      CallRuns(arms.cond, t, sc, z, w, NO, names, d);
      ArmsRefused(arms.rest, t, sc, z, EvalExpr(arms.cond, t.sc, t.env, w).1, fuel, names, d);
    } else {
      CallRuns(arms.cond, t, sc, z, w, NO, names, d);
    }
  }

  /** A block ends in every way the analysis foresees. */
  lemma {:induction false} BlockRuns(b: Block, k: End, t: Setting, sc: Scope, z: seq<Answer>, w: World, fuel: nat, names: set<Name>, d: Value)
    requires OpenBlock(b, sc) && MayBlock(b, k, sc) && Staged(t, sc, z, w, names, d)
    requires Follows(z, |w.trace|, BlockScript(b, k, sc, d).answers) && fuel >= BlockScript(b, k, sc, d).fuel
    ensures Ended(ExecBlock(b, t, w, fuel), w, k, |BlockScript(b, k, sc, d).answers|, names, d)
    decreases b, 0
  {
    hide ExecStmt, May, OpenStmt, StmtScript;
    if b.Cons? {
      assert !b.head.Defer? by { assert OpenStmt(b.head, sc); DeferClosed(b.head, sc); }
      if !k.Falls? && May(b.head, k, sc) {
        StmtRuns(b.head, k, t, sc, z, w, fuel, names, d);
      } else {
        FollowsParts(z, |w.trace|, StmtScript(b.head, Falls, sc, d).answers, BlockScript(b.tail, k, sc, d).answers);
        StmtRuns(b.head, Falls, t, sc, z, w, fuel, names, d);
        BlockRuns(b.tail, k, t, sc, z, ExecStmt(b.head, t, w, fuel).1, fuel, names, d);
      }
    }
  }

  lemma DeferClosed(s: Stmt, sc: Scope)
    requires OpenStmt(s, sc)
    ensures !s.Defer?
  {
  }

  // ----- a read of a shadowed local shows -----

  /** Answers that lead to the first such read and then refuse the call it stands in. */
  function StmtLure(s: Stmt, names: set<Name>, sc: Scope, d: Value): Script
    decreases s, 0
  {
    match s
    case If(arms, els) =>
      if ArmsMayRead(arms, names, sc) then ArmsLure(arms, names, sc, d)
      else if els.Some? then BlockLure(els.value, names, sc, d).After(Refusals(arms))
      else Script([], 0)
    case While(_, c, body) =>
      if Reads(c, names) then Script([Deny(d)], 0) else BlockLure(body, names, sc, d).After([YES]).Round()
    case Loop(_, count, body) =>
      if count.None? then BlockLure(body, names, sc, d).Round()
      else if Reads(count.value, names) then Script([Deny(d)], 0)
      else BlockLure(body, names, sc, d).After([Give(Num(1.0))]).Round()
    case Try(body, catches, els) =>
      if BlockMayRead(body, names, sc) then BlockLure(body, names, sc, d)
      else if MayBlock(body, Falls, sc) && ElseMayRead(els, names, sc) then BlockScript(body, Falls, sc, d).Then(ElseLure(els, names, sc, d))
      else BlockScript(body, Throws, sc, d).Then(CatchLure(catches, names, sc, d))
    case With(context, _, body) =>
      if Reads(context, names) then Script([Deny(d)], 0) else BlockLure(body, names, sc, d).After(Entering(d))
    case For(_, _, iterable, body, els) =>
      if Reads(iterable, names) then Script([Deny(d)], 0)
      else if BlockMayRead(body, names, sc) then BlockLure(body, names, sc, d).After([Give(d), Give(d), Give(d)]).Round()
      else if els.Some? then BlockLure(els.value, names, sc, d).After([Give(d), Give(d), STOP])
      else Script([], 0)
    case _ => Script([Deny(d)], 0)
  }

  function ElseLure(els: Option<Block>, names: set<Name>, sc: Scope, d: Value): Script
    decreases els, 0
  {
    if els.Some? then BlockLure(els.value, names, sc, d) else Script([], 0)
  }

  function CatchLure(cs: Catches, names: set<Name>, sc: Scope, d: Value): Script
    decreases cs, 0
  {
    if cs.Catch? then BlockLure(cs.body, names, sc, d) else Script([], 0)
  }

  function ArmsLure(arms: Arms, names: set<Name>, sc: Scope, d: Value): Script
    decreases arms, 0
  {
    if Reads(arms.cond, names) then Script([Deny(d)], 0)
    else if BlockMayRead(arms.body, names, sc) then BlockLure(arms.body, names, sc, d).After([YES])
    else if arms.Arm? then ArmsLure(arms.rest, names, sc, d).After([NO])
    else Script([], 0)
  }

  function BlockLure(b: Block, names: set<Name>, sc: Scope, d: Value): Script
    decreases b, 0
  {
    if b.Nil? then Script([], 0)
    else if MayRead(b.head, names, sc) then StmtLure(b.head, names, sc, d)
    else StmtScript(b.head, Falls, sc, d).Then(BlockLure(b.tail, names, sc, d))
  }

  /** The shadowed locals hold `d`, which none of the constants is. */
  ghost predicate Lured(t: Setting, sc: Scope, z: seq<Answer>, w: World, d: Value) {
    Staged(t, sc, z, w, Shadowed(sc), d) && forall x :: x in Shadowed(sc) ==> sc.consts[x] != d
  }

  lemma {:induction false} ArgsApart(es: Exprs, sc: Scope, env: Env, w: World, d: Value)
    requires OpenArgs(es, sc) && AnyReads(es, Shadowed(sc)) && Holds(w, Shadowed(sc), d)
    requires forall x :: x in Shadowed(sc) ==> sc.consts[x] != d
    ensures EvalExprs(es, sc, env, w).0.Values? && EvalExprs(es, sc.Visible(), env, w).0.Values?
    ensures EvalExprs(es, sc, env, w).0 != EvalExprs(es, sc.Visible(), env, w).0
    ensures EvalExprs(es, sc, env, w).1 == w == EvalExprs(es, sc.Visible(), env, w).1
    decreases es
  {
    ArgsGiven(es.tail, sc, env, w);
    VisibleArgs(es.tail, sc);
    ArgsGiven(es.tail, sc.Visible(), env, w);
    var e := es.head;
    var r, q := EvalExpr(e, sc, env, w), EvalExpr(e, sc.Visible(), env, w);
    var rs, qs := EvalExprs(es.tail, sc, env, w).0.values, EvalExprs(es.tail, sc.Visible(), env, w).0.values;
    if Reads(e, Shadowed(sc)) {
      assert r.0 == Ret(sc.consts[e.x]) && q.0 == Ret(d);
      assert ([r.0.value] + rs)[0] != ([q.0.value] + qs)[0];
    } else {
      ExprAlike(e, sc, env, w);
      ArgsApart(es.tail, sc, env, w, d);
      assert ([r.0.value] + rs)[1..] == rs && ([q.0.value] + qs)[1..] == qs;
    }
  }

  lemma {:induction false} VisibleArgs(es: Exprs, sc: Scope)
    requires OpenArgs(es, sc)
    ensures OpenArgs(es, sc.Visible())
    decreases es
  {
    if es.MoreExpr? { VisibleArgs(es.tail, sc); }
  }

  /** A call with a shadowed local among its arguments is another event. */
  lemma CallApart(e: Expr, t: Setting, sc: Scope, z: seq<Answer>, w: World, d: Value)
    requires OpenCall(e, sc) && Reads(e, Shadowed(sc)) && Lured(t, sc, z, w, d) && Follows(z, |w.trace|, [Deny(d)])
    ensures var r, q := EvalExpr(e, t.sc, t.env, w), EvalExpr(e, t.sc.Visible(), t.env, w);
            r.0 == Fail(d) && q.0 == Fail(d) && Differ(r.1, q.1)
  {
    ArgsApart(e.args, sc, t.env, w, d);
    assert z[|w.trace|] == z[|w.trace|..|w.trace| + 1][0];
    assert e.args.MoreExpr? && !Reads(e.callee, Shadowed(sc));
    var rs, qs := EvalExprs(e.args, t.sc, t.env, w).0.values, EvalExprs(e.args, t.sc.Visible(), t.env, w).0.values;
    assert EvalExpr(e.callee, t.sc, t.env, w) == (Ret(e.callee.v), w) == EvalExpr(e.callee, t.sc.Visible(), t.env, w);
    var r, q := EvalExpr(e, t.sc, t.env, w), EvalExpr(e, t.sc.Visible(), t.env, w);
    assert r.1 == w.Log(Called(e.callee.v, rs)) && q.1 == w.Log(Called(e.callee.v, qs));
    assert r.1.trace[|w.trace|] == Called(e.callee.v, rs) && q.1.trace[|w.trace|] == Called(e.callee.v, qs);
  }

  lemma {:induction false} StmtApart(s: Stmt, t: Setting, sc: Scope, z: seq<Answer>, w: World, fuel: nat, d: Value)
    requires OpenStmt(s, sc) && MayRead(s, Shadowed(sc), sc) && Lured(t, sc, z, w, d)
    requires Follows(z, |w.trace|, StmtLure(s, Shadowed(sc), sc, d).answers) && fuel >= StmtLure(s, Shadowed(sc), sc, d).fuel
    ensures Differ(ExecStmt(s, t, w, fuel).1, ExecStmt(s, Hiding(t), w, fuel).1)
    decreases s, 2
  {
    hide ExecBlock, BlockMayRead, OpenBlock, BlockLure, Shadowed, Holds, EvalExprs, EvalExpr, Follows, ExecFor,
         ExecWith, Lured, Differ;
    match s
    case Eval(e) => CallApart(e, t, sc, z, w, d);
    case Let(_, e) => CallApart(e, t, sc, z, w, d);
    case Assign(_, e) => CallApart(e, t, sc, z, w, d);
    case Throw(e) => CallApart(e, t, sc, z, w, d);
    case If(_, _) => IfApart(s, t, sc, z, w, fuel, d);
    case While(_, _, _) => WhileApart(s, t, sc, z, w, fuel, d);
    case Loop(_, count, _) => if count.Some? { CountedApart(s, t, sc, z, w, fuel, d); } else { LoopApart(s, t, sc, z, w, fuel, d); }
    case For(_, _, _, _, _) => ForApart(s, t, sc, z, w, fuel, d);
    case Try(_, _, _) => TryApart(s, t, sc, z, w, fuel, d);
    case With(_, _, _) => WithApart(s, t, sc, z, w, fuel, d);
    case Return(result) => CallApart(result.value, t, sc, z, w, d);
    case _ =>
  }

  lemma LoopApart(s: Stmt, t: Setting, sc: Scope, z: seq<Answer>, w: World, fuel: nat, d: Value)
    requires s.Loop? && s.count.None? && OpenStmt(s, sc) && MayRead(s, Shadowed(sc), sc) && Lured(t, sc, z, w, d)
    requires Follows(z, |w.trace|, StmtLure(s, Shadowed(sc), sc, d).answers) && fuel >= StmtLure(s, Shadowed(sc), sc, d).fuel
    ensures Differ(ExecStmt(s, t, w, fuel).1, ExecStmt(s, Hiding(t), w, fuel).1)
    decreases s, 0
  {
    hide ExecBlock, BlockMayRead, OpenBlock, BlockLure, Shadowed, Differ;
    BlockApart(s.body, t, sc, z, w, fuel - 1, d);
    LoopHasBody(s, t, w, fuel);
    LoopHasBody(s, Hiding(t), w, fuel);
    StillDiffer(ExecBlock(s.body, t, w, fuel - 1).1, ExecBlock(s.body, Hiding(t), w, fuel - 1).1,
                ExecStmt(s, t, w, fuel).1, ExecStmt(s, Hiding(t), w, fuel).1);
  }

  lemma CountedApart(s: Stmt, t: Setting, sc: Scope, z: seq<Answer>, w: World, fuel: nat, d: Value)
    requires s.Loop? && s.count.Some? && OpenStmt(s, sc) && MayRead(s, Shadowed(sc), sc) && Lured(t, sc, z, w, d)
    requires Follows(z, |w.trace|, StmtLure(s, Shadowed(sc), sc, d).answers) && fuel >= StmtLure(s, Shadowed(sc), sc, d).fuel
    ensures Differ(ExecStmt(s, t, w, fuel).1, ExecStmt(s, Hiding(t), w, fuel).1)
    decreases s, 0
  {
    hide ExecBlock, BlockMayRead, OpenBlock, BlockLure, Shadowed, Differ;
    var e := s.count.value;
    if Reads(e, Shadowed(sc)) {
      CallApart(e, t, sc, z, w, d);
    } else {
      FollowsParts(z, |w.trace|, [Give(Num(1.0))], BlockLure(s.body, Shadowed(sc), sc, d).answers);
      CallRuns(e, t, sc, z, w, Give(Num(1.0)), Shadowed(sc), d);
      ExprAlike(e, t.sc, t.env, w);
      var w1 := EvalExpr(e, t.sc, t.env, w).1;
      BlockApart(s.body, t, sc, z, w1, fuel - 1, d);
      CountedHasBody(1.0, s.lbl, s.body, t, w1, fuel);
      CountedHasBody(1.0, s.lbl, s.body, Hiding(t), w1, fuel);
      StillDiffer(ExecBlock(s.body, t, w1, fuel - 1).1, ExecBlock(s.body, Hiding(t), w1, fuel - 1).1,
                  ExecStmt(s, t, w, fuel).1, ExecStmt(s, Hiding(t), w, fuel).1);
    }
  }

  lemma TryApart(s: Stmt, t: Setting, sc: Scope, z: seq<Answer>, w: World, fuel: nat, d: Value)
    requires s.Try? && OpenStmt(s, sc) && MayRead(s, Shadowed(sc), sc) && Lured(t, sc, z, w, d)
    requires Follows(z, |w.trace|, StmtLure(s, Shadowed(sc), sc, d).answers) && fuel >= StmtLure(s, Shadowed(sc), sc, d).fuel
    ensures Differ(ExecStmt(s, t, w, fuel).1, ExecStmt(s, Hiding(t), w, fuel).1)
    decreases s, 1
  {
    hide ExecBlock, BlockMayRead, OpenBlock, BlockLure, Shadowed, Differ, ExecCatch, Select, CatchLure,
         CatchesMayRead, MayBlock, BlockScript;
    if BlockMayRead(s.body, Shadowed(sc), sc) {
      BlockApart(s.body, t, sc, z, w, fuel, d);
      TryHasBody(s, t, w, fuel);
      TryHasBody(s, Hiding(t), w, fuel);
      StillDiffer(ExecBlock(s.body, t, w, fuel).1, ExecBlock(s.body, Hiding(t), w, fuel).1, ExecTry(s, t, w, fuel).1, ExecTry(s, Hiding(t), w, fuel).1);
    } else if MayBlock(s.body, Falls, sc) && ElseMayRead(s.els, Shadowed(sc), sc) {
      AfterTryApart(s, t, sc, z, w, fuel, d);
    } else {
      InCatchApart(s, t, sc, z, w, fuel, d);
    }
  }

  lemma AfterTryApart(s: Stmt, t: Setting, sc: Scope, z: seq<Answer>, w: World, fuel: nat, d: Value)
    requires s.Try? && OpenStmt(s, sc) && !BlockMayRead(s.body, Shadowed(sc), sc) && Lured(t, sc, z, w, d)
    requires MayBlock(s.body, Falls, sc) && ElseMayRead(s.els, Shadowed(sc), sc)
    requires Follows(z, |w.trace|, StmtLure(s, Shadowed(sc), sc, d).answers) && fuel >= StmtLure(s, Shadowed(sc), sc, d).fuel
    ensures Differ(ExecTry(s, t, w, fuel).1, ExecTry(s, Hiding(t), w, fuel).1)
    decreases s, 0
  {
    hide ExecBlock, BlockMayRead, OpenBlock, BlockLure, Shadowed, Differ, ExecCatch, Select, MayBlock, BlockScript;
    FollowsParts(z, |w.trace|, BlockScript(s.body, Falls, sc, d).answers, ElseLure(s.els, Shadowed(sc), sc, d).answers);
    BlockAlike(s.body, t, w, fuel);
    BlockRuns(s.body, Falls, t, sc, z, w, fuel, Shadowed(sc), d);
    BlockApart(s.els.value, t, sc, z, ExecBlock(s.body, t, w, fuel).1, fuel, d);
  }

  lemma InCatchApart(s: Stmt, t: Setting, sc: Scope, z: seq<Answer>, w: World, fuel: nat, d: Value)
    requires s.Try? && OpenStmt(s, sc) && !BlockMayRead(s.body, Shadowed(sc), sc) && Lured(t, sc, z, w, d)
    requires MayBlock(s.body, Throws, sc) && CatchesMayRead(s.catches, Shadowed(sc), sc)
    requires !(MayBlock(s.body, Falls, sc) && ElseMayRead(s.els, Shadowed(sc), sc))
    requires Follows(z, |w.trace|, StmtLure(s, Shadowed(sc), sc, d).answers) && fuel >= StmtLure(s, Shadowed(sc), sc, d).fuel
    ensures Differ(ExecTry(s, t, w, fuel).1, ExecTry(s, Hiding(t), w, fuel).1)
    decreases s, 0
  {
    hide ExecBlock, BlockMayRead, OpenBlock, BlockLure, Shadowed, Differ, ExecCatch, Select, CatchLure,
         CatchesMayRead, MayBlock, BlockScript;
    FollowsParts(z, |w.trace|, BlockScript(s.body, Throws, sc, d).answers, CatchLure(s.catches, Shadowed(sc), sc, d).answers);
    BlockAlike(s.body, t, w, fuel);
    BlockRuns(s.body, Throws, t, sc, z, w, fuel, Shadowed(sc), d);
    OneClause(s.catches, sc, d, t.env);
    CatchApart(s.catches, t, sc, z, ExecBlock(s.body, t, w, fuel).1, fuel, d);
  }

  lemma CatchApart(cs: Catches, t: Setting, sc: Scope, z: seq<Answer>, w: World, fuel: nat, d: Value)
    requires OpenCatch(cs, sc) && CatchesMayRead(cs, Shadowed(sc), sc) && Lured(t, sc, z, w, d)
    requires Follows(z, |w.trace|, CatchLure(cs, Shadowed(sc), sc, d).answers) && fuel >= CatchLure(cs, Shadowed(sc), sc, d).fuel
    ensures cs.Catch? && Differ(ExecCatch(cs, 0, d, t, w, fuel).1, ExecCatch(cs, 0, d, Hiding(t), w, fuel).1)
    decreases cs, 0
  {
    hide ExecBlock, BlockMayRead, OpenBlock, BlockLure, Shadowed, Differ;
    assert !CatchesMayRead(cs.rest, Shadowed(sc), sc);
    BlockApart(cs.body, t, sc, z, BindCaught(cs.pattern, d, w), fuel, d);
  }

  lemma WithApart(s: Stmt, t: Setting, sc: Scope, z: seq<Answer>, w: World, fuel: nat, d: Value)
    requires s.With? && OpenStmt(s, sc) && MayRead(s, Shadowed(sc), sc) && Lured(t, sc, z, w, d)
    requires Follows(z, |w.trace|, StmtLure(s, Shadowed(sc), sc, d).answers) && fuel >= StmtLure(s, Shadowed(sc), sc, d).fuel
    ensures Differ(ExecStmt(s, t, w, fuel).1, ExecStmt(s, Hiding(t), w, fuel).1)
    decreases s, 0
  {
    hide ExecBlock, BlockMayRead, OpenBlock, BlockLure, Shadowed, Differ, ExecWith;
    if Reads(s.context, Shadowed(sc)) {
      RefusedContext(s, t, sc, z, w, fuel, d);
    } else {
      var w4 := WithStarts(s, t, sc, z, w, BlockLure(s.body, Shadowed(sc), sc, d).answers, fuel, Shadowed(sc), d);
      BlockApart(s.body, t, sc, z, w4, fuel, d);
      var r, q := ExecBlock(s.body, t, w4, fuel), ExecBlock(s.body, Hiding(t), w4, fuel);
      StillDiffer(r.1, q.1, WithExit(d, r, t.env).1, WithExit(d, q, t.env).1);
    }
  }

  lemma RefusedContext(s: Stmt, t: Setting, sc: Scope, z: seq<Answer>, w: World, fuel: nat, d: Value)
    requires s.With? && OpenCall(s.context, sc) && Reads(s.context, Shadowed(sc)) && Lured(t, sc, z, w, d) && Follows(z, |w.trace|, [Deny(d)])
    ensures Differ(ExecWith(s, t, w, fuel).1, ExecWith(s, Hiding(t), w, fuel).1)
  {
    hide ExecBlock, EvalExpr, Shadowed;
    CallApart(s.context, t, sc, z, w, d);
  }

  lemma WhileApart(s: Stmt, t: Setting, sc: Scope, z: seq<Answer>, w: World, fuel: nat, d: Value)
    requires s.While? && OpenStmt(s, sc) && MayRead(s, Shadowed(sc), sc) && Lured(t, sc, z, w, d)
    requires Follows(z, |w.trace|, StmtLure(s, Shadowed(sc), sc, d).answers) && fuel >= StmtLure(s, Shadowed(sc), sc, d).fuel
    ensures Differ(ExecStmt(s, t, w, fuel).1, ExecStmt(s, Hiding(t), w, fuel).1)
    decreases s, 0
  {
    hide ExecBlock, BlockMayRead, OpenBlock, BlockLure, Shadowed, Differ;
    if Reads(s.cond, Shadowed(sc)) {
      CallApart(s.cond, t, sc, z, w, d);
    } else {
      FollowsParts(z, |w.trace|, [YES], BlockLure(s.body, Shadowed(sc), sc, d).answers);
      CallRuns(s.cond, t, sc, z, w, YES, Shadowed(sc), d);
      ExprAlike(s.cond, t.sc, t.env, w);
      var w1 := EvalExpr(s.cond, t.sc, t.env, w).1;
      BlockApart(s.body, t, sc, z, w1, fuel - 1, d);
      WhileHasBody(s, t, w, fuel);
      WhileHasBody(s, Hiding(t), w, fuel);
      StillDiffer(ExecBlock(s.body, t, w1, fuel - 1).1, ExecBlock(s.body, Hiding(t), w1, fuel - 1).1,
                  ExecStmt(s, t, w, fuel).1, ExecStmt(s, Hiding(t), w, fuel).1);
    }
  }

  lemma IfApart(s: Stmt, t: Setting, sc: Scope, z: seq<Answer>, w: World, fuel: nat, d: Value)
    requires s.If? && OpenStmt(s, sc) && MayRead(s, Shadowed(sc), sc) && Lured(t, sc, z, w, d)
    requires Follows(z, |w.trace|, StmtLure(s, Shadowed(sc), sc, d).answers) && fuel >= StmtLure(s, Shadowed(sc), sc, d).fuel
    ensures Differ(ExecStmt(s, t, w, fuel).1, ExecStmt(s, Hiding(t), w, fuel).1)
    decreases s, 0
  {
    hide ExecBlock, BlockMayRead, OpenBlock, BlockLure, Shadowed, Differ;
    if ArmsMayRead(s.arms, Shadowed(sc), sc) {
      ArmsApart(s.arms, t, sc, z, w, fuel, d);
    } else {
      FollowsParts(z, |w.trace|, Refusals(s.arms), BlockLure(s.els.value, Shadowed(sc), sc, d).answers);
      ArmsRefused(s.arms, t, sc, z, w, fuel, Shadowed(sc), d);
      ArmsAlike(s.arms, t, w, fuel);
      BlockApart(s.els.value, t, sc, z, ExecArms(s.arms, t, w, fuel).1, fuel, d);
    }
  }

  lemma {:induction false} ArmsApart(arms: Arms, t: Setting, sc: Scope, z: seq<Answer>, w: World, fuel: nat, d: Value)
    requires OpenArms(arms, sc) && ArmsMayRead(arms, Shadowed(sc), sc) && Lured(t, sc, z, w, d)
    requires Follows(z, |w.trace|, ArmsLure(arms, Shadowed(sc), sc, d).answers) && fuel >= ArmsLure(arms, Shadowed(sc), sc, d).fuel
    ensures var r, q := ExecArms(arms, t, w, fuel), ExecArms(arms, Hiding(t), w, fuel);
            r.0.Some? && q.0.Some? && Differ(r.1, q.1)
    decreases arms, 0
  {
    hide ExecBlock, BlockMayRead, OpenBlock, BlockLure, Shadowed, Differ;
    if Reads(arms.cond, Shadowed(sc)) {
      CallApart(arms.cond, t, sc, z, w, d);
    } else {
      ExprAlike(arms.cond, t.sc, t.env, w);
      var w1 := EvalExpr(arms.cond, t.sc, t.env, w).1;
      if BlockMayRead(arms.body, Shadowed(sc), sc) {
        FollowsParts(z, |w.trace|, [YES], BlockLure(arms.body, Shadowed(sc), sc, d).answers);
        CallRuns(arms.cond, t, sc, z, w, YES, Shadowed(sc), d);
        BlockApart(arms.body, t, sc, z, w1, fuel, d);
      } else {
        FollowsParts(z, |w.trace|, [NO], ArmsLure(arms.rest, Shadowed(sc), sc, d).answers);
        CallRuns(arms.cond, t, sc, z, w, NO, Shadowed(sc), d);
        ArmsApart(arms.rest, t, sc, z, w1, fuel, d);
      }
    }
  }

  lemma ForApart(s: Stmt, t: Setting, sc: Scope, z: seq<Answer>, w: World, fuel: nat, d: Value)
    requires s.For? && OpenStmt(s, sc) && MayRead(s, Shadowed(sc), sc) && Lured(t, sc, z, w, d)
    requires Follows(z, |w.trace|, StmtLure(s, Shadowed(sc), sc, d).answers) && fuel >= StmtLure(s, Shadowed(sc), sc, d).fuel
    ensures Differ(ExecStmt(s, t, w, fuel).1, ExecStmt(s, Hiding(t), w, fuel).1)
    decreases s, 0
  {
    hide ExecBlock, BlockMayRead, OpenBlock, BlockLure, Shadowed, Differ;
    if Reads(s.iterable, Shadowed(sc)) {
      CallApart(s.iterable, t, sc, z, w, d);
    } else {
      ExprAlike(s.iterable, t.sc, t.env, w);
      if BlockMayRead(s.body, Shadowed(sc), sc) {
        var w2 := ForStarts(s, t, sc, z, w, Give(d), BlockLure(s.body, Shadowed(sc), sc, d).answers, Shadowed(sc), d);
        RoundApart(s.lbl, s.binder, s.body, t, sc, z, w2, fuel, d);
        var r, q := ExecFor(d, s.lbl, s.binder, s.body, t, w2, fuel).1, ExecFor(d, s.lbl, s.binder, s.body, Hiding(t), w2, fuel).1;
        ElseLater(s.els, t, r, fuel);
        ElseLater(s.els, Hiding(t), q, fuel);
        StillDiffer(r, q, ExecStmt(s, t, w, fuel).1, ExecStmt(s, Hiding(t), w, fuel).1);
      } else {
        var w2 := ForStarts(s, t, sc, z, w, STOP, BlockLure(s.els.value, Shadowed(sc), sc, d).answers, Shadowed(sc), d);
        assert ExecFor(d, s.lbl, s.binder, s.body, t, w2, fuel) == (None, w2.Log(IterAdvanced(d)));
        assert ExecFor(d, s.lbl, s.binder, s.body, Hiding(t), w2, fuel) == (None, w2.Log(IterAdvanced(d)));
        BlockApart(s.els.value, t, sc, z, w2.Log(IterAdvanced(d)), fuel, d);
      }
    }
  }

  lemma RoundApart(lbl: Label, binder: Option<Name>, body: Block, t: Setting, sc: Scope, z: seq<Answer>, w: World, fuel: nat, d: Value)
    requires OpenBlock(body, sc) && BlockMayRead(body, Shadowed(sc), sc) && Lured(t, sc, z, w, d)
    requires t.env.next(w.trace, d) == Item(d) && fuel >= 1 + BlockLure(body, Shadowed(sc), sc, d).fuel
    requires Follows(z, |w.trace| + 1, BlockLure(body, Shadowed(sc), sc, d).answers)
    ensures Differ(ExecFor(d, lbl, binder, body, t, w, fuel).1, ExecFor(d, lbl, binder, body, Hiding(t), w, fuel).1)
    decreases body, 1
  {
    hide ExecBlock, BlockMayRead, OpenBlock, BlockLure, Shadowed, Differ;
    var w1 := w.Log(IterAdvanced(d));
    var w2 := if binder.Some? then w1.Set(binder.value, d) else w1;
    assert Holds(w2, Shadowed(sc), d);
    BlockApart(body, t, sc, z, w2, fuel - 1, d);
    ForHasBody(d, lbl, binder, body, t, w, fuel);
    ForHasBody(d, lbl, binder, body, Hiding(t), w, fuel);
    StillDiffer(ExecBlock(body, t, w2, fuel - 1).1, ExecBlock(body, Hiding(t), w2, fuel - 1).1,
                ExecFor(d, lbl, binder, body, t, w, fuel).1, ExecFor(d, lbl, binder, body, Hiding(t), w, fuel).1);
  }

  /** A block that can come to read a shadowed local can be told from one whose locals hide the constants. */
  lemma {:induction false} BlockApart(b: Block, t: Setting, sc: Scope, z: seq<Answer>, w: World, fuel: nat, d: Value)
    requires OpenBlock(b, sc) && BlockMayRead(b, Shadowed(sc), sc) && Lured(t, sc, z, w, d)
    requires Follows(z, |w.trace|, BlockLure(b, Shadowed(sc), sc, d).answers) && fuel >= BlockLure(b, Shadowed(sc), sc, d).fuel
    ensures Differ(ExecBlock(b, t, w, fuel).1, ExecBlock(b, Hiding(t), w, fuel).1)
    decreases b, 0
  {
    hide ExecStmt, May, OpenStmt, StmtScript, StmtLure, MayRead, Shadowed, Differ;
    DeferClosed(b.head, sc);
    if MayRead(b.head, Shadowed(sc), sc) {
      StmtApart(b.head, t, sc, z, w, fuel, d);
      BlockHasHead(b, t, w, fuel);
      BlockHasHead(b, Hiding(t), w, fuel);
      StillDiffer(ExecStmt(b.head, t, w, fuel).1, ExecStmt(b.head, Hiding(t), w, fuel).1, ExecBlock(b, t, w, fuel).1, ExecBlock(b, Hiding(t), w, fuel).1);
    } else {
      FollowsParts(z, |w.trace|, StmtScript(b.head, Falls, sc, d).answers, BlockLure(b.tail, Shadowed(sc), sc, d).answers);
      StmtRuns(b.head, Falls, t, sc, z, w, fuel, Shadowed(sc), d);
      StmtAlike(b.head, t, w, fuel);
      BlockApart(b.tail, t, sc, z, ExecStmt(b.head, t, w, fuel).1, fuel, d);
    }
  }
}
