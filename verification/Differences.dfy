/** Where the compiled meaning differs from the intended one, and where it does not. */
module Differences {
  import opened Wrappers
  import opened Syntax
  import opened Semantics
  import opened CleanupFacts

  // ----- deferred bodies run last in, first out -----

  /** The statements of a block in order, and the deferred bodies that control has passed. */
  function Forward(b: Block, t: Setting, w: World, fuel: nat): (Result, seq<Block>)
    decreases b
  {
    match b
    case Nil => ((Normal(Unit), w), [])
    case Cons(Defer(cleanup), rest) =>
      var (r, cs) := Forward(rest, t, w, fuel);
      (r, [cleanup] + cs)
    case Cons(s, rest) =>
      var (o, w1) := ExecStmt(s, t, w, fuel);
      if !o.Normal? then ((o, w1), [])
      else if rest.Nil? then ((if Yields(s) then o else Normal(Unit), w1), [])
      else Forward(rest, t, w1, fuel)
  }

  /** Run the bodies from the last to the first, each once, each taking over the outcome so far. */
  function Unwind(cleanups: seq<Block>, r: Result, t: Setting, fuel: nat): Result
    decreases |cleanups|
  {
    if cleanups == [] || r.0.Timeout? then r else
    var last := |cleanups| - 1;
    Unwind(cleanups[..last], Resume(t.mode, r.0, ExecBlock(cleanups[last], t, r.1, fuel)), t, fuel)
  }

  /** A block does what its statements do, then runs every deferred body it has passed, exactly
      once, in reverse order, however its statements ended. */
  lemma {:induction false} DefersUnwind(b: Block, t: Setting, w: World, fuel: nat)
    ensures var (r, cleanups) := Forward(b, t, w, fuel);
            ExecBlock(b, t, w, fuel) == Unwind(cleanups, r, t, fuel)
    decreases b
  {
    if b.Cons? {
      if b.head.Defer? {
        DefersUnwind(b.tail, t, w, fuel);
        var (r, cleanups) := Forward(b.tail, t, w, fuel);
        UnwindFirst(b.head.body, cleanups, r, t, fuel);
      } else if !b.tail.Nil? {
        DefersUnwind(b.tail, t, ExecStmt(b.head, t, w, fuel).1, fuel);
      }
    }
  }

  /** The first body to be registered runs last. */
  lemma {:induction false} UnwindFirst(first: Block, cleanups: seq<Block>, r: Result, t: Setting, fuel: nat)
    ensures var inner := Unwind(cleanups, r, t, fuel);
            Unwind([first] + cleanups, r, t, fuel)
            == if inner.0.Timeout? then inner else Resume(t.mode, inner.0, ExecBlock(first, t, inner.1, fuel))
    decreases |cleanups|
  {
    var all := [first] + cleanups;
    var last := |all| - 1;
    if r.0.Timeout? {
    } else if cleanups == [] {
      assert all[..last] == [];
    } else {
      assert all[..last] == [first] + cleanups[..last - 1];
      UnwindFirst(first, cleanups[..last - 1], Resume(t.mode, r.0, ExecBlock(all[last], t, r.1, fuel)), t, fuel);
    }
  }

  // ----- catch clauses -----

  /** The first clause in source order that handles the exception. */
  function InOrder(cs: Catches, exc: Value, env: Env, i: nat): Option<nat> {
    match cs
    case NoCatch => None
    case Catch(p, _, rest) =>
      if Untyped(p) || env.isA(exc, p.typeName.value) then Some(i) else InOrder(rest, exc, env, i + 1)
  }

  predicate Untyped(p: CatchPattern) {
    p.AnyExc? || p.typeName.None?
  }

  lemma {:induction false} OrderOfChoices(cs: Catches, exc: Value, env: Env, i: nat)
    ensures var typed, untyped := SelectTyped(cs, exc, env, i), SelectUntyped(cs, i);
            && (typed.Some? ==> typed.value >= i) && (untyped.Some? ==> untyped.value >= i)
            && (typed.Some? && untyped.Some? ==> typed.value != untyped.value)
            && InOrder(cs, exc, env, i) == (if untyped.Some? && (typed.Some? ==> untyped.value < typed.value) then untyped else typed)
    decreases cs
  {
    if cs.Catch? { OrderOfChoices(cs.rest, exc, env, i + 1); }
  }

  /** The clause that runs is the first one in source order exactly when no untyped clause stands
      before the first typed clause that matches. */
  lemma CatchOrderExactly(cs: Catches, exc: Value, env: Env)
    ensures var typed, untyped := SelectTyped(cs, exc, env, 0), SelectUntyped(cs, 0);
            Select(cs, exc, env) == InOrder(cs, exc, env, 0)
            <==> !(typed.Some? && untyped.Some? && untyped.value < typed.value)
  {
    OrderOfChoices(cs, exc, env, 0);
  }

  // ----- whole bodies -----

  function AssignedBy(s: Stmt): set<Name> {
    match s
    case Let(x, _) => {x}
    case Assign(x, _) => {x}
    case If(arms, els) => AssignedByArms(arms) + AssignedByElse(els)
    case While(_, _, body) => Assigned(body)
    case Loop(_, _, body) => Assigned(body)
    case For(_, binder, _, body, els) => (if binder.Some? then {binder.value} else {}) + Assigned(body) + AssignedByElse(els)
    case Try(body, catches, els) => Assigned(body) + AssignedByCatches(catches) + AssignedByElse(els)
    case With(_, alias, body) => (if alias.Some? then {alias.value} else {}) + Assigned(body)
    case Match(_, cases, els) => AssignedByCases(cases) + AssignedByElse(els)
    case Defer(body) => Assigned(body)
    case _ => {}
  }

  function AssignedByElse(els: Option<Block>): set<Name> {
    if els.Some? then Assigned(els.value) else {}
  }

  function Assigned(b: Block): set<Name> {
    match b
    case Nil => {}
    case Cons(s, rest) => AssignedBy(s) + Assigned(rest)
  }

  function AssignedByArms(arms: Arms): set<Name> {
    Assigned(arms.body) + if arms.Arm? then AssignedByArms(arms.rest) else {}
  }

  function AssignedByCatches(cs: Catches): set<Name> {
    match cs
    case NoCatch => {}
    case Catch(p, body, rest) => (if p.BindExc? then {p.x} else {}) + Assigned(body) + AssignedByCatches(rest)
  }

  function AssignedByCases(cs: Cases): set<Name> {
    match cs
    case NoCase => {}
    case Case(p, body, rest) => (match p case Single(q) => Bound(q) case OneOf(alts) => BoundAll(alts)) + Assigned(body) + AssignedByCases(rest)
  }

  function Bound(p: Pattern): set<Name> {
    match p
    case BindPat(x) => {x}
    case ValuePat(_) => {}
    case SeqPat(ps) => BoundAll(ps)
  }

  function BoundAll(ps: Patterns): set<Name> {
    match ps
    case NoPat => {}
    case MorePat(p, rest) => Bound(p) + BoundAll(rest)
  }

  /** The variables that some plain `return x` in the block names. */
  function ReturnedBy(s: Stmt): set<Name> {
    match s
    case If(arms, els) => ReturnedByArms(arms) + (if els.Some? then ReturnedIn(els.value) else {})
    case While(_, _, body) => ReturnedIn(body)
    case Loop(_, _, body) => ReturnedIn(body)
    case For(_, _, _, body, els) => ReturnedIn(body) + (if els.Some? then ReturnedIn(els.value) else {})
    case Try(body, catches, els) => ReturnedIn(body) + ReturnedByCatches(catches) + (if els.Some? then ReturnedIn(els.value) else {})
    case With(_, _, body) => ReturnedIn(body)
    case Match(_, cases, els) => ReturnedByCases(cases) + (if els.Some? then ReturnedIn(els.value) else {})
    case Defer(body) => ReturnedIn(body)
    case Return(Some(Var(x))) => {x}
    case _ => {}
  }

  function ReturnedIn(b: Block): set<Name> {
    match b
    case Nil => {}
    case Cons(s, rest) => ReturnedBy(s) + ReturnedIn(rest)
  }

  function ReturnedByArms(arms: Arms): set<Name> {
    ReturnedIn(arms.body) + if arms.Arm? then ReturnedByArms(arms.rest) else {}
  }

  function ReturnedByCatches(cs: Catches): set<Name> {
    match cs
    case NoCatch => {}
    case Catch(_, body, rest) => ReturnedIn(body) + ReturnedByCatches(rest)
  }

  function ReturnedByCases(cs: Cases): set<Name> {
    match cs
    case NoCase => {}
    case Case(_, body, rest) => ReturnedIn(body) + ReturnedByCases(rest)
  }
}
