# Optive: verified models of the compiler's core

Optive is a dynamic language with a bytecode compiler, a hot instruction stream beside the
bytecode, an incremental module builder, a compile-time evaluator and a bytecode cache. This project
models these five parts in Dafny and proves what they are for. Check it with
`dafny verify dfyconfig.toml`.

| Part | Files | Main result |
|---|---|---|
| Code generation | Syntax, Semantics, Machine, Codegen, Simulation, ExprSimulation, PatternSimulation, Exits, Layouts, Steps, CleanupFacts, Regions, StatementSimulation, Labels, StatementLabels, Linker, Correctness, MayEnd, Shadowing, Traces, Scripts, Differences, Agreement, Exactness, Leftovers, Generator | For every function body the generator accepts, as long as no function it calls leaves an iterator frame behind, the linked machine code ends with a result exactly when the body does, with the same value or exception, variables and events, and runs forever exactly when the body does. Which bodies leave frames, lose an exception or read a constant in place of a local is decided by an analysis proved exact. |
| Hot code | HotCode, HotRefinement | One step of the hot stream is one, two or three steps of the cold code, from any state and at any position, except at two kinds of instruction, where it never is. |
| Build | ModuleGraph, ModuleWaves, IncrementalBuild, ImportNames | After any history of builds, the next build reports and leaves on disk what a build in an empty directory would, for every compiler, exactly when it takes over no module whose import names have come to mean something else. |
| Compile-time evaluation | ConstSemantics, ConstText, ConstOrder, ConstFacts, ConstEvaluator, ConstBuild | For programs whose constants hold no set out of order, and operators that put none out of order: whatever the memoising, limited evaluator answers is the plain meaning, and it reports a recursion cycle only where there is no meaning. |
| Bytecode cache | ProgramCodec, CodecRoundTrip, CodecIo, CodecFacts, HotStreams | Reading what was written consumes it exactly and gives the program back unchanged exactly when nothing in it is dropped; every hot stream that is read encodes the code it is read with. |

## How the parts are modelled

**Code generation.** `Semantics` is a structured big-step meaning of function bodies, with `fuel`
for loop iterations only, so that divergence is "no fuel is enough". Calls, attribute reads and
iterators are answered by an arbitrary deterministic environment from the whole history of events;
the events are part of the result. `Machine` is the stack machine: operand stack, iterator frames,
try frames, slots, active exception. `Codegen` is what is emitted, as functions; `Generator` is the
generator itself, a class whose methods push and pop handlers and loops and append instructions, each
method proved to append exactly what the function says and to leave its stacks as they were. The
proof follows the shape of the code: `StatementSimulation` runs the code of each statement,
`Labels` and `StatementLabels` show that every mark is unique and every jump has one,
`Linker` that rewriting labels to positions, in place, changes no run.

`Mode` names the two choices in which the compiled meaning is not the one a reader of the source
would expect; `CODE` is what is compiled and `INTENDED` the other reading. `Differences` and
`Agreement` say exactly when they agree on a run. A variable with the name of a folded constant
reads as the constant, since that is what is compiled; `Scope.Visible` is the scope in which locals
hide the constants.

A call's answer has two parts: what the caller sees, and `env.leaves`, the iterator frames that the
callee leaves on the stack of frames that all calls share. `CallsTidy` says that there are none; the
theorems about whole bodies assume it, `TidyProgram` proves it of whole programs from their syntax, and
`Leftovers` shows what happens otherwise.

`MayEnd` is an analysis of syntax: `MayBlock(b, k, sc)` says whether a block may end in the way `k`,
where calls, attribute reads and iterators may answer anything. `BlockEnds` proves that it misses
nothing, for all bodies. `Scripts` proves that it promises nothing false for bodies whose decisions
are left to calls: it constructs the answers. `Exactness` puts both together.

**Hot code.** `HotCode.Encode` is the encoder, with its one instruction of look-back and two of
look-ahead, proved against a specification by groups. `HotRefinement` has the two machines.
`moduleEnd`, the length of the whole module's code, is where a stranded return goes.

**Build.** Module keys are numbers in their order. `Visitor` is the depth-first search with its
four collections, `ReadyWaves` Kahn's algorithm with its degree counts, `BuildDirectory.CmdBuild` the
command. The compiler is an arbitrary deterministic function, one for each version; SHA-256 is
taken to be injective, so a digest is what it was taken of. Which dependency an import name of a
module stands for is part of the request, and no part of the digest. `ImportNames` keeps, beside
each kept file, the names it was compiled under.

**Compile-time evaluation.** `ConstSemantics` is the plain meaning, without memo, fuel or limits.
`EvalState` is the evaluator's state and its methods are the evaluator; they return, as ghost
evidence, the depth at which the plain meaning gives the same answer. `ConstText` is the canonical
JSON text of arguments that the memo is keyed by; numbers are fractions in lowest terms. `ConstOrder`
says which values the text tells apart, those whose sets are sorted, and that evaluation makes no
others of them. Ghost fields record the arguments each key was made of and the first clash, two
different argument lists with the same text.

**Bytecode cache.** An instruction is its tag with its operands, so one table of operand shapes
stands for the two long matches. `Writer` appends to a buffer and `Cursor` moves through one.
`HotStreams` reads the tags as the instructions of `HotCode` and puts its encoder in the codec.

## Findings

Each is a place where the code does something else than its documentation, its tests or a
neighbouring piece of code suggest. The model follows the code in all of them.

1. An exception that passes a `defer` is replaced. Its handler emits `PopTry`, which clears the
   active exception, then the deferred body, then `Rethrow`, which then fails with "rethrow outside
   except handler" (`src/compiler/codegen.rs:2470-2476`, `src/runtime/vm.rs:5513`, `:5597`).
   `LostExactly` says when a run shows it, `LossExactly` which bodies have such a run,
   `LostExceptionExample` gives one. The promised order of deferred bodies
   (`tests/vm_defer_variants.rs:7-45`) holds on every path: `DefersUnwind`.
2. `return x` reads `x` after the cleanups (`src/compiler/codegen.rs:3009-3036`): a deferred body
   that assigns `x` changes what is returned. `LateReturnExactly`, `LateReturnHarmless`.
3. `return` out of a `for` drops loop counters but not iterator frames
   (`src/compiler/codegen.rs:2984-3007`). All calls share one stack of frames, a `for` advances the
   topmost (`src/runtime/vm.rs:5427-5471`), and a return does not cut it back
   (`src/runtime/vm.rs:7503-7560`). So a loop that calls such a function takes its next item from
   the callee's iterator: `WrongItems`. `FramesExactly` says which bodies leave frames,
   `LeavesOneFrame` is one, and `TidyCallExactly` shows that a compiled call is right exactly when
   the callee has left none. That a `return` merely stands inside a `for` is not enough:
   `DeadReturnLeavesNothing`.
4. Among `catch` clauses a later typed one runs before an earlier untyped one
   (`src/compiler/codegen.rs:1698-1733`): `CatchOrderExactly`, `CatchOrderExample`.
5. A local variable with the name of a top-level `const` is folded to the constant
   (`src/compiler/codegen.rs:3190-3216`): `ShadowedConstExample`. `ShadowingExactly` says for which
   bodies this can ever be seen; a read can also have no effect, `ReadWithoutEffect`.
6. Packing two slots is documented for slots below 2^32; the second one has to be below 2^31
   (`src/compiler/hot_code.rs:255-268`): `TwoSlotsExactly`.
7. The fused remainder test has no guard for the least 64-bit integer and -1, which the unfused
   remainder has (`src/runtime/vm.rs:3334-3346`): `StepRefines`.
8. When the fast path of a fused `if x < n { return y }` does not apply and the comparison still
   holds, the return runs as a cold instruction, which pushes the value and moves to the end of the
   module's code instead of returning (`src/runtime/vm.rs:5303-5307`): `StepRefines`,
   `BigGuardExample`. Code without this guard and the remainder test of 7 never departs from the
   cold machine, and other code does from some state: `DepartsExactly`.
9. The build digest does not say which import name stands for which dependency
   (`src/cli/build_cmd.rs:654-670`): `NamesExactly`, `NamesMatter`, `NamesMatterForInterfaces`.
10. The memo key writes frozen sets in sorted order, but iteration sees their own order
    (`src/compiler/const_eval.rs:1127-1137`, `src/compiler/module_interface.rs:557-568`), so one of
    two sets can be answered with the other's value: `SetOrderExample`, `AskTwice`. Where sets are
    sorted this cannot happen: `TryEval`, `Build`. The
    memo outlives a redeclared `const` (`src/compiler/const_eval.rs:186-207`): `StaleExactly`.
11. A function whose parameters have type annotations is written to the cache without them and is not
    refused (`src/compiler/bc_cache.rs:219-249`): `ComesBackExactly`, `AnnotationLost`.

## Model

| member | source | states |
|---|---|---|
| Correctness.CompilerCorrect | src/compiler/codegen.rs:2827-2836 | for every accepted body, scope and world and every environment whose calls leave no iterator frame: the linked code returns or throws exactly when the body does, with the same result, variables and events, an empty operand stack, no open handler and one leftover iterator frame for each `for` that a `return` left; it runs forever exactly when the body does |
| Correctness.LinkingSucceeds | src/compiler/codegen.rs:2836 | in the code of every accepted body each label is marked once, every jump has its mark, and no resolved `else` position is the sentinel 0 |
| Correctness.MachineExplained | src/runtime/vm.rs:4684-4697 | where calls leave no iterator frame: whenever the machine has halted, the body means that end; it never underflows or gets stuck |
| Correctness.LinkedRuns | src/compiler/codegen.rs:2827-2836 | where calls leave no iterator frame: for every amount of fuel the linked machine ends as the body does, or is still running after at least that many steps |
| Correctness.CompiledRuns | src/compiler/codegen.rs:2827-2829 | the same, under the same condition, for the code with symbolic labels |
| StatementSimulation.SimStmt | src/compiler/codegen.rs:754-1229 | where calls leave no iterator frame: the code of any statement, placed anywhere in any program, does to the stack, iterators, handlers, temporaries and world what the statement means, whether it ends normally, by an exit or by an exception |
| StatementSimulation.SimBlock | src/compiler/codegen.rs:2410-2423 | the same for blocks, which leave one value when asked to and none otherwise |
| StatementSimulation.SimWhile | src/compiler/codegen.rs:1119-1141 | `while` code: the condition is tested before each round, `continue` goes back to it, `break` past the end |
| StatementSimulation.SimCountdown | src/compiler/codegen.rs:1142-1170 | counted `loop` code: the counter stays on the operand stack during the body and is gone after any exit |
| StatementSimulation.SimIteration | src/compiler/codegen.rs:4283-4347 | `for … else` code, where calls in its body leave no frame above the loop's own: one iterator frame during the body, none after; `else` runs exactly when the items are exhausted |
| StatementSimulation.SimTry | src/compiler/codegen.rs:1670-1755 | `try … catch … else` code: the selected clause handles the exception with the two stacks cut back, unhandled exceptions go on with the frame popped |
| StatementSimulation.SimWith | src/compiler/codegen.rs:1546-1636 | `with` code: the exit is called once on each way out, with the exception if there is one, which it can swallow |
| StatementSimulation.SimMatch | src/compiler/codegen.rs:1757-1824 | `match` code: the body of the first matching case with the bindings of its first matching alternative, `else` exactly when none matches |
| StatementSimulation.SimDefer | src/compiler/codegen.rs:2445-2478 | `defer` code: the deferred body runs after the rest of the block however that ends |
| StatementSimulation.DeferExit | src/compiler/codegen.rs:2954-2982 | a deferred body emitted on the way of a `break`, `continue` or `return`, inside other loops than its own, still means the same |
| StatementSimulation.SimIf | src/compiler/codegen.rs:1638-1668 | `if … elif … else` code runs the first block whose condition holds, or `else` |
| StatementSimulation.SimReturn | src/compiler/codegen.rs:3009-3055 | both forms of `return`: the value that is carried through the cleanups, and the variable that is read after them |
| Exits.ThroughLoop | src/compiler/codegen.rs:1189-1206 | an exit past a loop discards exactly what that loop has on the operand stack or the iterator stack |
| Exits.ToBreak | src/compiler/codegen.rs:1189-1206 | `break` arrives at the loop's end with the stacks the loop was entered with, plus its own iterator frame |
| Exits.ToHead | src/compiler/codegen.rs:1207-1221 | `continue` arrives at the loop's head with the loop's own counter or iterator frame kept |
| Exits.RegionExit | src/compiler/codegen.rs:2954-2982 | the code of an exit from inside a handler is that handler's cleanup followed by the code of the exit from outside it |
| Exits.RunDiscards | src/compiler/codegen.rs:1194-1202 | running the discards of a stack of loops drops one value for each counter and one frame for each iterator |
| Regions.WithVerdict | src/compiler/codegen.rs:1610-1635 | the exit's answer decides between swallowing the exception and throwing it again |
| Regions.WithCleanup | src/compiler/codegen.rs:2962-2974 | the exit of a `with` crossed by an exit statement is called with no exception after its frame is popped |
| Regions.RunDispatch | src/compiler/codegen.rs:1698-1733 | the dispatch code goes to the clause that `Select` names, or re-throws |
| Regions.ChosenIsSelected | src/compiler/codegen.rs:1698-1733 | the label that is jumped to belongs to the selected clause |
| PatternSimulation.SimPattern | src/compiler/codegen.rs:1826-1888 | the tests of a pattern fall through exactly when the value matches, with the events of the tests |
| PatternSimulation.RunBind | src/compiler/codegen.rs:2129-2157 | the binding code binds what the pattern binds, for every value of the pattern's shape |
| PatternSimulation.SimAlts | src/compiler/codegen.rs:1787-1824 | or-patterns jump to the body of the first alternative that matches |
| ExprSimulation.SimExpr | src/compiler/codegen.rs:3188-3350 | the code of any expression, folded or not, pushes its value or raises its error, with the same events |
| ExprSimulation.FoldSound | src/compiler/codegen.rs:3190-3216 | a value that folding finds, within its step and allocation limits, is the value of the expression in every world; folding fails silently otherwise |
| ExprSimulation.SimShortCut | src/compiler/codegen.rs:3285-3318 | `and` and `or` evaluate the right operand only if needed and give an operand, not a boolean |
| CleanupFacts.BlockAnywhere | src/compiler/codegen.rs:2480-2547 | a body without exits is accepted in any loop context, so it may be emitted again on every exit path |
| CleanupFacts.BlockStays | src/compiler/codegen.rs:2480-2547 | running a body without exits ends normally, by an exception or not at all |
| StatementLabels.NeatBlock | src/compiler/codegen.rs:2410-2443 | block code marks only its own new labels, each once, and jumps only to them or to labels of enclosing loops |
| StatementLabels.NeatExit | src/compiler/codegen.rs:2954-3007 | re-emitted cleanups mark new labels each time, so no label is marked twice |
| Linker.ResolveLabels | src/compiler/opcode.rs:250-290 | resolving in place rewrites every jump to the position of its mark, or reports an undefined label exactly when one is |
| Linker.StepLinks | src/compiler/opcode.rs:250-290 | one step of the resolved code is one step of the labelled code, with open try frames resolved too |
| Linker.RunLinks | src/compiler/opcode.rs:250-290 | so are any number of steps |
| Differences.DefersUnwind | src/compiler/codegen.rs:2425-2478 | a block does what its other statements do and then runs the deferred bodies that control has passed, each exactly once, last in first out, on every path |
| Agreement.LostExactly | src/compiler/codegen.rs:2470-2476 | for `defer c` before a rest, neither of which has a further `defer` that itself can lose an exception or change what is returned, and any run: the compiled meaning is the intended one exactly when, if `c` ends normally, the rest has not thrown another exception than the replacement and has not returned a variable that `c` changes |
| Exactness.LossExactly | src/compiler/codegen.rs:2470-2476 | for `defer c` before a rest whose decisions, like those of `c`, are left to calls, and which returns no variable that `c` assigns: no run in any world shows a difference exactly when, by their syntax, the rest cannot throw or `c` cannot end normally |
| Differences.CatchOrderExactly | src/compiler/codegen.rs:1698-1733 | the clause that runs is the first in source order that would handle the exception exactly when no untyped clause stands before the first matching typed one |
| Exactness.CatchOrderExample | src/compiler/codegen.rs:1698-1733 | the linked code of `try { throw e } catch (...) { return a } catch (x: T) { return b }` returns `b` for an `e` that is a `T`, where the first clause in source order returns `a` |
| Exactness.ShadowingExactly | src/compiler/codegen.rs:3190-3216 | a body whose decisions are left to calls means the same in all worlds as with locals that hide the constants, exactly when no read of a shadowed local can be reached |
| Exactness.UnreadShadowsHarmless | src/compiler/codegen.rs:3190-3216 | the harmless half for all bodies: one that cannot come to read a local with a constant's name means what it would if locals hid the constants |
| Exactness.ShadowedConstExample | src/compiler/codegen.rs:3190-3216 | the linked code of the body `x` returns the constant `x`, whatever the local `x` holds |
| Shadowing.BlockAlike | src/compiler/codegen.rs:3190-3216 | a block that cannot come to read a shadowed local ends alike under both readings, with the same world |
| MayEnd.BlockEnds | src/compiler/codegen.rs:2410-2443 | however a block ends, in any world and with any fuel, the analysis of its syntax says that it may end so |
| Scripts.BlockRuns | src/compiler/codegen.rs:2410-2443 | for each way to end that the analysis allows to a block whose decisions are left to calls, the answers it constructs make the block end so |
| Exactness.NoFrameLeft | src/compiler/codegen.rs:2984-3007 | a body in which no `return` inside a `for` can be reached leaves no iterator frame, on any run |
| Exactness.FramesExactly | src/compiler/codegen.rs:2984-3007 | the compiled code of a body whose decisions are left to calls leaves frames, in some world, exactly when a `return` inside a `for` can be reached |
| Exactness.TidyProgram | src/runtime/vm.rs:7503-7560 | if no function of a program can reach a `return` inside a `for`, calls leave no frame at any depth of calls, so that the hypothesis of the correctness theorem holds for the whole program |
| Exactness.LeavesOneFrame | src/compiler/codegen.rs:2984-3007 | the linked code of `for x in xs { return x }` returns the first item with one frame left on the iterator stack |
| Leftovers.TidyCallExactly | src/runtime/vm.rs:7503-7560 | the linked code of a call does what the call means exactly when the callee has left no iterator frame |
| Leftovers.WrongItems | src/runtime/vm.rs:5427-5471 | `for y in ys { f() }` with an `f` that leaves a frame: the machine asks that frame for the second item, where the meaning asks the loop's own iterator |
| Agreement.LateReturnHarmless | src/compiler/codegen.rs:3009-3036 | if no deferred body assigns a variable that the rest of its block returns, reading it late cannot be told from reading it early, on any run |
| Agreement.LateReturnExactly | src/compiler/codegen.rs:3009-3036 | for `defer c; return x` the early and the late reading agree exactly when `c`, if it completes, leaves `x` as it was |
| Agreement.LateReturnExample | src/compiler/codegen.rs:3009-3036 | a body that returns 2 where the intended reading returns the old value |
| Agreement.QuietDefersIntended | src/compiler/codegen.rs:2425-2478 | the compiled meaning is the intended one on all runs of every body in which no exception can pass a deferred body that ends normally and no deferred body assigns what its rest returns |
| Agreement.LostExceptionExample | src/compiler/codegen.rs:2470-2476 | a body whose caller sees another exception than the one thrown |
| Agreement.BlockKeeps | src/compiler/codegen.rs:444-480 | a run leaves every variable alone that the block does not assign |
| Agreement.BlockSame | src/compiler/codegen.rs:2410-2478 | two readings of a tame block give the same outcome up to the early or late value of a returned variable |
| Generator.Generator.Compile | src/compiler/codegen.rs:2827-2836 | the generator succeeds exactly on the bodies it accepts and emits exactly the code that is proved correct |
| Generator.Generator.GenStmt | src/compiler/codegen.rs:754-1229 | appends the statement's code and restores its loop and handler stacks, or fails exactly when the statement is not accepted |
| Generator.Generator.GenFor | src/compiler/codegen.rs:4283-4347 | the same for `for … else` |
| Generator.Generator.GenTry | src/compiler/codegen.rs:1670-1755 | the same for `try` |
| Generator.Generator.GenWith | src/compiler/codegen.rs:1546-1636 | the same for `with`, its handler open during the body |
| Generator.Generator.GenDeferRegion | src/compiler/codegen.rs:2445-2478 | the same for a `defer` region, its handler open for the rest of the block |
| Generator.Generator.GenCases | src/compiler/codegen.rs:1787-1824 | the same for the cases of a `match` |
| Generator.Generator.GenExpr | src/compiler/codegen.rs:3188-3350 | the same for expressions, folded or not |
| Generator.Generator.EmitHandlerExitCleanups | src/compiler/codegen.rs:2954-2982 | emits the cleanups of the handlers above a depth, innermost first, and leaves the handler stack as it was |
| Generator.Generator.GenJump | src/compiler/codegen.rs:1189-1221 | `break` and `continue` find the innermost loop of that label or fail, clean up to its depth and discard the loops inside |
| Generator.Generator.DiscardLoopStackCounters | src/compiler/codegen.rs:2984-3007 | drops one value for each counted loop that is open, keeping the value on top if told to |
| HotCode.SlotImmExactly | src/compiler/hot_code.rs:242-252 | packing a slot and an immediate is undone by unpacking exactly when the slot fits in 32 bits and the immediate in 32 signed bits |
| HotCode.TwoSlotsExactly | src/compiler/hot_code.rs:255-268 | packing two slots is undone exactly when the first fits in 32 bits and the second in 31, or is among the highest 2^31 machine words |
| HotCode.EncodeOne | src/compiler/hot_code.rs:81-232 | looking one back and two ahead finds the group an instruction belongs to, and its operand |
| HotCode.Encode | src/compiler/hot_code.rs:74-235 | the two arrays hold, at each position, the fused operation, what a fused operation still needs, or the instruction's own operation |
| HotRefinement.StepRefines | src/runtime/vm.rs:3160-3790 | from any state, at any position, even inside a fused group, one hot step is one to three cold steps, but for the unguarded remainder and the stranded return, where it is never the cold step |
| HotRefinement.RunRefines | src/runtime/vm.rs:4206-4360 | any hot run without those two is a cold run of at least as many and at most three times as many steps |
| HotRefinement.SameResult | src/runtime/vm.rs:4206-4360 | a cold run that ends, ends on the hot stream too, no later and the same way |
| HotRefinement.DepartsExactly | src/runtime/vm.rs:3160-3790 | code can be in a state where the hot machine departs exactly when it has a fused guard or a fused remainder test of two different slots |
| HotRefinement.PlainCodeAgrees | src/runtime/vm.rs:4206-4360 | code with neither gives the same result on the hot stream, from any state, no later |
| HotRefinement.BigGuardExample | src/runtime/vm.rs:5303-5307 | a function that returns its argument when cold, and on the hot stream moves to the end of the module's code, which returns nothing if that is outside the function |
| HotRefinement.GuardRefines | src/runtime/vm.rs:3762-3790 | the fused guard finds the slot to return in the operand of the instruction it skips |
| HotRefinement.BranchRefines | src/compiler/hot_code.rs:120-160 | the fused branch finds its target in the operand of the instruction it skips |
| HotRefinement.FastModIsFloor | src/runtime/vm.rs:3430-3449 | the corrected machine remainder is the floored remainder, for all operands, and they are zero together |
| ModuleGraph.TopologicalOrder | src/cli/build_cmd.rs:1071-1118 | succeeds exactly on acyclic graphs, with every module once after all its dependencies; otherwise reports a real closed cycle |
| ModuleGraph.Visitor.Visit | src/cli/build_cmd.rs:1074-1101 | marks as temporary exactly what is on the stack, which is a path; leaves the stack as it was or returns a cycle |
| ModuleGraph.OrderMeansAcyclic | src/cli/build_cmd.rs:1071-1118 | a graph with a dependency order of all its modules has no cycle |
| ModuleWaves.ReadyWaves | src/cli/build_cmd.rs:559-596 | counting degrees down gives, in ascending order, the modules whose dependencies are all in earlier waves |
| ModuleWaves.WaveIsDepth | src/cli/build_cmd.rs:559-596 | wave n holds exactly the modules whose longest dependency chain has n links |
| ModuleWaves.LeftOutExactly | src/cli/build_cmd.rs:559-596 | a module is in no wave exactly when it can reach a cycle |
| ModuleWaves.ReachableModules | src/cli/build_cmd.rs:1037-1069 | the work list keeps exactly what is reachable from the starts, and that is closed under dependencies |
| ModuleWaves.ReachableKept | src/cli/build_cmd.rs:1037-1069 | every closed set with the starts contains what is kept: it is the least one |
| ModuleWaves.RetainedIsClosed | src/cli/build_cmd.rs:231-241 | cutting the graph down to what is kept leaves no missing dependency |
| IncrementalBuild.EveryBuildIsClean | src/cli/build_cmd.rs:242-310 | after any history of builds, of any versions, graphs, sources and options, some failing, whose import names resolve alike, the next build gives the same outputs or error as a clean one and leaves the same files |
| IncrementalBuild.LiveIsSound | src/cli/build_cmd.rs:831-851 | after any such history every kept interface and bytecode file is what its own recorded inputs compile to |
| IncrementalBuild.RestSame | src/cli/build_cmd.rs:255-266 | a build from a sound directory gives what a build from an empty one gives, errors included |
| IncrementalBuild.JobsIrrelevant | src/cli/build_cmd.rs:598-652 | the number of jobs changes neither whether a build succeeds nor its outputs |
| IncrementalBuild.EveryModuleBuilt | src/cli/build_cmd.rs:242-310 | a build that succeeds on an acyclic graph has an output for every module, and no wave ever misses an interface |
| IncrementalBuild.OneSame | src/cli/build_cmd.rs:654-745 | a cache hit gives what compiling would, and what is then written is sound again |
| ImportNames.NamesExactly | src/cli/build_cmd.rs:668-690 | after any history of builds, for a next build that writes bytecode: it is clean for every compiler it succeeds with, exactly when no compiler's build takes over a module whose import names resolve otherwise than when it was compiled |
| ImportNames.KeptNamesClean | src/cli/build_cmd.rs:242-310 | for any one compiler and any history, names changing at will: a build that takes over only modules whose names resolve as they did is clean |
| ImportNames.LiveIsKept | src/cli/build_cmd.rs:831-851 | after any history at all each kept file is what its recorded inputs compiled to under the names of the build that compiled it |
| ImportNames.ChangedNamesShow | src/cli/build_cmd.rs:668-690 | if some compiler's build that writes bytecode takes over a module under changed names, the build of some compiler succeeds and is not clean |
| IncrementalBuild.NamesMatter | src/cli/build_cmd.rs:668-690 | two exchanged import names give stale bytecode |
| IncrementalBuild.NamesMatterForInterfaces | src/cli/build_cmd.rs:668-690 | the same exchange gives stale exports in a build of interfaces only |
| IncrementalBuild.BuildWave | src/cli/build_cmd.rs:598-652 | one job stops at the first error, several report the least error; without errors both give the same outputs in order |
| IncrementalBuild.BuildAll | src/cli/build_cmd.rs:242-310 | the wave loop computes the build of what is left after each wave |
| IncrementalBuild.BuildDirectory.CmdBuild | src/cli/build_cmd.rs:154-310 | reports a cycle, an error or all outputs; replaces the directory only after success |
| ConstEvaluator.EvalState.Eval | src/compiler/const_eval.rs:258-430 | if the sets in the constants and locals are sorted and operators keep them so, argument lists that are written alike are the same throughout; where this is so, any answer but a limit is the plain one, and a cycle is reported only for a call that is running and that every derivation of this expression would need; answers are also plain where no function tells apart lists that are written alike; on anything but an error stack, depth and active calls are restored, the memo only grows and all limits hold |
| ConstEvaluator.EvalState.CallFunction | src/compiler/const_eval.rs:555-627 | the same for calls: what is remembered stays the plain value of its call |
| ConstEvaluator.EvalState.ExecBlock | src/compiler/const_eval.rs:638-790 | the same for blocks, whose last expression is their value when asked for |
| ConstEvaluator.EvalState.ExecWhile | src/compiler/const_eval.rs:746-756 | the same for `while`, however many rounds it takes |
| ConstEvaluator.EvalState.Repeat | src/compiler/const_eval.rs:757-779 | the same for counted loops, which end even with bodies that use no step |
| ConstEvaluator.EvalState.Iterate | src/compiler/const_eval.rs:822-887 | the same for `for` |
| ConstEvaluator.CallCycles | src/compiler/const_eval.rs:583-588 | a cycle found inside a call is of a call running before it, or this call has no derivation at all |
| ConstEvaluator.NoDescent | src/compiler/const_eval.rs:583-588 | a call each of whose derivations contains a smaller one has none |
| ConstEvaluator.RememberOne | src/compiler/const_eval.rs:625 | adding a finished call keeps every remembered value right |
| ConstFacts.CarryExpr | src/compiler/const_eval.rs:258-430 | a plain value does not change with deeper evaluation or further constants; in one context no plain answer changes with depth |
| ConstFacts.CarryCall | src/compiler/const_eval.rs:555-627 | the same for calls |
| ConstBuild.TryEval | src/compiler/const_eval.rs:229-234 | from a fresh state: if the sets in the constants are sorted and operators keep them so, an answer is the plain one and a cycle means there is none at any depth; answers are plain also if no function tells apart argument lists that are written alike |
| ConstBuild.Build | src/compiler/const_eval.rs:186-207 | with new names, and sets in the constants sorted and kept so: building all declarations with one shared memo gives what evaluating them in order without a memo gives, limits aside |
| ConstBuild.OneMeaning | src/compiler/const_eval.rs:186-207 | limits aside, the declarations have at most one meaning |
| ConstBuild.StillRemembered | src/compiler/const_eval.rs:186-207 | what is remembered stays right when a new constant is added |
| ConstBuild.StaleExactly | src/compiler/const_eval.rs:186-207 | after `X` is declared anew, building `B = f()` for `const func f() { X }` gives the old value, which is right exactly when the two values are equal |
| ConstBuild.AskTwice | src/compiler/const_eval.rs:555-627 | for any function, two argument lists that are written alike are answered alike; with sorted sets in the constants and the first list, the second answer is right exactly when the two calls have the same plain value |
| ConstBuild.StillBlind | src/compiler/const_eval.rs:186-207 | functions that tell no lists written alike apart stay so when a constant is added, so the condition can be checked before a build |
| ConstBuild.ConstantsAreBlind | src/compiler/const_eval.rs:555-627 | functions whose bodies are constants meet the condition |
| ConstBuild.TextExactlyDecides | src/compiler/const_eval.rs:1127-1137 | for an `f` whose body is one name: building `A = f(S)` and `B = f(T)` gives `B` its plain value exactly when `T` is written otherwise than `S` or the plain values of the calls are the same |
| ConstBuild.SetOrderExample | src/compiler/const_eval.rs:1127-1137 | with the identity for `f` and the sets {1, 2} and {2, 1}, `B` is built to the first set, which is not its value |
| ConstBuild.ClashIsOrder | src/compiler/const_eval.rs:1127-1137 | different argument lists are written alike exactly when sorting the sets in them makes them equal, so one of them has a set that is not sorted |
| ConstText.TextExactly | src/compiler/module_interface.rs:394-434 | the canonical text of two argument lists is the same exactly when they are the same up to the order of set elements |
| ConstText.OrderedTextsTell | src/compiler/module_interface.rs:394-434 | lists of arguments whose sets are all sorted have the same text exactly when they are the same |
| ConstOrder.TidySet | src/compiler/module_interface.rs:557-568 | a set is left as it is by the text's sorting exactly when its elements are sorted |
| ConstOrder.ItemsTidy | src/compiler/const_eval.rs:1138-1165 | what `for` goes through in a value whose sets are sorted are such values |
| CodecRoundTrip.RoundTrip | src/compiler/bc_cache.rs:126-208 | reading a written program that fits the limits consumes exactly the bytes written and gives the program with its hot streams made anew and the dropped parts gone |
| CodecRoundTrip.RoundValue | src/compiler/bc_cache.rs:370-517 | the same for constants, through nested tuples, frozen collections and function constants, at every depth |
| CodecRoundTrip.RoundFunc | src/compiler/bc_cache.rs:209-327 | the same for functions |
| CodecRoundTrip.RoundFields | src/compiler/bc_cache.rs:519-1018 | the operands of every instruction are read in the order and width they are written |
| CodecRoundTrip.RoundCount | src/compiler/bc_cache.rs:1077-1085 | the guard on lengths never refuses what was written |
| CodecFacts.ComesBackExactly | src/compiler/bc_cache.rs:126-208 | a written program comes back unchanged exactly when neither it nor a function in it has a dropped part, another name or a foreign hot stream |
| CodecFacts.AnnotationLost | src/compiler/bc_cache.rs:219-249 | a program of one function with an annotated parameter is written, and reading it gives the program without the annotation |
| CodecFacts.ProgramRebuilt | src/compiler/bc_cache.rs:172-176 | for any bytes at all, every hot stream of a program that is read is the one its code has |
| CodecFacts.Reload | src/compiler/bc_cache.rs:92-116 | storing and loading gives the kept program, or nothing when it cannot be written or is too big |
| CodecFacts.MapComesBack | src/compiler/bc_cache.rs:152-196 | in whatever order a map of functions is written, the map that is read has the same names, each with what is kept of its function |
| HotStreams.StreamComesBack | src/compiler/bc_cache.rs:172-199 | a program whose hot stream is the encoding of its code comes back with that stream |
| HotStreams.FunctionStreamComesBack | src/compiler/bc_cache.rs:209-327 | the same for each function |
| HotStreams.MakeStream | src/compiler/bc_cache.rs:172-199 | running the encoder on the code that was read gives the stream the format speaks of |
| HotStreams.LoadedStreamEncodes | src/compiler/bc_cache.rs:172-199 | whatever bytes are read, the hot stream of the program encodes its code in the sense of the hot encoder's specification |
| CodecIo.Writer.WriteProgram | src/compiler/bc_cache.rs:126-158 | appends the program's bytes, or fails exactly when some part cannot be written |
| CodecIo.Writer.WriteValue | src/compiler/bc_cache.rs:374-434 | appends a constant's bytes, or fails exactly when it is too deep or of another kind |
| CodecIo.Cursor.ReadProgram | src/compiler/bc_cache.rs:160-208 | reads what the format says stands at the cursor, for any bytes |
| CodecIo.Cursor.ReadValue | src/compiler/bc_cache.rs:440-517 | the same for constants; ends because every value takes at least a byte |
| CodecIo.Cursor.ReadFunc | src/compiler/bc_cache.rs:251-327 | the same for functions, with the hot stream made from the code |

## Left out

- Slots: names own their locals and temporaries are numbered; the assignment of slot numbers is not modelled.
- Statements: bare blocks and script-level scopes, `for` over several iterables, destructuring patterns, struct and call patterns, `?`, `return` inside a match expression, yields, immutability checks, return wrappers, macros, quotes, declarations of types, generators, `select`, `go` and `par`.
- Comments: they are dropped from function bodies before code generation here; the compile-time evaluator's model has them.
- Folding in the compiler's model covers constants, operators, `and`, `or`, tuples and if-then-else; folding of `const func` calls, of pure builtins and of frozen collections is left to the evaluator's model.
- Passes after linking: compaction, peephole fusion and specialisation. The hot code model starts from the instructions they produce.
- Values: operators, truth of objects, attribute reads and calls are parameters. Lists are values, so a `match` subject that changes during matching is not covered; errors of the host are exception values without their texts.
- HotRefinement.StepRefines: instructions whose effect is not looked into (calls of other functions, globals, text and list addition) are one shared step on both machines; what a call does to the debug and scheduling state is not modelled.
- HotRefinement.RunRefines: states at the two exceptional instructions are excluded, since there the claim is false; `PlainCodeAgrees` needs no such condition.
- Correctness.CompilerCorrect: assumes that calls leave no iterator frame, which `TidyCallExactly` and `WrongItems` show to be needed and `TidyProgram` proves of programs in which no `return` inside a `for` can be reached; the meaning of a body knows no frames of others. Attribute reads, iterators and operators that run functions of the program can leave frames too; the machine gives them none.
- Exactness.FramesExactly: exact for bodies of expressions, assignments, `throw`, `if`, `while`, `loop`, `for … else`, `with`, `try` with one clause for all exceptions or none, `break`, `continue` and `return` in which every expression is a call of a constant, or in `return` a local; typed clauses, `match` and `defer` can make a part of a body unreachable in ways the analysis does not see. For all bodies one half is proved, `NoFrameLeft`. The same fragment bounds BlockRuns, LossExactly and ShadowingExactly, with `BlockEnds`, `QuietDefersIntended` and `UnreadShadowsHarmless` for all bodies.
- Agreement.LostExactly: further `defer`s inside are covered only where, by their syntax, they lose nothing themselves.
- IncrementalBuild.EveryBuildIsClean: assumes that import names resolve alike in the history; `KeptNamesClean` and `NamesExactly` say what holds otherwise; bundles, executables, pruning options and the files of the graph and state are not modelled.
- IncrementalBuild.BuildWave: threads are modelled by their results, which do not depend on their order; sorting the outputs is.
- File system, parsing of sources, resolution of imports to files, and collisions of SHA-256.
- ConstEvaluator.EvalState.Eval: dicts, bytes, set literals (sets are constants and arguments), slices, members of imported modules, named and splatted arguments, variadic parameters, parameter patterns and checked types; indexing and builtins are parameters; error texts, call stacks in messages and step counts are dropped.
- ConstBuild.Build: says nothing of declarations under a known name, or of functions that tell apart argument lists written alike once such lists have met, which takes a set out of order, except for short declarations; `StaleExactly`, `AskTwice` and `SetOrderExample` show that there it can be wrong. A cycle reported after such lists have met may be none; the check for forbidden effects before evaluation is not modelled.
- ImportNames.NamesExactly: builds of interfaces only have the sound half, `KeptNamesClean`, and the example `NamesMatterForInterfaces`.
- CodecRoundTrip.RoundTrip: UTF-8 and the text of wide numbers are parameters; the hot encoder is one too, with the real one put in by `HotStreams`; a list of functions, in the order they are written in, stands for the map, and `MapComesBack` speaks of the map; limits are assumed, since the encoder does not check them.
- CodecIo.Cursor.ReadProgram: where the cursor stands after a failed read is not said.
- Free-variable analysis, dependency resolution, the lock file, and reading constants back from JSON.
