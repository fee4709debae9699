# Kinmokusei compiler model

Kinmokusei compiles `.km` programs to Go. This project models the parts of the compiler and of the Go
code it emits whose correctness is not visible from one function, and proves what they are for. Verify
with `dafny verify dfyconfig.toml` (Dafny 4.11).

## What is modelled

**Exceptions and iterator loops** (`Completions`, `ExceptionSource`, `GoMachine`, `TryLowering`, `TryMachinery`,
`TryFragments`, `IteratorFragments`, `TryCorrectness`, `TryTheorem`). The source has try, catch, finally, return,
throw, rethrow, `?` propagation, loops and iterator loops, with a direct evaluator. The target has function
literals, deferred calls, recover, panics (with an explicit nil panic), `runtime.Goexit`, and range-over-func.
`Lower` is the generator's translation with its flags; the main theorem says both forms end alike, for every
program and store. Iterator loops use the same machine: the adapter's frame, `run` and `invoke` are emitted code.

**C FFI ownership protocol** (`LockPlan`, `CallbackProtocol`, `CallbackInvariant`, `CallbackSteps`, `CallbackSafety`,
`CallbackDeadlock`, `CallbackRings`, `CallbackWitnesses`, `CallbackOutcomes`, `CallbackStates`). Register and Close of
callback registrations, handle Close, plain calls and callbacks, as a step machine over any number of threads,
handles and registrations. One step is one lock operation, native call, free, or section under a callback state's
mutex. An invariant of all runs gives the lease count and the lifetime of contexts and retained inputs; what Register
and Close leave follows the native status, and every outcome has its cause; cycles of waiters are described exactly,
on states and on what callbacks may do; where the protocol falls short, a run is given that gets there.

**Deferred calls** (`DeferSemantics`, `DeferTheorems`, `DeferRuntime`). The chunked runtime as a class with the emitted
fields, against the plain newest-first fold of Go.

**Evaluation order** (`OrderTarget`, `OrderSchedules`, `OrderLowering`, `OrderShapes`, `EvaluationOrder`,
`OrderFailures`, `OrderedAssignment`). Go evaluation leaves residual operations that a schedule performs at once or
later, never before their position; the ordered form has the strict left-to-right meaning under every schedule.
Which expressions the generator can order, and which failures are noticed too late, is read off the source.

**Module linker** (`GoNames`, `LinkSyntax`, `SourceLinker`, `LinkCapture`, `LinkNames`, `LexicalNames`). The linker's walk
over scopes and its capture checks, with the nodes it does not visit; the loops that choose global names and Go
import aliases, and the local names that the same walk collects for them.

**Classes and contract keys** (`ClassHierarchy`, `ContractKeys`). Embedded structs with subobject addresses, members
found by Go's promotion, self and root pointers written by initializers, upcasts and checked downcasts; contract
keys quoted at compile time or assembled at run time.

**Smaller algorithms** (`StructCycles`, `RenameFamilies`, `RenameProgram`, `RenameEdits`, `SourceMapping`, `Utf8Slice`): the struct
cycle search, what a rename changes together and its edits, source-map extraction, checked string slices.

## Where the code falls short of its promise

* `DeferTheorems.ExitLosesPanic`: when a deferred call leaves through `runtime.Goexit` and an older call of the same
  chunk panics, the chunk forgets the panic, and the process does not end with it as in Go. `ChunksArePlainGo` and
  `DeferRuntime.Wrapper` say exactly when the two forms agree.
* `EvaluationOrder.DivisionAfterShiftIsLate`: an operator around a runtime shift of a constant is not fixed at its
  position, only its operands are; if it fails, it may fail after later calls. Values are never affected
  (`OrderedValue`), and `OrderFailures.OrderedExactly` says for which expressions and stores it happens.
* `EvaluationOrder.NestedCountIsRefused`: a shift whose count is itself such a shift trips a type assertion of the
  generator when it is fixed twice; `OrderShapes.LowerableExactly` says exactly when, on the source.
* `LinkCapture.UnvisitedReferencesMove`: the linker has no case for type assertions (`value as! T`, `value as? T`) and
  labelled statements. A dependency's `helper` used there keeps its own spelling, which in the linked tree is that of
  a root declaration, and the linker reports nothing. (The checker runs on the linked tree and lets a module use only
  names linked for it, internal/sema/scope_symbols.go:306-318, so it refuses such a program, although it is valid.)
  `LinkingKeepsReferences` says exactly when linking keeps every reference.
* `LinkCapture.NewReportedNeedlessly`: the linker reports `new D()` when the name that class `D` is emitted under is spelled
  like a type parameter in scope, although the call spells its `New` function. But for that its reports are exact
  (`ReportsExactly`).
* `LexicalNames.UnvisitedBindingsCollide`: names bound there are not collected either. A function `copy_` keeps its name
  beside a local `copy`, which is emitted as `copy_` and takes its calls; the linker does not report it, and the
  checker, which goes by source names, does not see it. `LinkedNamesAreFree` says exactly where chosen names are free.
* `ContractKeys.KeysAgree`: compile-time and run-time keys quote tags with different functions (`json.Marshal` and
  `strconv.Quote`); they agree exactly when the tags quoted at run time, here or in a caller, are quoted alike.
* `CallbackWitnesses.DeadlockFreeExactly`: callbacks can wait for each other. No run has a cycle of waiters if and only if
  the relation along which callbacks close (or register) registrations is acyclic, and a cycle never ends
  (`CallbackRings.CyclesLast`). docs/c-ffi.md:725-729 forbids a callback to close its own registration, which is the
  shortest cycle; longer ones, such as two callbacks that close each other's, happen too (`RingsHappen`).
* `CallbackWitnesses.ReleaseUnderCallbackHappens`: a handle can be released while a callback of a *failed* Register
  that was passed it is still in flight; for registrations that succeeded it cannot
  (`CallbackSafety.ReleasedHandleHasNoCallbacks`).

## Model

| member | source | states |
|---|---|---|
| `TryTheorem.LoweringPreservesMeaning` | internal/codegen/exceptions.go:12-200 | for every callable body (any nesting of try, catch, finally, throw, rethrow, return, propagation, foreign panics, Goexit, loops, iterator loops), store and loop bound, the panic-based Go form ends with the source's completion and store, so with its trace; nothing is left deferred and nothing of the caller is recovered |
| `TryTheorem.Simulates` | internal/codegen/statements.go:11-168 | the same for a statement in any context: crossing a try or not, inside any catch handlers and any iterator loops, in all corresponding states |
| `TryTheorem.StopsNeverNormal` | internal/sema/return_flow.go:84-120 | a statement judged to stop its block never completes normally, so the panic emitted after a terminal try is never reached |
| `TryTheorem.StopsExactly` | internal/sema/return_flow.go:84-120 | outside iterators, and when clauses end normally only where their try's body can: a callable body is judged to stop if and only if no body of its shape, whatever its expressions and calls do, ever completes normally |
| `TryTheorem.ReturnRuns` | internal/codegen/results.go:79-156 | a return statement makes the Go function return its values, for every result shape and kind of return: a Result's value first and its error last, the zero value beside an error |
| `TryTheorem.SignalsStayInside` | internal/codegen/iterator_control.go:50-83 | a return or throw out of an iterator loop's body unwinds only the loops nested in its own; it never reaches a frame outside them, and what its loop still owes is kept until that loop ends |
| `TryTheorem.CallableLeaksNoControl` | internal/codegen/exceptions.go:151-173 | no return control and no iterator signal ever leaves a callable: what it panics with was raised by user code or the Go runtime |
| `Returns.PayloadRoundTrip` | internal/codegen/results.go:79-156 | a return carried by a panic and unpacked by the outermost try yields the results of the plain Go return, for every result shape (void, value, several values, Result), each at its position |
| `TryMachinery.CaptureRuns` | internal/codegen/exceptions.go:185-200 | the protected literal turns a panic into a normal end with the recovered value stored, keeps the completed flag for a normal end only, and never stops a Goexit |
| `TryMachinery.MatchesRun` | internal/codegen/exceptions.go:83-108 | the emitted chain of class tests runs the handler of the first matching class, once, with the value seen as the clause's class |
| `ExceptionSource.BinderHolds` | internal/codegen/exceptions.go:66-120 | what a class clause binds: an instance of its class itself, one of a descendant through an upcast, and in a clause for `Exception` any other error inside a new exception |
| `TryFragments.CatchingRuns` | internal/codegen/exceptions.go:30-65 | a body's exception reaches the dispatch with its error and its panic value; every other panic, and Goexit, passes as it is |
| `TryFragments.FinallyRuns` | internal/codegen/exceptions.go:18-28 | the deferred finally runs after the body however that ends, and its own panic or Goexit replaces what was pending |
| `TryFragments.BoundaryRuns` | internal/codegen/exceptions.go:151-173 | the outermost try turns exactly its callable's return control back into a Go return and passes everything else |
| `IteratorFragments.FrameInvokeRuns` | internal/codegen/iterator_control.go:57-72 | invoke answers a normal yield, stores a return or exception control in its frame and raises the frame's signal, and passes foreign panics |
| `IteratorFragments.FrameRunRuns` | internal/codegen/iterator_control.go:73-84 | run replaces its own signal, and also a normal end, by the stored control; other signals, new panics and Goexit pass |
| `IteratorFragments.RangeRuns` | internal/codegen/iterator_control.go:91-96 | a range statement over the adapter: a fresh frame per loop, Go's own loop-exit bookkeeping on top |
| `TryCorrectness.YieldAgrees` | internal/codegen/iterator_control.go:57-72 | a yield in an iterator, with the loop body it calls, agrees with the source's yield in completion, store and owed control |
| `TryCorrectness.ForOfAgrees` | internal/codegen/iterator_control.go:85-102 | a whole iterator loop agrees with its source when its iterator does |
| `LockPlan.LockOrder` | internal/codegen/cffi_handle_locks.go:58-63 | sorting by creation id and skipping repeats lists each handle once, in strictly increasing order |
| `LockPlan.IncreasingUnique` | internal/codegen/cffi_handle_locks.go:57-62 | that listing is unique: argument order and repeated arguments cannot change the order of acquisition |
| `CallbackSteps.RunInv` | internal/codegen/cffi_registration.go:116-177 | the protocol invariant holds in every state of every run, over all interleavings |
| `CallbackInvariant.DrivenKeeps` | internal/codegen/cffi_registration.go:134-177 | every step of a Register or Close keeps the invariant, at every program point, with any native status |
| `CallbackSafety.LeasesCountRegistrations` | internal/codegen/cffi_handle_locks.go:74-87 | in every reachable state a handle's lease count is the number of successful registrations that use it and are not drained, once each; its native release ran once if it is closed and never otherwise |
| `CallbackSafety.LeasedHandlesAreOpen` | internal/codegen/cffi.go:1666-1669 | a leased handle is open, so the closed-handle failure of a registration's Close cannot happen |
| `CallbackSafety.ReleasedHandleHasNoCallbacks` | internal/codegen/cffi.go:1664-1669 | once a handle is released, only callbacks of a failing Register that was passed it can be in flight |
| `CallbackSafety.NoCallbackAfterDelete` | internal/codegen/cffi_registration.go:135-138 | when a context is deleted no callback is in flight, and none is in any later state of the run |
| `CallbackSafety.CallbackSeesLiveContext` | internal/codegen/cffi.go:1435-1446 | while a callback is in flight its context is alive and none of its retained inputs has been freed |
| `CallbackSafety.FirstFailureIsFinal` | internal/codegen/cffi.go:1366-1371 | once a failure is recorded it is the one reported in every later state, and no thread enters a callback afterwards |
| `CallbackSafety.FreesFollowTheDrain` | internal/codegen/cffi_registration.go:116-138 | in every reachable state no input has been freed twice; a freed one was allocated, no callback is in flight or can start, and its freer holds no global or handle mutex |
| `CallbackSafety.ReturnSettles` | internal/codegen/cffi_registration.go:156-177 | the step on which Register or Close returns leaves one of these: a failed Register has freed each allocated input once and deleted the context, a Close that closed likewise, and any other return leaves a usable registration with nothing freed |
| `CallbackOutcomes.ReturnsByStatus` | internal/codegen/cffi_registration.go:141-177 | which of them follows from the status of the native function, over whole runs: a Register or Close that it accepts publishes or finishes the registration; a Register that it refuses never takes a lease and is rolled back; a Close that it refuses keeps leases, inputs and context all along and leaves the registration usable |
| `CallbackOutcomes.AllocationFails` | internal/codegen/cffi_registration.go:116-132 | a Register whose allocation fails does not call the native function, creates no context, and frees exactly what it had allocated |
| `CallbackOutcomes.UndoneByClose` | internal/codegen/cffi_registration.go:168-177 | in every run a published registration loses its leases, an input or its context, or is closed, only after the native function has accepted a Close of it |
| `CallbackOutcomes.OutcomesHaveCauses` | internal/codegen/cffi_registration.go:116-177 | when nobody works on a registration: it is registered only if the native function accepted it, was rolled back only if that refused it, an allocation failed or one of its handles is closed, and is left usable by a Close only if the native function refused that |
| `CallbackOutcomes.RunsArePlayed` | internal/codegen/cffi_registration.go:116-177 | every run is played by some sequence of steps, so what is stated for those holds for all runs |
| `CallbackOutcomes.FirstFailureIsReported` | internal/codegen/cffi.go:1366-1369 | in every run the first failure of user code, panic or bad input, is what is reported from then on |
| `CallbackOutcomes.FailureHasCause` | internal/codegen/cffi.go:1366-1369 | and nothing else is ever reported |
| `CallbackOutcomes.HandleCloseSettles` | internal/codegen/cffi.go:1664-1669 | from the moment a handle's Close has its mutex until it gives it back, only that Close changes the handle, and releases it if and only if it is open and no registration uses it |
| `CallbackDeadlock.LocksInOrder` | internal/codegen/cffi_registration.go:158-173 | whatever a thread asks for ranks above all it holds: registration mutex, global mutex, handle mutexes by id, each once |
| `CallbackDeadlock.CyclesAreOfClosings` | internal/codegen/cffi_registration.go:156-173 | whatever callbacks do: in a cycle of waiters every thread waits for a registration's mutex or drain, and one of them does so inside a callback; the global and handle mutexes never take part |
| `CallbackDeadlock.NoWaitingCycle` | internal/codegen/cffi_registration.go:161-173 | when the registrations can be ordered so that callbacks only close or register later ones, no reachable state has a cycle of waiters of any length |
| `CallbackDeadlock.NoDeadlock` | internal/codegen/cffi_handle_locks.go:34-72 | in every such state with work left, some thread can go on with its own work |
| `CallbackDeadlock.NoDeadlockByCreation` | internal/codegen/cffi_handle_locks.go:34-72 | in particular when callbacks only close registrations created after their own |
| `CallbackDeadlock.DrainBlocksNoCallback` | internal/codegen/cffi_registration.go:166-171 | under such an order a Close that waits for callbacks blocks none of those it waits for |
| `CallbackDeadlock.DrainBlocksOnlyClosers` | internal/codegen/cffi_registration.go:166-171 | whatever callbacks do, one outside any callback blocks only threads that close the same registration |
| `CallbackRings.CyclesExactly` | internal/codegen/cffi_registration.go:156-173 | a state that satisfies the invariant has a cycle of waiters if and only if it has a ring of registrations, each being drained by some thread while a callback of it, in any thread, works on the next |
| `CallbackRings.RingNeverEnds` | internal/codegen/cffi.go:1373-1375 | such a ring stays as it is in every later state of the run, with its cycle |
| `CallbackRings.CyclesLast` | internal/codegen/cffi.go:1373-1375 | so once there is a cycle of waiters, there always is one |
| `CallbackRings.OwnCloseNeverReturns` | internal/codegen/cffi.go:1373-1375 | a Close called from a callback of its own registration never returns, whether that thread drains or waits for another that does |
| `CallbackRings.AcyclicGoesOn` | internal/codegen/cffi_registration.go:156-173 | when callbacks close and register along an acyclic relation, in every reachable state with work left some thread can go on |
| `CallbackWitnesses.DeadlockFreeExactly` | internal/codegen/cffi_registration.go:156-173 | for every relation of which registrations callbacks close or register: no run along it has a cycle of waiters if and only if it is acyclic |
| `CallbackWitnesses.RingsHappen` | internal/codegen/cffi.go:1373-1375 | runs from the initial state to a Close that waits for its own callback, and to two callbacks that close each other's registrations |
| `CallbackWitnesses.ReleaseUnderCallbackHappens` | internal/codegen/cffi.go:1664-1669 | a run that releases a handle under a callback of a failing Register |
| `CallbackStates.CallbackState.Begin` | internal/codegen/cffi.go:1371 | begin admits exactly when the state is neither closing nor failed, and then counts the callback |
| `CallbackStates.CallbackState.RecordPanic` | internal/codegen/cffi.go:1366 | a panic is recorded only when nothing was |
| `CallbackStates.CallbackState.RecordInputError` | internal/codegen/cffi.go:1367 | likewise an input error, with its parameter and reason |
| `CallbackStates.CallbackState.CallbackError` | internal/codegen/cffi.go:1369 | what is reported is what was recorded first |
| `CallbackStates.HandleState.Close` | internal/codegen/cffi.go:1664-1669 | a handle's Close: its three results, and the native release in exactly one of them |
| `CallbackStates.ChangeLeases` | internal/codegen/cffi_handle_locks.go:74-87 | every locked handle's lease count changes by one, and nothing else about it |
| `DeferTheorems.ChunksArePlainGo` | internal/codegen/defer_runtime.go:26-53 | for every list of deferred calls and pending completion, running in chunks gives each call the panic it would see in Go, and the same store and completion, if and only if no chunk ends exiting with a panic pending |
| `DeferTheorems.NextIsPlainGo` | internal/codegen/defer_runtime.go:44-52 | the nested calls of one chunk are Go's newest-first fold of that chunk |
| `DeferTheorems.PlainGoEnds` | internal/codegen/defer_runtime.go:36-53 | how that fold ends, by what each call did: with the panic left by the last call that recovered, raised or exited (none if it recovered and ended normally), or else as the body did, and as an exit if there was any; each call sees the panic so left by those before it |
| `DeferTheorems.FrameEnds` | internal/codegen/defer_runtime.go:26-53 | the same of the chunked form unless a chunk loses a panic, so whenever no call exits; in any case it exits exactly when a call or the function does, and what it shows is what the calls did, newest first, each on the store left by the one before |
| `DeferTheorems.EachCallRunsOnce` | internal/codegen/defer_runtime.go:28-35 | each call runs exactly once, newest first, with nesting bounded by the chunk size of 64, whatever the calls do |
| `DeferTheorems.NoExitNoLoss` | internal/codegen/defer_runtime.go:36-53 | no panic is lost unless a deferred call itself calls Goexit |
| `DeferTheorems.ExitLosesPanic` | internal/codegen/defer_runtime.go:38 | two calls for which the two forms differ |
| `DeferRuntime.DeferFrame.Next` | internal/codegen/defer_runtime.go:44-50 | the local closure, with the thunk of each registered call, computes the fold of its part of the chunk |
| `DeferRuntime.DeferFrame.RunChunk` | internal/codegen/defer_runtime.go:36-53 | the flags and the recovered value after one chunk |
| `DeferRuntime.DeferFrame.Run` | internal/codegen/defer_runtime.go:26-35 | the loop that defers the chunks, and their unwinding newest first |
| `DeferRuntime.Wrapper` | internal/codegen/defer_function.go:9-64 | the wrapper returns what native Go would if and only if neither the body nor a chunk exits with a panic pending; then, and whenever nothing exits, it ends as its calls leave it, with the body's own results if that completed and zero values if a call recovered; each registered call runs exactly once in any case |
| `OrderSchedules.LazierRuns` | internal/codegen/evaluation_order.go:140-148 | on an ordered form a lazier schedule reads the same values and makes the same calls; it can only fail later |
| `OrderTarget.OnlyCallsChange` | internal/codegen/evaluation_order.go:83-137 | the store changes only in calls, under every schedule |
| `EvaluationOrder.JudgedQuiet` | internal/codegen/evaluation_order.go:83-137 | an expression judged free of effects makes no call in its Go form |
| `OrderLowering.EffectsAreCalls` | internal/codegen/evaluation_order.go:83-157 | an expression is judged to have effects exactly when some part of it is a call, or a builtin such as `min` |
| `OrderLowering.ContextualShiftsAre` | internal/codegen/evaluation_order.go:59-81 | an expression has a contextual shift exactly when it reaches, through operators, builtins and logical operators, a shift of a constant |
| `EvaluationOrder.SnapshotFixes` | internal/codegen/evaluation_order.go:18-53 | a fixed operand leaves nothing behind that reads memory, and nothing that can fail when the operators around its shifts are total |
| `EvaluationOrder.AtOnceIsStrict` | internal/codegen/expressions.go:51-66 | with nothing postponed the lowered form is strict left-to-right evaluation: the inserted boundaries and count checks change no value, store or call |
| `EvaluationOrder.OrderedValue` | internal/codegen/expressions.go:51-66 | for every expression and every schedule the ordered form has a value if and only if strict evaluation has, and then the same value, store and calls |
| `EvaluationOrder.ShortCircuits` | internal/codegen/evaluation_order.go:18-53 | under every schedule a lowered logical and (or) is its left operand when that is false (true), without a call of the right one, and else the right one |
| `OrderFailures.OrderedExactly` | internal/codegen/evaluation_order.go:34-51 | all schedules agree with strict evaluation in value, store and calls, if and only if evaluation does not fail at an operator that is left to be done (not fixed, or around a contextual shift) before a later operand makes a call |
| `OrderFailures.FailureFares` | internal/codegen/evaluation_order.go:18-53 | for every form of every failing expression, fixed any number of times: whether the laziest run stops there, leaves the failure to be done or makes a call first is what the source says |
| `EvaluationOrder.OrderedWithoutPartialShifts` | internal/codegen/evaluation_order.go:34-51 | which is always so when no operator around a contextual shift can fail |
| `EvaluationOrder.DivisionAfterShiftIsLate` | internal/codegen/evaluation_order.go:36-42 | an expression for which it is not |
| `OrderShapes.LowerableExactly` | internal/codegen/evaluation_order.go:35-50 | the generator's type assertions all hold if and only if no contextual shift whose count is itself one is fixed twice by the operators around it and the effects to its right |
| `OrderShapes.PlainCountsLower` | internal/codegen/evaluation_order.go:35-50 | in particular when no shift count is itself a contextual shift |
| `EvaluationOrder.NestedCountIsRefused` | internal/codegen/evaluation_order.go:37-42 | an expression on which one of them fails |
| `OrderedAssignment.OrderExpressionList` | internal/codegen/evaluation_order.go:140-148 | the loop from the last value to the first fixes exactly the values followed by an effect |
| `OrderedAssignment.AssignmentIsOrdered` | internal/codegen/evaluation_order.go:188-220 | a plain or compound assignment succeeds under a schedule if and only if the strict one does, with the same store: the target is located and its old value read once, before the right side |
| `OrderedAssignment.AssignmentSaves` | internal/codegen/evaluation_order.go:188-220 | under every schedule an assignment is done exactly when its steps succeed, and has then saved, where its target was located first, the value of the right side, or the operator applied to the old value, read before the right side, and that value |
| `GoNames.Collisions` | internal/goname/names.go:9-23 | two names share a Go spelling only if they are equal or one is the other escaped; no source name is spelled like a keyword or a predeclared callable |
| `LinkCapture.ReferenceExact` | internal/compiler/link_names.go:29-44 | where bindings stand at different places, a visited reference is reported if and only if, as linked, it does not denote in Go (by spelling, through locals, type parameters and the package) what it denotes in the source; for the class of a `new`, if and only if a type parameter is spelled like that class |
| `LinkCapture.BindAllKeeps` | internal/compiler/source_linker.go:231-237 | the linker's map of names and spellings says what the scopes say, innermost binding first |
| `LinkCapture.BlockFollowed` | internal/compiler/source_linker.go:255-281 | a block with its arrow groups and declarations: no capture is reported if and only if every visited reference keeps its binding, and the others are as they were |
| `LinkCapture.StmtFollowed` | internal/compiler/source_linker.go:283-416 | likewise every statement: loops, catches, selects, switches, and labelled statements, which are not visited |
| `LinkCapture.ExprFollowed` | internal/compiler/source_linker.go:418-487 | likewise every expression, with arrows, classes of `new`, array lengths in types, and type assertions, which are not visited |
| `LinkCapture.LinkingKeepsReferences` | internal/compiler/source_linker.go:60-218 | if linking a declaration reports no capture, every value reference (in array lengths of types too) and every class created in its functions, methods, constructors, fields and values, resolved by emitted spelling, denotes the binding it denotes in the source, if and only if every one below a type assertion or a label reaches its binding under its own spelling |
| `LinkCapture.ReportsExactly` | internal/compiler/source_linker.go:60-218 | where bindings stand at different places, linking a declaration reports no capture if and only if every visited reference, resolved by emitted spelling, denotes the binding it denotes in the source, and no class that it creates is spelled like a type parameter in scope |
| `LinkCapture.NewReportedNeedlessly` | internal/compiler/source_linker.go:30-45 | a `new` that is reported and keeps its class |
| `LinkCapture.OwnSpellingDenotes` | internal/compiler/link_names.go:29-44 | a reference that is not linked denotes its binding in Go exactly when no inner binding, local or type parameter is spelled like it and the linked name of a module binding is; a class to create, when it kept its name |
| `LinkCapture.UnvisitedReferencesMove` | internal/compiler/source_linker.go:418-487 | a labelled loop and a type assertion that are linked without a report and whose references then denote another declaration |
| `LinkSyntax.GroupIsRun` | internal/ast/local_arrows.go:6-19 | the arrows that see each other are the longest run of arrow declarations that a block begins with |
| `LinkSyntax.DeclaredAre` | internal/compiler/source_linker.go:255-281 | a statement leaves bound exactly the names it declares, other than `_` |
| `LinkNames.Fresh` | internal/compiler/linker.go:64-71 | the suffix loop ends, with the base name if its spelling is free and the first free numbered one otherwise |
| `LinkNames.LinkDeclarations` | internal/compiler/linker.go:49-77 | emitted names of dependency declarations are pairwise distinct and differ from every root declaration and every lexical binding; names that need no change keep it, and only the root's own `main` is emitted as one |
| `LinkNames.LinkGoAliases` | internal/compiler/linker.go:180-254 | canonical Go import aliases are one-to-one and spelled unlike any lexical binding, declaration or built-in; a path gets its own alias if names are imported from it, and else one that it is imported under, unless that is taken; exactly the imports that do not clash in their module are accepted, with their path's alias |
| `LexicalNames.DeclarationCollects` | internal/compiler/link_names.go:46-64 | the walk that collects lexical names finds every local binding and type parameter in scope at any reference it visits, and those made outside the assertion or label at any other |
| `LexicalNames.LinkedNamesAreFree` | internal/compiler/linker.go:40-77 | so in every program, at any reference, a local binding or type parameter in scope is spelled like the linked name of a dependency's declaration if and only if one made below an assertion or a label is: never at a visited reference |
| `LexicalNames.AliasesAreFree` | internal/compiler/linker.go:180-254 | likewise like a canonical Go import alias |
| `LexicalNames.UnvisitedBindingsCollide` | internal/compiler/link_names.go:46-64 | for every reserved name, a labelled loop in which a local of that name captures a call of a dependency's function spelled alike, without a report; without the label the function is renamed |
| `ContractKeys.SourceContract` | internal/codegen/native_contracts.go:248-252 | the runtime key builder: empty as soon as a part is |
| `ContractKeys.KnownKeysAreFaithful` | internal/codegen/native_contracts.go:19-39 | when no two tags are quoted alike, two known keys are equal exactly when the contract trees are |
| `ContractKeys.KeysAgree` | internal/codegen/native_contracts.go:41-53 | for contracts whose parameters hold keys written by the compiler or built by callers, however deep: an unknown part makes the whole key unknown, and the key built at run time equals the compile-time key of the instantiated contract if and only if that is unknown or every tag quoted at run time, here or in a caller, is quoted alike |
| `ContractKeys.PassedKeysDiffer` | internal/codegen/native_contracts.go:41-53 | a key built by a caller from a tag that the two functions quote differently differs from the compile-time key where it is passed on |
| `ContractKeys.EvalMeans` | internal/codegen/native_contracts.go:246-258 | a key built at run time is the text of the actual tree, or empty if any part is unknown |
| `ContractKeys.Guard` | internal/codegen/native_contracts.go:262-268 | the emitted downcast guard |
| `ContractKeys.GuardAcceptsEqualKnown` | internal/codegen/native_contracts.go:262-268 | on keys of type arguments the guard accepts exactly equal known arguments |
| `ClassHierarchy.ClassObject.Initialize` | internal/codegen/classes.go:254-334 | an initializer runs base, fields, pointers, body in this order, and stores the address of its subobject in the self pointer of every owner at or above its class and in the root pointer, where Go's selectors find them |
| `ClassHierarchy.PromotedIsMostDerived` | internal/codegen/classes.go:18-48 | a member is selected exactly if a class at or above declares it, in the most derived such class and at the end of the chain of embedded fields that leads there |
| `ClassHierarchy.PhasesPoint` | internal/codegen/classes.go:254-334 | in every phase of initialization, where each self pointer and the root pointer refer to, and which are still nil |
| `ClassHierarchy.DispatchByPhase` | internal/codegen/classes.go:300-337 | for every inheritance chain, phase and upcast of `this`: a slot runs the override held by the last class at or above the one where dispatch stops, or else the owner's own definition, on the subobject of the class that holds it; a constructor body stops at its class, field initializers at the base |
| `ClassHierarchy.ConstructedDispatch` | internal/codegen/classes.go:300-337 | a constructed object dispatches each slot, through any upcast, to the override of its most derived class that has one, or else to the owner's own definition |
| `ClassHierarchy.Projects` | internal/codegen/classes.go:148-155 | the method set of a class has the projection to a class exactly when that has ancestors and is at or above it, and the receiver is its subobject |
| `ClassHierarchy.DowncastByPhase` | internal/codegen/classes.go:155-182 | in any phase, through any upcast, a checked downcast succeeds exactly when the target is at or above the last class whose pointers are set |
| `ClassHierarchy.DowncastIsExact` | internal/codegen/classes.go:155-182 | in a constructed object a checked downcast succeeds exactly when the target is the dynamic class or an ancestor of it; its result is the target's subobject, and upcasts back to the address it came from |
| `ClassHierarchy.ZeroValue` | internal/codegen/classes.go:437-480 | on a value no initializer ran on, slots run the owner's own bodies and no downcast succeeds |
| `StructCycles.CycleCheck.Visit` | internal/codegen/cffi.go:857-876 | the recursive visit: a reported cycle exists, and an accepted struct is finished after all it holds |
| `StructCycles.Validate` | internal/codegen/cffi.go:856-883 | a manifest is rejected exactly when its by-value fields form a cycle, for every iteration order |
| `RenameFamilies.RelatedDeclarations` | internal/lsp/refactor.go:197-295 | the search ends with exactly the connected component of the target under the families, for every iteration order |
| `RenameProgram.RenameSet` | internal/lsp/refactor.go:197-295 | for every program (cyclic or dangling inheritance included) the declarations found are exactly those connected with the target by families of its interfaces and classes |
| `RenameProgram.CollectFamilies` | internal/lsp/refactor.go:254-293 | the families visited are exactly those of the interfaces (same name among all offered methods) and of the classes (same name and kind among own, inherited and required methods) |
| `RenameProgram.InterfaceMethods` | internal/lsp/refactor.go:224-240 | the depth-first walk collects exactly the methods of the interface and of all it extends |
| `RenameProgram.ClassMethods` | internal/lsp/refactor.go:241-252 | the walk up the chain collects exactly the methods of the class and its ancestors, also on a cyclic chain |
| `RenameFamilies.ConnectedIsSymmetric` | internal/lsp/refactor.go:210-222 | two declarations are related symmetrically |
| `RenameFamilies.Search.Connect` | internal/lsp/refactor.go:210-222 | a family with a member in the result joins it, and only then |
| `RenameEdits.Splice` | internal/lsp/refactor.go:140-148 | splicing from last to first is replacing all occurrences at once; it fails exactly when one lies outside the text |
| `RenameEdits.Transformed` | internal/lsp/refactor.go:131-139 | the running delta moves each span by the length changes before it |
| `RenameEdits.NamesStand` | internal/lsp/refactor.go:127-148 | the moved spans delimit exactly the new names, and all text between them is unchanged |
| `SourceMapping.Extract` | internal/codegen/source_mapping.go:134-224 | extraction succeeds exactly on balanced markers; its ranges ascend, are disjoint and maximal, and cover exactly the mapped tokens with their own source |
| `SourceMapping.ExtractsNested` | internal/codegen/source_mapping.go:84-95 | every properly nested marking is extracted to exactly the unmarked tokens, each with its innermost mark |
| `SourceMapping.ExtractsOnlyNested` | internal/codegen/source_mapping.go:165-186 | and nothing else is |
| `Utf8Slice.SliceUTF8` | internal/codegen/utf8.go:20-26 | a slice of valid UTF-8 (section 4 of RFC 3629) is made exactly when its bounds are in range, in order and code point boundaries, and is valid again |
| `Utf8Slice.BoundaryTest` | internal/codegen/utf8.go:23-25 | in valid text the tested bits find exactly the code point boundaries |

## Left out

- TryTheorem.LoweringPreservesMeaning: `while` loops run on fuel, and both sides run out of it together; labels, goto, switch and select, tasks, a Go `defer` written directly in a range-over-func body and ranges that need no adapter are not modelled.
- Iterators are inlined terms; closures that escape the loop they were made in are not modelled.
- Checker flags of the exception lowering (crossing, handling and terminal tries) are computed by the rules the checker uses (internal/sema/return_flow.go:84-120, internal/sema/exception_statements.go:119-128), not taken from checked trees.
- CallbackProtocol: native calls that arrive after a registration's context is deleted are not part of a run; the emitted callback looks its context up by a handle that is no longer valid then, and panics.
- CallbackDeadlock.NoDeadlock: native calls and user callbacks are assumed to end; a thread inside a native call does not receive callbacks, and the threadAffine and mainThread policies are not modelled.
- CallbackSteps.RunInv: memory is sequentially consistent at the granularity of critical sections; copied-wrapper guards, transient callbacks and the C allocations of callback results are not modelled.
- CallbackProtocol and CallbackInvariant model the interleavings on values; `CallbackStates` ties the emitted fields to them section by section.
- DeferRuntime.Wrapper: evaluation of captured arguments at registration is not modelled; a registered call is a function of the store and of the panic it may recover.
- EvaluationOrder.OrderedValue: a read is never moved before its position, although the Go specification does not exclude it; which of two operations fails first, with no call between them, is left open as in Go; null coalescing, receives, property assignment and typing of untyped constants are not modelled.
- LinkCapture.LinkingKeepsReferences: covers value references and the classes of `new`, where it relies on the checker's own test of the `New` functions (internal/sema/generated_names.go:267-284) and leaves out classes named like a type parameter in scope and the other generated name of a `New` function that takes contracts; names of types, exports and the Go scope of non-recursive members of an arrow group (declared later than the group) are not modelled, and trees are rewritten as values instead of in place.
- LinkNames.LinkDeclarations: derived names are arbitrary functions of path and name; the set of lexical bindings is an input, which `LexicalNames` instantiates with what the walk collects from declarations.
- ContractKeys.KeysAgree: both quoting functions are arbitrary, as long as they yield quoted literals; instantiations are finite, so a generic that passes ever larger contracts to itself is not modelled.
- ClassHierarchy.DispatchByPhase: type parameters, contracts and static members are not part of the hierarchy model; every class is taken to belong to a hierarchy, and receivers are not nil.
- RenameProgram.RenameSet: families are collected once, before the rounds that connect them; the occurrences of a declaration are not modelled.
- SourceMapping.Extract: works on tokens and marker lines; byte, line and column arithmetic and the second scan (its byte ranges and its checks) are not modelled.
- Semantic checking, parsing, the command line, publication, the language server protocol and the manifest format are not modelled.
