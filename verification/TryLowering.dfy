/** The generator's translation of control flow: returns and throws that cross a try become panics,
    a try becomes function literals, deferred calls and flags, and an iterator loop ranges over an
    adapter that owns one frame. `crossing` is the checker's exceptionDepth != 0. */
module TryLowering {
  import opened Completions
  import opened Returns
  import S = ExceptionSource
  import opened GoMachine

  /** statementDefinitelyStopsBlock: no path completes normally. */
  predicate Stops(s: S.Stmt) {
    match s
    case Return(_, _) => true
    case Throw(_) => true
    case Rethrow(_) => true
    case Break => true
    case Continue => true
    case Seq(a, b) => Stops(a) || Stops(b)
    case If(_, a, b) => Stops(a) && Stops(b)
    case Try(_, body, catches, fin) => (fin.Some? && Stops(fin.value)) || (Stops(body) && AllStop(catches))
    case _ => false
  }

  predicate AllStop(cs: S.Catches) {
    match cs
    case NoCatch => true
    case MoreCatch(c, others) => Stops(c.body) && AllStop(others)
  }

  function Lower(s: S.Stmt, crossing: bool, rt: ResultType): Code
    decreases S.Size(s)
  {
    match s
    case Skip => Nop
    case Prim(run) => Do(Run(run))
    case Seq(a, b) => Then(Lower(a, crossing, rt), Lower(b, crossing, rt))
    case If(test, a, b) => Branch(test, Lower(a, crossing, rt), Lower(b, crossing, rt))
    case While(test, body) => Loop(test, Lower(body, crossing, rt))
    case Break => Do(BreakLoop)
    case Continue => Do(ContinueLoop)
    case Return(kind, eval) => Do(if crossing then PanicReturn(rt, kind, eval) else NativeReturn(rt, kind, eval))
    case Propagate(eval, bind) => Do(PropagateOr(rt, crossing, eval, bind))
    case Throw(eval) => Do(PanicThrown(eval))
    case Rethrow(target) => Do(PanicHeld(ThrownOf(target)))
    case Try(k, body, catches, fin) =>
      var protected := if catches.NoCatch? then Lower(body, true, rt)
                       else CatchingBody(k, Lower(body, true, rt), LowerCatches(k, catches, rt));
      var outer := Call(if fin.None? then protected else Then(Defer(Lower(fin.value, true, rt)), protected));
      var handled := if crossing then outer else ReturnBoundary(k, rt, outer);
      if Stops(s) then Then(handled, Do(PanicWith(Unreachable))) else handled
    case ForOf(bind, iter, body) =>
      RangeFunc(Adapter(Lower(iter, false, Void)), bind, Lower(body, crossing, rt))
    case Yield(eval, put) =>
      Var(YieldResult, Flag(false), Then(CallYield(Evaluate(eval), YieldResult), Do(StoreFlag(put, YieldResult))))
  }

  /** The dispatch on the caught error: clauses in order, each guarded by `handled`. */
  function LowerCatches(k: nat, cs: S.Catches, rt: ResultType): Code
    decreases S.CatchesSize(cs)
  {
    match cs
    case NoCatch => Nop
    case MoreCatch(c, others) =>
      Then(LowerCatch(k, c.sort, c.bind, Lower(c.body, true, rt)), LowerCatches(k, others, rt))
  }

  /** One clause. Its body is emitted once for each class it matches. */
  function LowerCatch(k: nat, sort: S.CatchSort, bind: (Value, Store) -> Store, body: Code): Code {
    match sort
    case CatchError => When(Handled(k), false, HandlerBody(k, v => v, bind, body))
    case CatchType(accepts) =>
      When(Handled(k), false, WhenError(CaughtError(k), accepts, HandlerBody(k, v => v, bind, body)))
    case CatchClass(name, matching) =>
      Then(LowerMatches(k, name, matching, bind, body),
           if name == "Exception" then When(Handled(k), false, HandlerBody(k, S.FromError, bind, body)) else Nop)
  }

  function LowerMatches(k: nat, name: string, matching: seq<string>, bind: (Value, Store) -> Store, body: Code): Code {
    if matching == [] then Nop else
      var view := if matching[0] == name then (v: Value) => v else (v: Value) => Upcast(name, v);
      Then(When(Handled(k), false, WhenError(CaughtError(k), IsClass(matching[0]), HandlerBody(k, view, bind, body))),
           LowerMatches(k, name, matching[1..], bind, body))
  }

  /** A type assertion to a pointer to exactly this class. */
  function IsClass(name: string): Value -> bool {
    (v: Value) => v.Instance? && v.cls == name
  }

  function HandlerBody(k: nat, view: Value -> Value, bind: (Value, Store) -> Store, body: Code): Code {
    Then(Do(Also(BindError(CaughtError(k), view, bind), Assign(Handled(k), Flag(true)))), body)
  }

  /** Runs `body` in a function literal whose deferred call recovers; `handler` runs only when the
      body neither completed nor left the goroutine. */
  function PanicCapture(body: Code, handler: Code, recovered: Temp): Code {
    Var(recovered, Held(None),
      Var(Completed(recovered), Flag(false),
        Then(Call(Protected(body, recovered)), When(Completed(recovered), false, handler))))
  }

  function Protected(body: Code, recovered: Temp): Code {
    Then(Defer(Recover(recovered)), Then(body, Do(Assign(Completed(recovered), Flag(true)))))
  }

  function CatchingBody(k: nat, body: Code, clauses: Code): Code {
    Var(Caught(k), Flag(false),
      Var(CaughtError(k), Data(Nil),
        Var(ThrownOf(k), Held(None),
          Then(PanicCapture(body, CatchRecovery(k), Recovered(k)), When(Caught(k), true, Dispatch(k, clauses))))))
  }

  function CatchRecovery(k: nat): Code {
    Var(Candidate(k), Held(None), Var(CandidateOk(k), Flag(false), Do(KeepException(k))))
  }

  function KeepException(k: nat): Op {
    Also(AsException(Candidate(k), CandidateOk(k), Recovered(k)),
      Also(PanicUnless(CandidateOk(k), Recovered(k)),
        Also(Copy(ThrownOf(k), Candidate(k)),
          Also(Assign(Caught(k), Flag(true)), ErrorOf(CaughtError(k), Candidate(k))))))
  }

  function Dispatch(k: nat, clauses: Code): Code {
    Var(Handled(k), Flag(false), Then(clauses, When(Handled(k), false, Do(PanicHeld(ThrownOf(k))))))
  }

  /** The outermost try turns a recovered return control back into a Go return. */
  function ReturnBoundary(k: nat, rt: ResultType, body: Code): Code {
    Var(Leaving(k), Flag(false),
      Var(Control(k), Held(None),
        Then(PanicCapture(body, ReturnRecovery(k), ReturnRecovered(k)),
          When(Leaving(k), true, Do(ControlReturn(rt, Control(k)))))))
  }

  function ReturnRecovery(k: nat): Code {
    Var(ReturnCandidate(k), Held(None), Var(ReturnOk'(k), Flag(false), Do(KeepReturn(k))))
  }

  function KeepReturn(k: nat): Op {
    Also(AsReturn(ReturnCandidate(k), ReturnOk'(k), ReturnRecovered(k)),
      Also(PanicUnless(ReturnOk'(k), ReturnRecovered(k)),
        Also(Copy(Control(k), ReturnCandidate(k)), Assign(Leaving(k), Flag(true)))))
  }

  /** __kinmokuseiIterator1: a fresh frame, then run over the source with a wrapped yield. */
  function Adapter(source: Code): Code {
    Var(FrameRef, Held(None), Then(Do(NewFrame(FrameRef)), Call(FrameRun(CallSource(source, InvokeArgument, FrameInvoke())))))
  }

  /** frame.run */
  function FrameRun(call: Code): Code {
    Var(RunValue, Held(None),
      Var(Completed(RunValue), Flag(false),
        Then(Call(Protected(call, RunValue)),
          Do(Also(RepanicUnless(Completed(RunValue), RunValue, FrameRef), PanicControl(FrameRef))))))
  }

  /** frame.invoke */
  function FrameInvoke(): Code {
    Var(InvokeValue, Held(None),
      Var(InvokeResult, Flag(false),
        Var(Completed(InvokeValue), Flag(false),
          Then(Call(Protected(CallYield(FromCell(InvokeArgument), InvokeResult), InvokeValue)),
            Do(Also(ReturnFlagIf(Completed(InvokeValue), InvokeResult), SignalOrPanic(InvokeValue, FrameRef)))))))
  }
}
