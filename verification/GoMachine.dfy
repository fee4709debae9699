/** The part of Go the generator targets: function literals, defer, recover, panic (with the nil
    panic apart), runtime.Goexit, and range over a function. */
module GoMachine {
  import opened Completions
  import opened Returns

  /** Generated local variables, by role and by the offset of their try. */
  datatype Temp =
    | Caught(offset: nat) | Handled(offset: nat) | CaughtError(offset: nat)
    | Recovered(offset: nat) | ThrownOf(offset: nat) | Candidate(offset: nat) | CandidateOk(offset: nat)
    | Completed(of: Temp)
    | Leaving(offset: nat) | Control(offset: nat) | ReturnRecovered(offset: nat)
    | ReturnCandidate(offset: nat) | ReturnOk'(offset: nat)
    | FrameRef | RunValue | InvokeValue | InvokeResult | InvokeArgument | YieldResult

  /** Panic values: user ones, the private return control, and an iterator frame's signal. */
  datatype PanicValue = PRaised(p: Raised) | PReturn(payload: Payload) | PIterator(frame: nat)

  /** Contents of a variable; `Held(None)` is a nil any. */
  datatype Cell = Flag(b: bool) | Held(panic: Option<PanicValue>) | Data(v: Value) | Ref(frame: nat)

  datatype Code =
    | Nop
    | Do(op: Op)
    | Then(first: Code, rest: Code)
    | Branch(test: Store -> Choice, thn: Code, els: Code)
    | Loop(test: Store -> Choice, body: Code)
    | Var(name: Temp, init: Cell, scope: Code)
    | When(name: Temp, expected: bool, body: Code)
    | WhenError(name: Temp, accepts: Value -> bool, body: Code)
    | Call(body: Code)
    | Defer(body: Code)
    | Recover(name: Temp)
    | RangeFunc(callee: Code, bind: (Value, Store) -> Store, body: Code)
    | CallSource(source: Code, parameter: Temp, invoke: Code)
    | CallYield(argument: Argument, result: Temp)

  /** Simple statements: no call, no nesting, no access to the activation. */
  datatype Op =
    | Also(first: Op, next: Op)
    | Run(run: Store -> Effect)
    | BreakLoop
    | ContinueLoop
    | Assign(name: Temp, value: Cell)
    | Copy(name: Temp, from: Temp)
    | PanicWith(p: Raised)
    | PanicHeld(name: Temp)
    | PanicUnless(ok: Temp, name: Temp)
    | PanicThrown(eval: Store -> Evaluated)
    | PanicReturn(rt: ResultType, kind: ReturnKind, eval: Store -> Evaluated)
    | NativeReturn(rt: ResultType, kind: ReturnKind, eval: Store -> Evaluated)
    | PropagateOr(rt: ResultType, crossing: bool, eval: Store -> Evaluated, bind: (Value, Store) -> Store)
    | ControlReturn(rt: ResultType, name: Temp)
    | ReturnFlagIf(ok: Temp, name: Temp)
    | AsException(name: Temp, ok: Temp, from: Temp)
    | AsReturn(name: Temp, ok: Temp, from: Temp)
    | ErrorOf(name: Temp, from: Temp)
    | BindError(name: Temp, view: Value -> Value, bind: (Value, Store) -> Store)
    | NewFrame(name: Temp)
    | StoreFlag(put: (bool, Store) -> Store, name: Temp)
    | SignalOrPanic(held: Temp, frame: Temp)
    | RepanicUnless(ok: Temp, held: Temp, frame: Temp)
    | PanicControl(frame: Temp)

  datatype Argument = Evaluate(eval: Store -> Evaluated) | FromCell(name: Temp)

  function Size(g: Code): nat {
    match g
    case Then(a, b) => 1 + Size(a) + Size(b)
    case Branch(_, a, b) => 1 + Size(a) + Size(b)
    case Loop(_, b) => 1 + Size(b)
    case Var(_, _, b) => 1 + Size(b)
    case When(_, _, b) => 1 + Size(b)
    case Call(b) => 3 + Size(b)
    case Defer(b) => 3 + Size(b)
    case WhenError(_, _, b) => 1 + Size(b)
    case RangeFunc(c, _, b) => 6 + Size(c) + Size(b)
    case CallSource(c, _, i) => 6 + Size(c) + Size(i)
    case _ => 1
  }

  /** Lexical scope: generated names to cells. */
  type Scope = map<Temp, nat>

  /** The function value that a yield call reaches: the native body of a range statement, or a
      function literal of the adapter that wraps it. */
  datatype YieldFunc =
    | NoYield
    | RangeBody(range: nat, bind: (Value, Store) -> Store, body: Code, scope: Scope, outer: YieldFunc)
    | Literal(argument: Temp, body: Code, scope: Scope, outer: YieldFunc)

  function YieldSize(y: YieldFunc): nat {
    match y
    case NoYield => 0
    case RangeBody(_, _, body, _, outer) => 4 + Size(body) + YieldSize(outer)
    case Literal(_, body, _, outer) => 4 + Size(body) + YieldSize(outer)
  }

  datatype Phase = Ready | Busy | Finished

  /** The state the compiler keeps for a range-over-func statement. */
  datatype Range = Range(phase: Phase, exit: Option<seq<Value>>)

  /** Program store, variable cells, range states and adapter frames (their `control` field). */
  datatype State = State(store: Store, cells: seq<Cell>, ranges: seq<Range>, frames: seq<Option<PanicValue>>)

  datatype Completion =
    | Normal
    | Breaking
    | Continuing
    | Returning(results: seq<Value>)
    | Panicking(panic: PanicValue)
    | Exiting(pending: Option<PanicValue>)
    | OutOfFuel

  /** Deferred calls of one activation, newest on top. */
  datatype Deferred = Bottom | Push(body: Code, scope: Scope, below: Deferred)

  /** One function activation: what it has deferred, and the panic its own recover() would stop. */
  datatype Activation = Activation(deferred: Deferred, panic: Option<PanicValue>)

  datatype Result = Result(c: Completion, act: Activation, st: State)
  datatype Stepped = Stepped(c: Completion, st: State)
  datatype Called = Called(c: Completion, recovered: bool, st: State)

  function Largest(ds: Deferred): nat {
    match ds
    case Bottom => 0
    case Push(body, _, below) => if Size(body) + 2 > Largest(below) then Size(body) + 2 else Largest(below)
  }

  function After(outcome: Outcome): Completion {
    match outcome
    case Done => Normal
    case Panics(p) => Panicking(PRaised(p))
    case Exits => Exiting(None)
  }

  function PanicOf(c: Completion): Option<PanicValue> {
    match c
    case Panicking(v) => Some(v)
    case Exiting(pending) => pending
    case _ => None
  }

  /** Completion of a function after one of its deferred calls ended in `d`. A recovered panic lets
      the function return, or the exit go on; nothing a deferred call does ends an exit. */
  function Unwound(pending: Completion, recovered: bool, d: Completion): Completion {
    var left :=
      if !recovered then pending
      else if pending.Exiting? then Exiting(None)
      else if pending.Panicking? then Normal
      else pending;
    match d
    case Panicking(v) => if left.Exiting? then Exiting(Some(v)) else d
    case Exiting(_) => d
    case OutOfFuel => d
    case _ => left
  }

  function Read(scope: Scope, name: Temp, st: State): Cell {
    if name in scope && scope[name] < |st.cells| then st.cells[scope[name]] else Held(None)
  }

  function Write(scope: Scope, name: Temp, v: Cell, st: State): State {
    if name in scope && scope[name] < |st.cells| then st.(cells := st.cells[scope[name] := v]) else st
  }

  function HeldPanic(c: Cell): Option<PanicValue> {
    if c.Held? then c.panic else None
  }

  /** panic(v) for an `any` variable: nil raises the nil panic. */
  function Raise(held: Option<PanicValue>): Completion {
    Panicking(if held.Some? then held.value else PRaised(NilPanic))
  }

  predicate IsException(held: Option<PanicValue>) {
    held.Some? && held.value.PRaised? && held.value.p.Thrown?
  }

  predicate IsReturn(held: Option<PanicValue>) {
    held.Some? && held.value.PReturn?
  }

  function Step(op: Op, scope: Scope, st: State): Stepped {
    match op
    case Also(a, b) => var r := Step(a, scope, st); if r.c.Normal? then Step(b, scope, r.st) else r
    case Run(run) => var e := run(st.store); Stepped(After(e.outcome), st.(store := e.store))
    case BreakLoop => Stepped(Breaking, st)
    case ContinueLoop => Stepped(Continuing, st)
    case Assign(name, v) => Stepped(Normal, Write(scope, name, v, st))
    case Copy(name, from) => Stepped(Normal, Write(scope, name, Read(scope, from, st), st))
    case PanicWith(p) => Stepped(Panicking(PRaised(p)), st)
    case PanicHeld(name) => Stepped(Raise(HeldPanic(Read(scope, name, st))), st)
    case PanicUnless(ok, name) =>
      Stepped(if Read(scope, ok, st) == Flag(false) then Raise(HeldPanic(Read(scope, name, st))) else Normal, st)
    case PanicThrown(eval) =>
      var e := eval(st.store);
      Stepped(if e.outcome.Done? && |e.values| == 1 then Panicking(PRaised(Thrown(0, e.values[0]))) else After(e.outcome),
              st.(store := e.store))
    case PanicReturn(rt, kind, eval) =>
      var e := eval(st.store);
      Stepped(if e.outcome.Done? && Typed(rt, kind, e.values) then Panicking(PReturn(PanicPayload(rt, kind, e.values)))
              else After(e.outcome), st.(store := e.store))
    case NativeReturn(rt, kind, eval) =>
      var e := eval(st.store);
      Stepped(if e.outcome.Done? && Typed(rt, kind, e.values) then Returning(NativeResults(rt, kind, e.values))
              else After(e.outcome), st.(store := e.store))
    case PropagateOr(rt, crossing, eval, bind) => Propagated(rt, crossing, eval(st.store), bind, st)
    case ControlReturn(rt, name) =>
      var held := HeldPanic(Read(scope, name, st));
      Stepped(Returning(ControlResults(rt, if IsReturn(held) then held.value.payload else Payload(Nil, Nil))), st)
    case ReturnFlagIf(ok, name) =>
      Stepped(if Read(scope, ok, st) == Flag(true) then Returning([AsValue(Read(scope, name, st))]) else Normal, st)
    case AsException(name, ok, from) =>
      var held := HeldPanic(Read(scope, from, st));
      var st1 := Write(scope, name, Held(if IsException(held) then held else None), st);
      Stepped(Normal, Write(scope, ok, Flag(IsException(held)), st1))
    case AsReturn(name, ok, from) =>
      var held := HeldPanic(Read(scope, from, st));
      var st1 := Write(scope, name, Held(if IsReturn(held) then held else None), st);
      Stepped(Normal, Write(scope, ok, Flag(IsReturn(held)), st1))
    case ErrorOf(name, from) =>
      var held := HeldPanic(Read(scope, from, st));
      Stepped(Normal, Write(scope, name, Data(if IsException(held) then held.value.p.err else Nil), st))
    case BindError(name, view, bind) =>
      Stepped(Normal, st.(store := bind(view(AsData(Read(scope, name, st))), st.store)))
    case NewFrame(name) =>
      Stepped(Normal, Write(scope, name, Ref(|st.frames|), st).(frames := st.frames + [None]))
    case StoreFlag(put, name) =>
      Stepped(Normal, st.(store := put(Read(scope, name, st) == Flag(true), st.store)))
    case SignalOrPanic(value, frame) =>
      var held := HeldPanic(Read(scope, value, st));
      var ref := Read(scope, frame, st);
      if (IsException(held) || IsReturn(held)) && ref.Ref? && ref.frame < |st.frames| then
        Stepped(Panicking(PIterator(ref.frame)), st.(frames := st.frames[ref.frame := held]))
      else Stepped(Raise(held), st)
    case RepanicUnless(ok, value, frame) =>
      var held := HeldPanic(Read(scope, value, st));
      var ref := Read(scope, frame, st);
      if Read(scope, ok, st) != Flag(false) then Stepped(Normal, st)
      else if held.Some? && held.value.PIterator? && ref == Ref(held.value.frame) && ref.frame < |st.frames| then
        Stepped(Raise(st.frames[ref.frame]), st)
      else Stepped(Raise(held), st)
    case PanicControl(frame) =>
      var ref := Read(scope, frame, st);
      if ref.Ref? && ref.frame < |st.frames| && st.frames[ref.frame].Some? then
        Stepped(Raise(st.frames[ref.frame]), st)
      else Stepped(Normal, st)
  }

  function Propagated(rt: ResultType, crossing: bool, e: Evaluated, bind: (Value, Store) -> Store, st: State): Stepped {
    var st1 := st.(store := e.store);
    if !e.outcome.Done? || !((rt.ResultVoid? || rt.ResultOf?) && 1 <= |e.values| <= 2) then
      Stepped(After(e.outcome), st1)
    else if e.values[|e.values| - 1] != Nil then
      var failure := [e.values[|e.values| - 1]];
      Stepped(if crossing then Panicking(PReturn(PanicPayload(rt, ReturnFail, failure)))
              else Returning(NativeResults(rt, ReturnFail, failure)), st1)
    else if |e.values| == 1 then Stepped(Normal, st1)
    else Stepped(Normal, st1.(store := bind(e.values[0], e.store)))
  }

  /** Where a branch, a variable declaration or a conditional continues. */
  datatype Entered = Inside(body: Code, scope: Scope, st: State) | Past(c: Completion, st: State)

  function Enter(g: Code, scope: Scope, st: State): (r: Entered)
    requires g.Branch? || g.Var? || g.When? || g.WhenError?
    ensures r.Inside? ==> Size(r.body) < Size(g)
  {
    match g
    case Branch(test, a, b) =>
      var t := test(st.store);
      var st1 := st.(store := t.store);
      if !t.outcome.Done? then Past(After(t.outcome), st1) else Inside(if t.taken then a else b, scope, st1)
    case Var(name, init, body) => Inside(body, scope[name := |st.cells|], st.(cells := st.cells + [init]))
    case When(name, expected, body) =>
      if Read(scope, name, st) == Flag(expected) then Inside(body, scope, st) else Past(Normal, st)
    case WhenError(name, accepts, body) =>
      if accepts(AsData(Read(scope, name, st))) then Inside(body, scope, st) else Past(Normal, st)
  }

  function Exec(g: Code, scope: Scope, yld: YieldFunc, act: Activation, st: State, fuel: nat): (r: Result)
    ensures Largest(r.act.deferred) <= Largest(act.deferred) || Largest(r.act.deferred) <= Size(g)
    decreases fuel, Size(g) + YieldSize(yld), 0
  {
    if g.Nop? then Result(Normal, act, st)
    else if g.Do? then var r := Step(g.op, scope, st); Result(r.c, act, r.st)
    else if g.Then? then
      var r := Exec(g.first, scope, yld, act, st, fuel);
      if r.c.Normal? then Exec(g.rest, scope, yld, r.act, r.st, fuel) else r
    else if g.Loop? then
      if fuel == 0 then Result(OutOfFuel, act, st) else Iterate(g, scope, yld, act, st, fuel)
    else if g.Defer? then Result(Normal, act.(deferred := Push(g.body, scope, act.deferred)), st)
    else if g.Recover? then
      Result(Normal, act.(panic := None), Write(scope, g.name, Held(Recovers(act.panic)), st))
    else if g.Branch? || g.Var? || g.When? || g.WhenError? then
      var e := Enter(g, scope, st);
      if e.Past? then Result(e.c, act, e.st) else Exec(e.body, e.scope, yld, act, e.st, fuel)
    else var r := Calling(g, scope, yld, st, fuel); Result(r.c, act, r.st)
  }

  /** One iteration of a loop and, unless it leaves, the rest of them. */
  function Iterate(g: Code, scope: Scope, yld: YieldFunc, act: Activation, st: State, fuel: nat): (r: Result)
    requires g.Loop? && fuel > 0
    ensures Largest(r.act.deferred) <= Largest(act.deferred) || Largest(r.act.deferred) <= Size(g)
    decreases fuel, 0, 0
  {
    var t := g.test(st.store);
    var st1 := st.(store := t.store);
    if !t.outcome.Done? then Result(After(t.outcome), act, st1)
    else if !t.taken then Result(Normal, act, st1) else
    var r := Exec(g.body, scope, yld, act, st1, fuel - 1);
    if r.c.Normal? || r.c.Continuing? then Exec(g, scope, yld, r.act, r.st, fuel - 1)
    else if r.c.Breaking? then Result(Normal, r.act, r.st)
    else r
  }

  /** Calls: each runs in an activation of its own, so the caller's is left alone. */
  function Calling(g: Code, scope: Scope, yld: YieldFunc, st: State, fuel: nat): Stepped
    requires g.Call? || g.RangeFunc? || g.CallSource? || g.CallYield?
    decreases fuel, Size(g) + YieldSize(yld) - 1, 1
  {
    match g
    case Call(body) =>
      var r := Invoke(body, scope, yld, None, st, fuel);
      Stepped(AfterCall(r.c), r.st)
    case RangeFunc(callee, bind, body) =>
      var id := |st.ranges|;
      var r := Invoke(callee, map[], RangeBody(id, bind, body, scope, yld), None,
                      st.(ranges := st.ranges + [Range(Ready, None)]), fuel);
      Stepped(RangeEnd(id, r.c, r.st), r.st)
    case CallSource(source, parameter, invoke) =>
      var r := Invoke(source, map[], Literal(parameter, invoke, scope, yld), None, st, fuel);
      Stepped(AfterCall(r.c), r.st)
    case CallYield(argument, result) =>
      var e := if argument.Evaluate? then argument.eval(st.store)
               else Evaluated(st.store, Done, [AsData(Read(scope, argument.name, st))]);
      var st1 := st.(store := e.store);
      if !e.outcome.Done? || |e.values| != 1 then Stepped(After(e.outcome), st1) else
      var r := Yield(yld, e.values[0], st1, fuel);
      Stepped(AfterCall(r.c),
              if r.c.Returning? then Write(scope, result, Flag(r.c.results == [Num(1)]), r.st) else r.st)
  }

  /** A function that returned lets its caller go on. */
  function AfterCall(c: Completion): Completion {
    if c.Returning? then Normal else c
  }

  /** recover() answers nil for the nil panic although it stops it. */
  function Recovers(panic: Option<PanicValue>): Option<PanicValue> {
    if panic == Some(PRaised(NilPanic)) then None else panic
  }

  function AsValue(c: Cell): Value {
    if c == Flag(true) then Num(1) else Num(0)
  }

  function AsData(c: Cell): Value {
    if c.Data? then c.v else Nil
  }

  /** A call of a function literal: its body, then its deferred calls, newest first. */
  function Invoke(body: Code, scope: Scope, yld: YieldFunc, panic: Option<PanicValue>, st: State, fuel: nat): Called
    decreases fuel, Size(body) + 1 + YieldSize(yld), 0
  {
    var r := Exec(body, scope, yld, Activation(Bottom, panic), st, fuel);
    var u := RunDeferred(r.act.deferred, Size(body), yld, r.c, r.st, fuel);
    Called(u.c, panic.Some? && r.act.panic.None?, u.st)
  }

  function RunDeferred(ds: Deferred, bound: nat, yld: YieldFunc, pending: Completion, st: State, fuel: nat): Stepped
    requires Largest(ds) <= bound
    decreases fuel, bound + YieldSize(yld), ds
  {
    match ds
    case Bottom => Stepped(pending, st)
    case Push(body, scope, below) =>
      if pending.OutOfFuel? then Stepped(pending, st) else
      var d := Invoke(body, scope, yld, PanicOf(pending), st, fuel);
      RunDeferred(below, bound, yld, Unwound(pending, d.recovered, d.c), d.st, fuel)
  }

  /** A call of the yield function; the answer comes back as a result. */
  function Yield(yld: YieldFunc, v: Value, st: State, fuel: nat): Called
    decreases fuel, YieldSize(yld), 0
  {
    match yld
    case NoYield => Called(Panicking(PRaised(NilCall)), false, st)
    case Literal(argument, body, scope, outer) =>
      Invoke(body, scope[argument := |st.cells|], outer, None, st.(cells := st.cells + [Data(v)]), fuel)
    case RangeBody(id, bind, body, scope, outer) =>
      if id >= |st.ranges| || !st.ranges[id].phase.Ready? then
        Called(Panicking(PRaised(ContinuedIteration)), false, st) else
      var busy := st.(store := bind(v, st.store), ranges := st.ranges[id := Range(Busy, st.ranges[id].exit)]);
      var r := Exec(body, scope, outer, Activation(Bottom, None), busy, fuel);
      RangeAnswer(id, r.c, r.st)
  }

  /** How the compiler turns the end of a range body into the result of its yield function. */
  function RangeAnswer(id: nat, c: Completion, st: State): Called {
    if id >= |st.ranges| then Called(c, false, st) else
    match c
    case Normal => Called(Returning([Num(1)]), false, st.(ranges := st.ranges[id := st.ranges[id].(phase := Ready)]))
    case Continuing => Called(Returning([Num(1)]), false, st.(ranges := st.ranges[id := st.ranges[id].(phase := Ready)]))
    case Breaking => Called(Returning([Num(0)]), false, st.(ranges := st.ranges[id := st.ranges[id].(phase := Finished)]))
    case Returning(results) =>
      Called(Returning([Num(0)]), false, st.(ranges := st.ranges[id := Range(Finished, Some(results))]))
    case _ => Called(c, false, st)
  }

  /** How a range statement ends once the function it ranges over has. */
  function RangeEnd(id: nat, c: Completion, st: State): Completion {
    if id >= |st.ranges| then c else
    match c
    case Panicking(_) => c
    case Exiting(_) => c
    case OutOfFuel => c
    case _ =>
      if st.ranges[id].phase.Busy? then Panicking(PRaised(MissingPanic))
      else if st.ranges[id].exit.Some? then Returning(st.ranges[id].exit.value)
      else Normal
  }
}
