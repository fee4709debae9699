/** Values, stores and completions shared by the source language and its Go form. */
module Completions {

  datatype Option<+T> = None | Some(value: T)

  /** `Nil` is the nil interface. `Upcast` and `ExceptionOf` are the views a catch binder receives. */
  datatype Value =
    | Nil
    | Num(n: int)
    | Text(s: string)
    | Instance(cls: string, id: int)
    | Upcast(view: string, of: Value)
    | ExceptionOf(err: Value)
    | Record(fields: seq<Value>)

  /** Program variables and the trace of observable events. */
  datatype Store = Store(vars: map<string, Value>, trace: seq<int>)

  /** What user code can raise. `Thrown` implements the exported exception interface, possibly in
      another package (`home`); `NilPanic` is panic(nil), for which recover() answers nil. */
  datatype Raised = Thrown(home: nat, err: Value) | Foreign(v: Value) | NilPanic

  /** How an expression or an opaque call ends. */
  datatype Outcome = Done | Panics(p: Raised) | Exits

  datatype Effect = Effect(store: Store, outcome: Outcome)
  datatype Choice = Choice(store: Store, outcome: Outcome, taken: bool)
  datatype Evaluated = Evaluated(store: Store, outcome: Outcome, values: seq<Value>)

  /** Panics raised by the Go runtime itself. */
  const ContinuedIteration: Raised := Foreign(Text("range function continued iteration after loop body exit"))
  const MissingPanic: Raised := Foreign(Text("range function recovered a loop body panic and did not resume panicking"))
  const NilCall: Raised := Foreign(Text("invalid memory address or nil pointer dereference"))
  const Unreachable: Raised := Foreign(Text("unreachable after terminal Kinmokusei try"))
}

/** Results of a callable, and the payload that carries them through a panic. */
module Returns {
  import opened Completions

  /** The declared result: `zero` is the Go zero value of the element type. */
  datatype ResultType = Void | Plain(zero: Value) | Many(arity: nat) | ResultVoid | ResultOf(zero: Value)

  datatype ReturnKind = ReturnVoid | ReturnValue | ReturnMany | ReturnOk | ReturnFail | ReturnForward

  /** __kinmokuseiReturn{value, err}: an omitted field is nil. */
  datatype Payload = Payload(value: Value, err: Value)

  /** A nil `any` can only come from an element type whose zero value is itself nil. */
  predicate Fits(zero: Value, v: Value) {
    v == Nil ==> zero == Nil
  }

  /** The shapes the checker lets a return statement of each kind evaluate to. */
  predicate Typed(rt: ResultType, kind: ReturnKind, vs: seq<Value>) {
    match (rt, kind)
    case (Void, ReturnVoid) => vs == []
    case (Plain(z), ReturnValue) => |vs| == 1 && Fits(z, vs[0])
    case (Many(n), ReturnMany) => |vs| == n
    case (ResultVoid, ReturnOk) => vs == []
    case (ResultVoid, ReturnFail) => |vs| == 1
    case (ResultVoid, ReturnForward) => |vs| == 1
    case (ResultOf(z), ReturnOk) => |vs| == 1 && Fits(z, vs[0])
    case (ResultOf(z), ReturnFail) => |vs| == 1
    case (ResultOf(z), ReturnForward) => |vs| == 2 && Fits(z, vs[0])
    case _ => false
  }

  /** What a plain Go return statement of this kind yields. */
  function NativeResults(rt: ResultType, kind: ReturnKind, vs: seq<Value>): seq<Value>
    requires Typed(rt, kind, vs)
  {
    match (rt, kind)
    case (ResultVoid, ReturnOk) => [Nil]
    case (ResultOf(_), ReturnOk) => [vs[0], Nil]
    case (ResultOf(z), ReturnFail) => [z, vs[0]]
    case _ => vs
  }

  /** The payload panicked with when the return crosses a try. */
  function PanicPayload(rt: ResultType, kind: ReturnKind, vs: seq<Value>): Payload
    requires Typed(rt, kind, vs)
  {
    match kind
    case ReturnVoid => Payload(Nil, Nil)
    case ReturnValue => Payload(vs[0], Nil)
    case ReturnMany => Payload(Record(vs), Nil)
    case ReturnOk => if rt.ResultVoid? then Payload(Nil, Nil) else Payload(vs[0], Nil)
    case ReturnFail => Payload(Nil, vs[0])
    case ReturnForward => if rt.ResultVoid? then Payload(Nil, vs[0]) else Payload(vs[0], vs[1])
  }

  /** __kinmokuseiReturnValue: a nil payload becomes the zero value of the wanted type. */
  function Unboxed(zero: Value, v: Value): Value {
    if v == Nil then zero else v
  }

  /** What the outermost try returns from a recovered payload. */
  function ControlResults(rt: ResultType, p: Payload): seq<Value> {
    match rt
    case Void => []
    case Plain(z) => [Unboxed(z, p.value)]
    case Many(_) => if p.value.Record? then p.value.fields else []
    case ResultVoid => [p.err]
    case ResultOf(z) => [Unboxed(z, p.value), p.err]
  }

  /** A return carried by a panic arrives with exactly the results of the plain return: a Result's value
      first and its error last, nil for success, and the zero value beside an error. */
  lemma PayloadRoundTrip(rt: ResultType, kind: ReturnKind, vs: seq<Value>)
    requires Typed(rt, kind, vs)
    ensures ControlResults(rt, PanicPayload(rt, kind, vs)) == NativeResults(rt, kind, vs)
    ensures var r := ControlResults(rt, PanicPayload(rt, kind, vs));
            match (rt, kind)
            case (ResultVoid, ReturnOk) => r == [Nil]
            case (ResultVoid, ReturnFail) => r == [vs[0]]
            case (ResultOf(_), ReturnOk) => r == [vs[0], Nil]
            case (ResultOf(zero), ReturnFail) => r == [zero, vs[0]]
            case _ => r == vs
  {
    match rt
    case Void =>
    case Plain(z) => assert vs == [vs[0]];
    case Many(n) =>
    case ResultVoid => if !kind.ReturnOk? { assert vs == [vs[0]]; }
    case ResultOf(z) => if kind.ReturnForward? { assert vs == [vs[0], vs[1]]; }
  }
}
