/** The source statements that touch control flow, with a direct evaluator: no panic, no closure,
    no flag. Expressions and opaque calls are arbitrary functions of the store. */
module ExceptionSource {
  import opened Completions
  import opened Returns

  datatype Stmt =
    | Skip
    | Prim(run: Store -> Effect)
    | Seq(first: Stmt, rest: Stmt)
    | If(test: Store -> Choice, thn: Stmt, els: Stmt)
    | While(test: Store -> Choice, body: Stmt)
    | Break
    | Continue
    | Return(kind: ReturnKind, eval: Store -> Evaluated)
    | Propagate(eval: Store -> Evaluated, bind: (Value, Store) -> Store)
    | Throw(eval: Store -> Evaluated)
    | Rethrow(target: nat)
    | Try(offset: nat, body: Stmt, catches: Catches, fin: Option<Stmt>)
    | ForOf(bind: (Value, Store) -> Store, iter: Stmt, body: Stmt)
    | Yield(eval: Store -> Evaluated, put: (bool, Store) -> Store)

  datatype Catches = NoCatch | MoreCatch(clause: Catch, others: Catches)

  /** `bind` leaves the store alone for `_` and for an unused binder. */
  datatype Catch = Catch(sort: CatchSort, bind: (Value, Store) -> Store, body: Stmt)

  /** `matching` is the checker's list: the class itself first, then its descendants. */
  datatype CatchSort =
    | CatchError
    | CatchClass(name: string, matching: seq<string>)
    | CatchType(accepts: Value -> bool)

  function Size(s: Stmt): nat {
    match s
    case Seq(a, b) => 1 + Size(a) + Size(b)
    case If(_, a, b) => 1 + Size(a) + Size(b)
    case While(_, b) => 1 + Size(b)
    case Try(_, b, cs, f) => 2 + Size(b) + CatchesSize(cs) + (if f.Some? then Size(f.value) else 0)
    case ForOf(_, i, b) => 3 + Size(i) + Size(b)
    case _ => 1
  }

  function CatchesSize(cs: Catches): nat {
    match cs
    case NoCatch => 0
    case MoreCatch(c, others) => 1 + Size(c.body) + CatchesSize(others)
  }

  /** `Exiting(p)`: the goroutine is leaving through runtime.Goexit. It keeps running finallys;
      `p` is what a finally raised meanwhile and no recover has absorbed (Normal: nothing). */
  datatype Completion =
    | Normal
    | Breaking
    | Continuing
    | Returning(results: seq<Value>)
    | Raising(p: Raised)
    | Unwinding(loop: nat)
    | Exiting(pending: Completion)
    | OutOfFuel

  /** One activation of an iterator loop. A body that returns across a try or throws leaves its
      completion in `pending` and unwinds the iterator; a body that breaks or returns outside any
      try leaves `exit` and answers false. */
  datatype Loop = Loop(phase: Phase, pending: Option<Completion>, exit: Option<seq<Value>>, crossing: bool, rt: ResultType)
  datatype Phase = Ready | Busy | Finished

  datatype State = State(store: Store, loops: seq<Loop>)

  /** The loop that a yield of the running iterator feeds. */
  datatype Context =
    | NoLoop
    | InLoop(id: nat, bind: (Value, Store) -> Store, body: Stmt, crossing: bool, rt: ResultType,
             env: Env, outer: Context)

  /** Exceptions caught by the enclosing catch clauses, by the offset of their try. */
  type Env = map<nat, Raised>

  function ContextSize(ctx: Context): nat {
    match ctx
    case NoLoop => 0
    case InLoop(_, _, body, _, _, _, outer) => 1 + Size(body) + ContextSize(outer)
  }

  datatype Result = Result(c: Completion, st: State)

  function After(outcome: Outcome): Completion {
    match outcome
    case Done => Normal
    case Panics(p) => Raising(p)
    case Exits => Exiting(Normal)
  }

  /** The value bound by a clause that accepts `err`, if it does. */
  function Bound(sort: CatchSort, err: Value): Option<Value> {
    match sort
    case CatchError => Some(err)
    case CatchClass(name, matching) =>
      if err.Instance? && err.cls in matching then
        Some(if err.cls == name then err else Upcast(name, err))
      else if name == "Exception" then
        Some(FromError(err))
      else None
    case CatchType(accepts) => if accepts(err) then Some(err) else None
  }

  function FromError(err: Value): Value {
    if err.Instance? && err.cls == "Exception" then err else ExceptionOf(err)
  }

  /** What a class clause binds, by the class of what was thrown; `matching` has the clause's own class. A
      clause for `Exception` accepts every error, and sees one that is no instance of its classes through
      a new exception that holds it. */
  lemma BinderHolds(name: string, matching: seq<string>, err: Value)
    requires name in matching
    ensures var bound := Bound(CatchClass(name, matching), err);
            && (err.Instance? && err.cls == name ==> bound == Some(err))
            && (err.Instance? && err.cls in matching && err.cls != name ==> bound == Some(Upcast(name, err)))
            && (!(err.Instance? && err.cls in matching) ==> bound == if name == "Exception" then Some(ExceptionOf(err)) else None)
  {
  }

  datatype Chosen = Unhandled | Chosen(bind: (Value, Store) -> Store, value: Value, body: Stmt)

  /** The first clause, in source order, that accepts the error. */
  function Choose(cs: Catches, err: Value): (r: Chosen)
    ensures r.Chosen? ==> Size(r.body) < CatchesSize(cs)
  {
    match cs
    case NoCatch => Unhandled
    case MoreCatch(Catch(sort, bind, body), others) =>
      match Bound(sort, err)
      case Some(v) => Chosen(bind, v, body)
      case None => Choose(others, err)
  }

  /** A catch or a return boundary stops whatever was raised while exiting, never the exit. */
  function Absorb(c: Completion): Completion {
    if c.Exiting? then Exiting(Normal) else c
  }

  /** A finally that completes normally leaves the pending completion; otherwise its own replaces
      it, except that nothing replaces an exit. */
  function Finish(pending: Completion, fin: Completion): Completion {
    if fin.Normal? then pending
    else if fin.OutOfFuel? || fin.Exiting? || !pending.Exiting? then fin
    else Exiting(fin)
  }

  /** Completions a loop body hands over to its loop instead of the iterator. */
  predicate Signals(c: Completion) {
    c.Returning? || (c.Raising? && c.p.Thrown?)
  }

  /** Statements that neither nest nor reach the loop of a running iterator. */
  function Simple(s: Stmt, rt: ResultType, env: Env, st: State): (r: Result)
    ensures r.st.loops == st.loops
  {
    match s
    case Prim(run) => var e := run(st.store); Result(After(e.outcome), st.(store := e.store))
    case Break => Result(Breaking, st)
    case Continue => Result(Continuing, st)
    case Return(kind, eval) =>
      var e := eval(st.store);
      Result(if e.outcome.Done? && Typed(rt, kind, e.values) then Returning(NativeResults(rt, kind, e.values))
             else After(e.outcome), st.(store := e.store))
    case Propagate(eval, bind) =>
      var e := eval(st.store);
      var st1 := st.(store := e.store);
      if !e.outcome.Done? || !Propagates(rt, e.values) then Result(After(e.outcome), st1)
      else if e.values[|e.values| - 1] != Nil then
        Result(Returning(NativeResults(rt, ReturnFail, [e.values[|e.values| - 1]])), st1)
      else if |e.values| == 1 then Result(Normal, st1)
      else Result(Normal, st1.(store := bind(e.values[0], e.store)))
    case Throw(eval) =>
      var e := eval(st.store);
      Result(if e.outcome.Done? && |e.values| == 1 then Raising(Thrown(0, e.values[0])) else After(e.outcome),
             st.(store := e.store))
    case Rethrow(target) => Result(if target in env then Raising(env[target]) else Normal, st)
    case _ => Result(Normal, st)
  }

  function Exec(s: Stmt, crossing: bool, rt: ResultType, env: Env, ctx: Context, st: State, fuel: nat): (r: Result)
    ensures |r.st.loops| >= |st.loops|
    decreases fuel, Size(s) + ContextSize(ctx), 1
  {
    if s.Seq? then
      var r := Exec(s.first, crossing, rt, env, ctx, st, fuel);
      if r.c.Normal? then Exec(s.rest, crossing, rt, env, ctx, r.st, fuel) else r
    else if s.If? then
      var t := s.test(st.store);
      var st1 := st.(store := t.store);
      if !t.outcome.Done? then Result(After(t.outcome), st1)
      else Exec(if t.taken then s.thn else s.els, crossing, rt, env, ctx, st1, fuel)
    else if s.While? then
      if fuel == 0 then Result(OutOfFuel, st) else Iterate(s, crossing, rt, env, ctx, st, fuel)
    else if s.Try? then
      var r := Guarded(s, rt, env, ctx, st, fuel);
      var r1 :=
        if s.fin.None? || r.c.OutOfFuel? then r
        else
          var f := Exec(s.fin.value, true, rt, env, ctx, r.st, fuel);
          Result(Finish(r.c, f.c), f.st);
      if crossing then r1 else Result(Absorb(r1.c), r1.st)
    else if s.ForOf? then
      var id := |st.loops|;
      AfterLoop(id, Exec(s.iter, false, Void, map[], InLoop(id, s.bind, s.body, crossing, rt, env, ctx),
                         st.(loops := st.loops + [Loop(Ready, None, None, crossing, rt)]), fuel))
    else if s.Yield? then
      var e := s.eval(st.store);
      var st1 := st.(store := e.store);
      if !e.outcome.Done? || |e.values| != 1 then Result(After(e.outcome), st1)
      else if ctx.NoLoop? then Result(Raising(NilCall), st1)
      else if ctx.id >= |st1.loops| || !st1.loops[ctx.id].phase.Ready? then Result(Raising(ContinuedIteration), st1)
      else
        var busy := State(ctx.bind(e.values[0], st1.store), st1.loops[ctx.id := st1.loops[ctx.id].(phase := Busy)]);
        AfterBody(ctx.id, ctx.crossing, s.put, Exec(ctx.body, ctx.crossing, ctx.rt, ctx.env, ctx.outer, busy, fuel))
    else Simple(s, rt, env, st)
  }

  /** One iteration of a loop and, unless it leaves, the rest of them. */
  function Iterate(s: Stmt, crossing: bool, rt: ResultType, env: Env, ctx: Context, st: State, fuel: nat): (r: Result)
    requires s.While? && fuel > 0
    ensures |r.st.loops| >= |st.loops|
    decreases fuel, 0, 0
  {
    var t := s.test(st.store);
    var st1 := st.(store := t.store);
    if !t.outcome.Done? then Result(After(t.outcome), st1)
    else if !t.taken then Result(Normal, st1) else
    var r := Exec(s.body, crossing, rt, env, ctx, st1, fuel - 1);
    if r.c.Normal? || r.c.Continuing? then Exec(s, crossing, rt, env, ctx, r.st, fuel - 1)
    else if r.c.Breaking? then Result(Normal, r.st)
    else r
  }

  /** A try body followed by the clause chosen for what it threw. */
  function Guarded(s: Stmt, rt: ResultType, env: Env, ctx: Context, st: State, fuel: nat): (r: Result)
    requires s.Try?
    ensures |r.st.loops| >= |st.loops|
    decreases fuel, Size(s) + ContextSize(ctx), 0
  {
    var r := Exec(s.body, true, rt, env, ctx, st, fuel);
    if s.catches.NoCatch? then r
    else if r.c.Raising? && r.c.p.Thrown? then
      var ch := Choose(s.catches, r.c.p.err);
      if ch.Unhandled? then r
      else Exec(ch.body, true, rt, env[s.offset := r.c.p], ctx, r.st.(store := ch.bind(ch.value, r.st.store)), fuel)
    else Result(Absorb(r.c), r.st)
  }

  /** Values of a result propagation: the error, preceded by the value unless it is void. */
  predicate Propagates(rt: ResultType, vs: seq<Value>) {
    (rt.ResultVoid? || rt.ResultOf?) && 1 <= |vs| <= 2
  }

  /** What a yield answers, or raises into the iterator, once the loop body has completed. */
  function AfterBody(id: nat, inTry: bool, put: (bool, Store) -> Store, r: Result): (q: Result)
    requires id < |r.st.loops|
    ensures |q.st.loops| == |r.st.loops|
  {
    var loop := r.st.loops[id];
    match r.c
    case Normal => Answer(id, loop.(phase := Ready), true, put, r.st)
    case Continuing => Answer(id, loop.(phase := Ready), true, put, r.st)
    case Breaking => Answer(id, loop.(phase := Finished), false, put, r.st)
    case Returning(results) =>
      if inTry then Result(Unwinding(id), r.st.(loops := r.st.loops[id := loop.(pending := Some(r.c))]))
      else Answer(id, loop.(phase := Finished, exit := Some(results)), false, put, r.st)
    case Raising(p) =>
      if p.Thrown? then Result(Unwinding(id), r.st.(loops := r.st.loops[id := loop.(pending := Some(r.c))]))
      else r
    case _ => Result(Absorb(r.c), r.st)
  }

  function Answer(id: nat, loop: Loop, more: bool, put: (bool, Store) -> Store, st: State): Result
    requires id < |st.loops|
  {
    Result(Normal, State(put(more, st.store), st.loops[id := loop]))
  }

  /** The completion after a loop: its own body's, unless the iterator raised something new. */
  function AfterLoop(id: nat, r: Result): (q: Result)
    requires id < |r.st.loops|
    ensures q.st == r.st
  {
    var loop := r.st.loops[id];
    match r.c
    case OutOfFuel => r
    case Exiting(_) => Result(Exiting(Normal), r.st)
    case Raising(_) => r
    case Unwinding(other) =>
      if other == id && loop.pending.Some? then Result(loop.pending.value, r.st) else r
    case _ =>
      if loop.pending.Some? then Result(loop.pending.value, r.st)
      else if loop.phase.Busy? then Result(Raising(MissingPanic), r.st)
      else if loop.exit.Some? then Result(Returning(loop.exit.value), r.st)
      else Result(Normal, r.st)
  }
}
