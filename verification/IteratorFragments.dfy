/** The iterator adapter: frame.run around the source, frame.invoke around each yield. */
module IteratorFragments {
  import opened Completions
  import opened Returns
  import opened GoMachine
  import opened TryLowering
  import opened TryMachinery
  import opened TryFragments

  // ----- frame.run -----

  /** Scope of the adapter around the source call: its frame, and run's two variables. */
  function RunScope(g: State): Scope {
    var n := |g.cells|;
    map[FrameRef := n, RunValue := n + 1, Completed(RunValue) := n + 2]
  }

  /** The state in which a range statement reaches the iterator function itself. */
  function SourceState(g: State): State {
    State(g.store, g.cells + [Ref(|g.frames|)] + [Held(None)] + [Flag(false)], g.ranges + [Range(GoMachine.Ready, None)], g.frames + [None])
  }

  function LoopYield(bind: (Value, Store) -> Store, body: Code, scope: Scope, yld: YieldFunc, g: State): YieldFunc {
    Literal(InvokeArgument, FrameInvoke(), RunScope(g), RangeBody(|g.ranges|, bind, body, scope, yld))
  }

  /** How the adapter ends: its own signal gives way to the stored control, a normal end too. */
  function RunEnd(frame: nat, c: Completion, st: State): Completion
    requires frame < |st.frames|
  {
    match c
    case Panicking(v) => if v == PIterator(frame) then Raise(st.frames[frame]) else c
    case Exiting(_) => Exiting(None)
    case OutOfFuel => c
    case _ => if st.frames[frame].Some? then Raise(st.frames[frame]) else Normal
  }

  lemma CallSourceRuns(source: Code, invoke: Code, scope: Scope, yld: YieldFunc, act: Activation, st: State, fuel: nat)
    requires Exec(source, map[], Literal(InvokeArgument, invoke, scope, yld), Activation(Bottom, None), st, fuel).act == Activation(Bottom, None)
    ensures var b := Exec(source, map[], Literal(InvokeArgument, invoke, scope, yld), Activation(Bottom, None), st, fuel);
            Exec(CallSource(source, InvokeArgument, invoke), scope, yld, act, st, fuel) == Result(AfterCall(b.c), act, b.st)
  {
    var lit := Literal(InvokeArgument, invoke, scope, yld);
    var b := Exec(source, map[], lit, Activation(Bottom, None), st, fuel);
    assert RunDeferred(Bottom, Size(source), lit, b.c, b.st, fuel) == Stepped(b.c, b.st);
    assert Calling(CallSource(source, InvokeArgument, invoke), scope, yld, st, fuel) == Stepped(AfterCall(b.c), b.st);
  }

  /** frame.run, for a call that leaves a valid frame behind. */
  lemma FrameRunRuns(call: Code, frame: nat, scope: Scope, yld: YieldFunc, act: Activation, st: State, fuel: nat)
    requires var sc := scope[RunValue := |st.cells|][Completed(RunValue) := |st.cells| + 1];
             var b := Exec(call, sc, yld, Guard(RunValue, sc), Declared(st), fuel);
             && Tame(Guard(RunValue, sc), Declared(st), b) && !b.c.Returning? && !b.c.Breaking? && !b.c.Continuing?
             && Holds(scope, FrameRef, st, Ref(frame)) && frame < |b.st.frames|
    ensures var sc := scope[RunValue := |st.cells|][Completed(RunValue) := |st.cells| + 1];
            var b := Exec(call, sc, yld, Guard(RunValue, sc), Declared(st), fuel);
            var q := Exec(FrameRun(call), scope, yld, act, st, fuel);
            Tame(act, st, q) && SameWorld(q.st, b.st) && q.c == RunEnd(frame, b.c, b.st)
  {
    hide Exec, Step;
    var n := |st.cells|;
    var sc := scope[RunValue := n][Completed(RunValue) := n + 1];
    var rest := Also(RepanicUnless(Completed(RunValue), RunValue, FrameRef), PanicControl(FrameRef));
    var b := Exec(call, sc, yld, Guard(RunValue, sc), Declared(st), fuel);
    RunDeclares(Then(Call(Protected(call, RunValue)), Do(rest)), scope, yld, act, st, fuel);
    CaptureThenRuns(call, RunValue, rest, sc, yld, act, Declared(st), fuel);
    var st1 := CapturedState(b.c, n, n + 1, b.st);
    assert forall i :: 0 <= i < n ==> st1.cells[i] == Declared(st).cells[i] == st.cells[i];
    assert Declared(st).cells[n + 1] == Flag(false);
    if b.c.Normal? || b.c.Panicking? { RunSteps(b.c, frame, sc, st1); }
  }

  lemma RunDeclares(body: Code, scope: Scope, yld: YieldFunc, act: Activation, st: State, fuel: nat)
    ensures Exec(Var(RunValue, Held(None), Var(Completed(RunValue), Flag(false), body)), scope, yld, act, st, fuel)
         == Exec(body, scope[RunValue := |st.cells|][Completed(RunValue) := |st.cells| + 1], yld, act, Declared(st), fuel)
  {
    hide Exec;
    var st1 := st.(cells := st.cells + [Held(None)]);
    VarRuns(RunValue, Held(None), Var(Completed(RunValue), Flag(false), body), scope, yld, act, st, fuel);
    VarRuns(Completed(RunValue), Flag(false), body, scope[RunValue := |st.cells|], yld, act, st1, fuel);
    assert st1.(cells := st1.cells + [Flag(false)]) == Declared(st);
  }

  lemma RunSteps(c: Completion, frame: nat, scope: Scope, st: State)
    requires (c.Normal? || c.Panicking?) && frame < |st.frames|
    requires Holds(scope, Completed(RunValue), st, Flag(c.Normal?)) && Holds(scope, FrameRef, st, Ref(frame))
    requires Holds(scope, RunValue, st, Held(Recovers(PanicOf(c))))
    ensures Step(Also(RepanicUnless(Completed(RunValue), RunValue, FrameRef), PanicControl(FrameRef)), scope, st)
         == Stepped(RunEnd(frame, c, st), st)
  {
    var again, owed := RepanicUnless(Completed(RunValue), RunValue, FrameRef), PanicControl(FrameRef);
    AlsoSteps(again, owed, scope, st);
    assert Step(again, scope, st).st == st;
  }

  /** `for x := range __kinmokuseiIterator1(source) { body }` */
  lemma RangeRuns(source: Code, bind: (Value, Store) -> Store, body: Code, scope: Scope, yld: YieldFunc, act: Activation, g: State, fuel: nat)
    requires var b := Exec(source, map[], LoopYield(bind, body, scope, yld, g), Activation(Bottom, None), SourceState(g), fuel);
             && Tame(Activation(Bottom, None), SourceState(g), b) && !b.c.Breaking? && !b.c.Continuing?
             && |g.frames| < |b.st.frames|
    ensures var b := Exec(source, map[], LoopYield(bind, body, scope, yld, g), Activation(Bottom, None), SourceState(g), fuel);
            var q := Exec(RangeFunc(Adapter(source), bind, body), scope, yld, act, g, fuel);
            Tame(act, g, q) && SameWorld(q.st, b.st) && q.c == RangeEnd(|g.ranges|, RunEnd(|g.frames|, b.c, b.st), b.st)
  {
    hide Exec;
    var m := |g.frames|;
    var native := RangeBody(|g.ranges|, bind, body, scope, yld);
    var g1 := g.(ranges := g.ranges + [Range(GoMachine.Ready, None)]);
    AdapterRuns(source, native, g1, fuel);
    assert LoopYield(bind, body, scope, yld, g) == Literal(InvokeArgument, FrameInvoke(), RunScope(g1), native);
    assert SourceState(g) == g1.(cells := g.cells + [Ref(m)] + [Held(None)] + [Flag(false)], frames := g.frames + [None]);
    RangeFuncRuns(Adapter(source), bind, body, scope, yld, act, g, fuel);
  }

  lemma RangeFuncRuns(callee: Code, bind: (Value, Store) -> Store, body: Code, scope: Scope, yld: YieldFunc, act: Activation, g: State, fuel: nat)
    requires var g1 := g.(ranges := g.ranges + [Range(GoMachine.Ready, None)]);
             Exec(callee, map[], RangeBody(|g.ranges|, bind, body, scope, yld), Activation(Bottom, None), g1, fuel).act == Activation(Bottom, None)
    ensures var g1 := g.(ranges := g.ranges + [Range(GoMachine.Ready, None)]);
            var b := Exec(callee, map[], RangeBody(|g.ranges|, bind, body, scope, yld), Activation(Bottom, None), g1, fuel);
            Exec(RangeFunc(callee, bind, body), scope, yld, act, g, fuel) == Result(RangeEnd(|g.ranges|, b.c, b.st), act, b.st)
  {
    var g1 := g.(ranges := g.ranges + [Range(GoMachine.Ready, None)]);
    var native := RangeBody(|g.ranges|, bind, body, scope, yld);
    var b := Exec(callee, map[], native, Activation(Bottom, None), g1, fuel);
    assert RunDeferred(Bottom, Size(callee), native, b.c, b.st, fuel) == Stepped(b.c, b.st);
    assert Calling(RangeFunc(callee, bind, body), scope, yld, g, fuel) == Stepped(RangeEnd(|g.ranges|, b.c, b.st), b.st);
  }

  /** The adapter called by the range statement. */
  lemma AdapterRuns(source: Code, native: YieldFunc, g: State, fuel: nat)
    requires var h := g.(cells := g.cells + [Ref(|g.frames|)] + [Held(None)] + [Flag(false)], frames := g.frames + [None]);
             var b := Exec(source, map[], Literal(InvokeArgument, FrameInvoke(), RunScope(g), native), Activation(Bottom, None), h, fuel);
             && Tame(Activation(Bottom, None), h, b) && !b.c.Breaking? && !b.c.Continuing? && |g.frames| < |b.st.frames|
    ensures var h := g.(cells := g.cells + [Ref(|g.frames|)] + [Held(None)] + [Flag(false)], frames := g.frames + [None]);
            var b := Exec(source, map[], Literal(InvokeArgument, FrameInvoke(), RunScope(g), native), Activation(Bottom, None), h, fuel);
            var q := Exec(Adapter(source), map[], native, Activation(Bottom, None), g, fuel);
            Tame(Activation(Bottom, None), g, q) && SameWorld(q.st, b.st) && q.c == RunEnd(|g.frames|, b.c, b.st)
  {
    hide Exec, FrameRun, FrameInvoke;
    var act := Activation(Bottom, None);
    var call := CallSource(source, InvokeArgument, FrameInvoke());
    var sc0, g1 := AdapterScope(g), AdapterState(g);
    AdapterEnters(call, native, g, fuel);
    var sc: Scope := sc0[RunValue := |g.cells| + 1][Completed(RunValue) := |g.cells| + 2];
    assert sc == RunScope(g);
    assert Declared(g1) == g.(cells := g.cells + [Ref(|g.frames|)] + [Held(None)] + [Flag(false)], frames := g.frames + [None]);
    CallSourceRuns(source, FrameInvoke(), sc, native, Guard(RunValue, sc), Declared(g1), fuel);
    hide Declared, RunScope, RunEnd;
    FrameRunRuns(call, |g.frames|, sc0, native, act, g1, fuel);
    PlainCallRuns(FrameRun(call), sc0, native, act, g1, fuel);
  }

  function AdapterScope(g: State): Scope {
    map[FrameRef := |g.cells|]
  }

  function AdapterState(g: State): State {
    g.(cells := g.cells + [Ref(|g.frames|)], frames := g.frames + [None])
  }

  /** The adapter makes its frame first. */
  lemma AdapterEnters(call: Code, native: YieldFunc, g: State, fuel: nat)
    ensures Exec(Var(FrameRef, Held(None), Then(Do(NewFrame(FrameRef)), Call(FrameRun(call)))), map[], native, Activation(Bottom, None), g, fuel)
         == Exec(Call(FrameRun(call)), AdapterScope(g), native, Activation(Bottom, None), AdapterState(g), fuel)
  {
    hide Exec, FrameRun;
    var act := Activation(Bottom, None);
    var sc0, g0 := AdapterScope(g), g.(cells := g.cells + [Held(None)]);
    VarRuns(FrameRef, Held(None), Then(Do(NewFrame(FrameRef)), Call(FrameRun(call))), map[], native, act, g, fuel);
    assert map[][FrameRef := |g.cells|] == sc0;
    DoRuns(NewFrame(FrameRef), sc0, native, act, g0, fuel);
    assert Step(NewFrame(FrameRef), sc0, g0) == Stepped(Normal, AdapterState(g));
    ThenRuns(Do(NewFrame(FrameRef)), Call(FrameRun(call)), sc0, native, act, g0, fuel);
  }

  // ----- frame.invoke -----

  function InvokeScope(scope: Scope, g: State): Scope {
    var n := |g.cells|;
    scope[InvokeValue := n][InvokeResult := n + 1][Completed(InvokeValue) := n + 2]
  }

  function InvokeState(g: State): State {
    g.(cells := g.cells + [Held(None)] + [Flag(false)] + [Flag(false)])
  }

  /** How invoke ends, given how the yield it wraps did. */
  function InvokeEnd(frame: nat, c: Completion): Completion {
    match c
    case Returning(rs) => Returning([if rs == [Num(1)] then Num(1) else Num(0)])
    case Panicking(v) => if IsException(Some(v)) || IsReturn(Some(v)) then Panicking(PIterator(frame)) else c
    case _ => Captured(c)
  }

  /** ... and what it leaves in the frame. */
  function InvokeFrames(frame: nat, c: Completion, frames: seq<Option<PanicValue>>): seq<Option<PanicValue>>
    requires frame < |frames|
  {
    if c.Panicking? && (IsException(Some(c.panic)) || IsReturn(Some(c.panic))) then frames[frame := Some(c.panic)] else frames
  }

  lemma CallYieldRuns(argument: Argument, result: Temp, v: Value, scope: Scope, yld: YieldFunc, act: Activation, st: State, fuel: nat)
    requires if argument.Evaluate? then argument.eval(st.store) == Evaluated(st.store, Done, [v])
             else Holds(scope, argument.name, st, Data(v))
    ensures var y := Yield(yld, v, st, fuel);
            Exec(CallYield(argument, result), scope, yld, act, st, fuel) ==
            Result(AfterCall(y.c), act, if y.c.Returning? then Write(scope, result, Flag(y.c.results == [Num(1)]), y.st) else y.st)
  {
    var y := Yield(yld, v, st, fuel);
    assert Calling(CallYield(argument, result), scope, yld, st, fuel)
        == Stepped(AfterCall(y.c), if y.c.Returning? then Write(scope, result, Flag(y.c.results == [Num(1)]), y.st) else y.st);
  }

  /** frame.invoke around a yield that ended in `y`. */
  lemma FrameInvokeRuns(v: Value, frame: nat, scope: Scope, yld: YieldFunc, g: State, fuel: nat)
    requires var y := Yield(yld, v, InvokeState(g), fuel);
             && Holds(scope, InvokeArgument, g, Data(v)) && Holds(scope, FrameRef, g, Ref(frame))
             && Keeps(InvokeState(g).cells, y.st.cells) && frame < |y.st.frames|
             && (y.c.Returning? || y.c.Panicking? || y.c.Exiting? || y.c.OutOfFuel?)
    ensures var y := Yield(yld, v, InvokeState(g), fuel);
            var q := Exec(FrameInvoke(), scope, yld, Activation(Bottom, None), g, fuel);
            && q.act == Activation(Bottom, None) && Keeps(g.cells, q.st.cells) && q.c == InvokeEnd(frame, y.c)
            && q.st.store == y.st.store && q.st.ranges == y.st.ranges && q.st.frames == InvokeFrames(frame, y.c, y.st.frames)
  {
    hide Exec, Yield, Step, CapturedState, InvokeScope, InvokeState, Write;
    var y := Yield(yld, v, InvokeState(g), fuel);
    InvokeDeclares(Then(Call(Protected(InvokeCall(), InvokeValue)), Do(InvokeRest())), scope, yld, Activation(Bottom, None), g, fuel);
    InvokeCaptures(v, scope, yld, g, fuel);
    var st := AnsweredState(y, scope, g);
    YieldCaptured(y, st, frame, scope, g);
    if y.c.Returning? || y.c.Panicking? {
      InvokeSteps(y.c, frame, InvokeScope(scope, g), CapturedState(AfterCall(y.c), |g.cells|, |g.cells| + 2, st));
    }
  }

  function InvokeCall(): Code {
    CallYield(FromCell(InvokeArgument), InvokeResult)
  }

  function InvokeRest(): Op {
    Also(ReturnFlagIf(Completed(InvokeValue), InvokeResult), SignalOrPanic(InvokeValue, FrameRef))
  }

  function AnsweredState(y: Called, scope: Scope, g: State): State {
    if y.c.Returning? then Write(InvokeScope(scope, g), InvokeResult, Flag(y.c.results == [Num(1)]), y.st) else y.st
  }

  /** The protected yield, and what invoke does after it. */
  lemma InvokeCaptures(v: Value, scope: Scope, yld: YieldFunc, g: State, fuel: nat)
    requires Holds(scope, InvokeArgument, g, Data(v)) && Keeps(InvokeState(g).cells, Yield(yld, v, InvokeState(g), fuel).st.cells)
    ensures var n, sc, y := |g.cells|, InvokeScope(scope, g), Yield(yld, v, InvokeState(g), fuel);
            var c, st := AfterCall(y.c), AnsweredState(y, scope, g);
            n + 2 < |st.cells| &&
            var st1 := CapturedState(c, n, n + 2, st);
            Exec(Then(Call(Protected(InvokeCall(), InvokeValue)), Do(InvokeRest())), sc, yld, Activation(Bottom, None), InvokeState(g), fuel) ==
            if Captured(c).Normal? then Result(Step(InvokeRest(), sc, st1).c, Activation(Bottom, None), Step(InvokeRest(), sc, st1).st)
            else Result(Captured(c), Activation(Bottom, None), st1)
  {
    hide Exec, Yield, Step, CapturedState;
    var sc := InvokeScope(scope, g);
    CallYieldRuns(FromCell(InvokeArgument), InvokeResult, v, sc, yld, Guard(InvokeValue, sc), InvokeState(g), fuel);
    CaptureThenRuns(InvokeCall(), InvokeValue, InvokeRest(), sc, yld, Activation(Bottom, None), InvokeState(g), fuel);
  }

  /** The cells after the captured yield: its answer, and whatever it recovered. */
  lemma YieldCaptured(y: Called, st: State, frame: nat, scope: Scope, g: State)
    requires Keeps(InvokeState(g).cells, y.st.cells) && Holds(scope, FrameRef, g, Ref(frame))
    requires y.c.Returning? || y.c.Panicking? || y.c.Exiting? || y.c.OutOfFuel?
    requires st == AnsweredState(y, scope, g)
    ensures var n, sc, c := |g.cells|, InvokeScope(scope, g), AfterCall(y.c);
            var st1 := CapturedState(c, n, n + 2, st);
            && Keeps(g.cells, st.cells) && n + 2 < |st.cells| && Keeps(g.cells, st1.cells)
            && st1.store == y.st.store && st1.ranges == y.st.ranges && st1.frames == y.st.frames
            && Holds(sc, FrameRef, st1, Ref(frame))
            && (y.c.Returning? || y.c.Panicking? ==> Holds(sc, Completed(InvokeValue), st1, Flag(y.c.Returning?)))
            && (y.c.Returning? ==> Holds(sc, InvokeResult, st1, Flag(y.c.results == [Num(1)])))
            && (y.c.Panicking? ==> Holds(sc, InvokeValue, st1, Held(Recovers(PanicOf(c)))))
  {
    var n := |g.cells|;
    assert InvokeState(g).cells[n + 2] == Flag(false);
    assert forall i :: 0 <= i < n ==> InvokeState(g).cells[i] == g.cells[i];
  }

  lemma InvokeDeclares(body: Code, scope: Scope, yld: YieldFunc, act: Activation, g: State, fuel: nat)
    ensures Exec(Var(InvokeValue, Held(None), Var(InvokeResult, Flag(false), Var(Completed(InvokeValue), Flag(false), body))), scope, yld, act, g, fuel)
         == Exec(body, InvokeScope(scope, g), yld, act, InvokeState(g), fuel)
  {
    hide Exec;
    var sc1 := scope[InvokeValue := |g.cells|];
    var g1 := g.(cells := g.cells + [Held(None)]);
    var sc2 := sc1[InvokeResult := |g1.cells|];
    var g2 := g1.(cells := g1.cells + [Flag(false)]);
    VarRuns(InvokeValue, Held(None), Var(InvokeResult, Flag(false), Var(Completed(InvokeValue), Flag(false), body)), scope, yld, act, g, fuel);
    VarRuns(InvokeResult, Flag(false), Var(Completed(InvokeValue), Flag(false), body), sc1, yld, act, g1, fuel);
    VarRuns(Completed(InvokeValue), Flag(false), body, sc2, yld, act, g2, fuel);
  }

  lemma InvokeSteps(c: Completion, frame: nat, scope: Scope, st: State)
    requires (c.Returning? || c.Panicking?) && frame < |st.frames|
    requires Holds(scope, Completed(InvokeValue), st, Flag(c.Returning?)) && Holds(scope, FrameRef, st, Ref(frame))
    requires c.Returning? ==> Holds(scope, InvokeResult, st, Flag(c.results == [Num(1)]))
    requires c.Panicking? ==> Holds(scope, InvokeValue, st, Held(Recovers(PanicOf(c))))
    ensures Step(InvokeRest(), scope, st)
         == Stepped(InvokeEnd(frame, c), st.(frames := InvokeFrames(frame, c, st.frames)))
  {
    AlsoSteps(ReturnFlagIf(Completed(InvokeValue), InvokeResult), SignalOrPanic(InvokeValue, FrameRef), scope, st);
  }

  /** A call of the adapter's yield function. */
  lemma LiteralYieldRuns(v: Value, scope: Scope, outer: YieldFunc, g: State, fuel: nat)
    requires var g1 := g.(cells := g.cells + [Data(v)]);
             Exec(FrameInvoke(), scope[InvokeArgument := |g.cells|], outer, Activation(Bottom, None), g1, fuel).act == Activation(Bottom, None)
    ensures var g1 := g.(cells := g.cells + [Data(v)]);
            var q := Exec(FrameInvoke(), scope[InvokeArgument := |g.cells|], outer, Activation(Bottom, None), g1, fuel);
            Yield(Literal(InvokeArgument, FrameInvoke(), scope, outer), v, g, fuel) == Called(q.c, false, q.st)
  {
    var g1 := g.(cells := g.cells + [Data(v)]);
    var sc := scope[InvokeArgument := |g.cells|];
    var q := Exec(FrameInvoke(), sc, outer, Activation(Bottom, None), g1, fuel);
    assert RunDeferred(Bottom, Size(FrameInvoke()), outer, q.c, q.st, fuel) == Stepped(q.c, q.st);
    assert Invoke(FrameInvoke(), sc, outer, None, g1, fuel) == Called(q.c, false, q.st);
  }

  lemma RangeYieldRuns(v: Value, id: nat, bind: (Value, Store) -> Store, body: Code, scope: Scope, outer: YieldFunc, g: State, fuel: nat)
    ensures Yield(RangeBody(id, bind, body, scope, outer), v, g, fuel) ==
            if id >= |g.ranges| || !g.ranges[id].phase.Ready? then Called(Panicking(PRaised(ContinuedIteration)), false, g)
            else
              var busy := g.(store := bind(v, g.store), ranges := g.ranges[id := Range(GoMachine.Busy, g.ranges[id].exit)]);
              var r := Exec(body, scope, outer, Activation(Bottom, None), busy, fuel);
              RangeAnswer(id, r.c, r.st)
  {
  }
}
