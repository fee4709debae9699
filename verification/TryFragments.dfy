/** The fragments of a lowered try and of a lowered iterator loop, each reduced to what happens to
    the code it surrounds. */
module TryFragments {
  import opened Completions
  import opened Returns
  import S = ExceptionSource
  import opened GoMachine
  import opened TryLowering
  import opened TryMachinery

  /** The scope and the state in which a capture runs its body. */
  function CaptureScope(recovered: Temp, scope: Scope, st: State): Scope {
    scope[recovered := |st.cells|][Completed(recovered) := |st.cells| + 1]
  }

  /** A body that leaves its activation and the older cells alone. */
  ghost predicate Tame(act: Activation, st: State, r: Result) {
    r.act == act && Keeps(st.cells, r.st.cells)
  }

  // ----- catching -----

  function CatchingScope(k: nat, scope: Scope, st: State): Scope {
    scope[Caught(k) := |st.cells|][CaughtError(k) := |st.cells| + 1][ThrownOf(k) := |st.cells| + 2]
  }

  function CatchingState(st: State): State {
    st.(cells := st.cells + [Flag(false)] + [Data(Nil)] + [Held(None)])
  }

  lemma CatchingUnfolds(k: nat, body: Code, clauses: Code, scope: Scope, yld: YieldFunc, act: Activation, st: State, fuel: nat)
    ensures var scope3 := CatchingScope(k, scope, st);
            var r := Exec(PanicCapture(body, CatchRecovery(k), Recovered(k)), scope3, yld, act, CatchingState(st), fuel);
            Exec(CatchingBody(k, body, clauses), scope, yld, act, st, fuel) ==
            if !r.c.Normal? then r
            else if Read(scope3, Caught(k), r.st) == Flag(true) then Exec(Dispatch(k, clauses), scope3, yld, r.act, r.st, fuel)
            else Result(Normal, r.act, r.st)
  {
    hide Exec;
    var capture := PanicCapture(body, CatchRecovery(k), Recovered(k));
    var test := When(Caught(k), true, Dispatch(k, clauses));
    var scope1 := scope[Caught(k) := |st.cells|];
    var st1 := st.(cells := st.cells + [Flag(false)]);
    var scope2 := scope1[CaughtError(k) := |st1.cells|];
    var st2 := st1.(cells := st1.cells + [Data(Nil)]);
    var scope3 := CatchingScope(k, scope, st);
    var st3 := CatchingState(st);
    VarRuns(Caught(k), Flag(false), Var(CaughtError(k), Data(Nil), Var(ThrownOf(k), Held(None), Then(capture, test))), scope, yld, act, st, fuel);
    VarRuns(CaughtError(k), Data(Nil), Var(ThrownOf(k), Held(None), Then(capture, test)), scope1, yld, act, st1, fuel);
    VarRuns(ThrownOf(k), Held(None), Then(capture, test), scope2, yld, act, st2, fuel);
    var r := Exec(capture, scope3, yld, act, st3, fuel);
    ThenRuns(capture, test, scope3, yld, act, st3, fuel);
    WhenRuns(Caught(k), true, Dispatch(k, clauses), scope3, yld, r.act, r.st, fuel);
  }

  /** The scope and state a try body runs in when the try has catch clauses. */
  function TryScope(k: nat, scope: Scope, st: State): Scope {
    CaptureScope(Recovered(k), CatchingScope(k, scope, st), CatchingState(st))
  }

  function TryState(st: State): State {
    Declared(CatchingState(st))
  }

  /** What a capture with the recovery of a catching try leaves behind. */
  lemma CaptureCatches(k: nat, body: Code, scope: Scope, yld: YieldFunc, act: Activation, st: State, fuel: nat)
    requires var b := Exec(body, TryScope(k, scope, st), yld, Guard(Recovered(k), TryScope(k, scope, st)), TryState(st), fuel);
             Tame(Guard(Recovered(k), TryScope(k, scope, st)), TryState(st), b) && !b.c.Returning?
    ensures var scope3 := CatchingScope(k, scope, st);
            var b := Exec(body, TryScope(k, scope, st), yld, Guard(Recovered(k), TryScope(k, scope, st)), TryState(st), fuel);
            var q := Exec(PanicCapture(body, CatchRecovery(k), Recovered(k)), scope3, yld, act, CatchingState(st), fuel);
            Tame(act, st, q) && SameWorld(q.st, b.st) &&
            if b.c.Panicking? && IsException(Some(b.c.panic)) then
              && q.c == Normal && Holds(scope3, Caught(k), q.st, Flag(true))
              && Holds(scope3, CaughtError(k), q.st, Data(b.c.panic.p.err)) && Holds(scope3, ThrownOf(k), q.st, Held(Some(b.c.panic)))
            else
              && q.c == (if b.c.Panicking? then b.c else Captured(b.c))
              && (q.c.Normal? ==> Holds(scope3, Caught(k), q.st, Flag(false)))
  {
    hide Exec;
    var n := |st.cells|;
    var scope4, st3, st4 := TryScope(k, scope, st), CatchingState(st), TryState(st);
    var b := Exec(body, scope4, yld, Guard(Recovered(k), scope4), st4, fuel);
    PanicCaptureRuns(body, CatchRecovery(k), Recovered(k), CatchingScope(k, scope, st), yld, act, st3, fuel);
    var st5 := CapturedState(b.c, n + 3, n + 4, b.st);
    assert forall i :: 0 <= i < n + 3 ==> st5.cells[i] == st4.cells[i];
    assert forall i :: 0 <= i < n ==> st4.cells[i] == st.cells[i];
    assert st4.cells[n] == Flag(false);
    if b.c.Panicking? {
      CatchRecoveryRuns(k, Recovers(Some(b.c.panic)), scope4, yld, act, st5, fuel);
    }
  }

  /** A try with catch clauses, up to its dispatch. */
  lemma CatchingRuns(k: nat, body: Code, cs: S.Catches, rt: ResultType, scope: Scope, yld: YieldFunc, act: Activation, st: State, fuel: nat)
      returns (q: State)
    requires var b := Exec(body, TryScope(k, scope, st), yld, Guard(Recovered(k), TryScope(k, scope, st)), TryState(st), fuel);
             Tame(Guard(Recovered(k), TryScope(k, scope, st)), TryState(st), b) && !b.c.Returning?
    ensures var b := Exec(body, TryScope(k, scope, st), yld, Guard(Recovered(k), TryScope(k, scope, st)), TryState(st), fuel);
            var r := Exec(CatchingBody(k, body, LowerCatches(k, cs, rt)), scope, yld, act, st, fuel);
            SameWorld(q, b.st) && Keeps(st.cells, q.cells) &&
            if b.c.Panicking? && IsException(Some(b.c.panic)) then
              && |st.cells| + 2 < |q.cells|
              && q.cells[|st.cells| + 1] == Data(b.c.panic.p.err) && q.cells[|st.cells| + 2] == Held(Some(b.c.panic))
              && r == Exec(Dispatch(k, LowerCatches(k, cs, rt)), CatchingScope(k, scope, st), yld, act, q, fuel)
            else r == Result(if b.c.Panicking? then b.c else Captured(b.c), act, q)
  {
    hide Exec;
    CaptureCatches(k, body, scope, yld, act, st, fuel);
    CatchingUnfolds(k, body, LowerCatches(k, cs, rt), scope, yld, act, st, fuel);
    q := Exec(PanicCapture(body, CatchRecovery(k), Recovered(k)), CatchingScope(k, scope, st), yld, act, CatchingState(st), fuel).st;
  }

  // ----- finally -----

  /** `func() { defer func() { fin }(); body }()` */
  lemma FinallyRuns(fin: Code, body: Code, scope: Scope, yld: YieldFunc, act: Activation, st: State, fuel: nat)
    requires var own := Activation(Push(fin, scope, Bottom), None);
             var b := Exec(body, scope, yld, own, st, fuel);
             var inner := Activation(Bottom, PanicOf(b.c));
             b.act == own && Exec(fin, scope, yld, inner, b.st, fuel).act == inner
    ensures var b := Exec(body, scope, yld, Activation(Push(fin, scope, Bottom), None), st, fuel);
            var d := Exec(fin, scope, yld, Activation(Bottom, PanicOf(b.c)), b.st, fuel);
            Exec(Call(Then(Defer(fin), body)), scope, yld, act, st, fuel) ==
            if b.c.OutOfFuel? then Result(OutOfFuel, act, b.st)
            else Result(AfterCall(Unwound(b.c, false, d.c)), act, d.st)
  {
    var own := Activation(Push(fin, scope, Bottom), None);
    var b := Exec(body, scope, yld, own, st, fuel);
    var d := Exec(fin, scope, yld, Activation(Bottom, PanicOf(b.c)), b.st, fuel);
    var all := Then(Defer(fin), body);
    ThenRuns(Defer(fin), body, scope, yld, Activation(Bottom, None), st, fuel);
    DeferRuns(fin, scope, yld, Activation(Bottom, None), st, fuel);
    CallRuns(all, scope, yld, act, st, fuel);
    if !b.c.OutOfFuel? {
      assert Invoke(fin, scope, yld, PanicOf(b.c), b.st, fuel) == Called(d.c, false, d.st);
      assert RunDeferred(b.act.deferred, Size(all), yld, b.c, b.st, fuel)
          == RunDeferred(Bottom, Size(all), yld, Unwound(b.c, false, d.c), d.st, fuel);
    }
  }

  /** A function literal without deferred calls. */
  lemma PlainCallRuns(body: Code, scope: Scope, yld: YieldFunc, act: Activation, st: State, fuel: nat)
    requires Exec(body, scope, yld, Activation(Bottom, None), st, fuel).act == Activation(Bottom, None)
    ensures var b := Exec(body, scope, yld, Activation(Bottom, None), st, fuel);
            Exec(Call(body), scope, yld, act, st, fuel) == Result(AfterCall(b.c), act, b.st)
  {
    CallRuns(body, scope, yld, act, st, fuel);
  }

  lemma CallRuns(body: Code, scope: Scope, yld: YieldFunc, act: Activation, st: State, fuel: nat)
    ensures var b := Exec(body, scope, yld, Activation(Bottom, None), st, fuel);
            var u := RunDeferred(b.act.deferred, Size(body), yld, b.c, b.st, fuel);
            Exec(Call(body), scope, yld, act, st, fuel) == Result(AfterCall(u.c), act, u.st)
  {
    var r := Invoke(body, scope, yld, None, st, fuel);
    assert Calling(Call(body), scope, yld, st, fuel) == Stepped(AfterCall(r.c), r.st);
    assert Exec(Call(body), scope, yld, act, st, fuel) == Result(AfterCall(r.c), act, r.st);
  }

  lemma DeferRuns(body: Code, scope: Scope, yld: YieldFunc, act: Activation, st: State, fuel: nat)
    ensures Exec(Defer(body), scope, yld, act, st, fuel) == Result(Normal, act.(deferred := Push(body, scope, act.deferred)), st)
  {
  }

  // ----- the return boundary -----

  function BoundaryScope(k: nat, scope: Scope, st: State): Scope {
    scope[Leaving(k) := |st.cells|][Control(k) := |st.cells| + 1]
  }

  function BoundaryState(st: State): State {
    st.(cells := st.cells + [Flag(false)] + [Held(None)])
  }

  /** The scope and state the outermost try runs in. */
  function OutermostScope(k: nat, scope: Scope, st: State): Scope {
    CaptureScope(ReturnRecovered(k), BoundaryScope(k, scope, st), BoundaryState(st))
  }

  function OutermostState(st: State): State {
    Declared(BoundaryState(st))
  }

  /** What the return boundary makes of the completion of the try inside it. */
  function Bounded(rt: ResultType, c: Completion): Completion {
    if c.Panicking? then
      if c.panic.PReturn? then Returning(ControlResults(rt, c.panic.payload)) else c
    else Captured(c)
  }

  lemma BoundaryRuns(k: nat, rt: ResultType, body: Code, scope: Scope, yld: YieldFunc, act: Activation, st: State, fuel: nat)
    requires var b := Exec(body, OutermostScope(k, scope, st), yld, Guard(ReturnRecovered(k), OutermostScope(k, scope, st)), OutermostState(st), fuel);
             Tame(Guard(ReturnRecovered(k), OutermostScope(k, scope, st)), OutermostState(st), b) && !b.c.Returning?
    ensures var b := Exec(body, OutermostScope(k, scope, st), yld, Guard(ReturnRecovered(k), OutermostScope(k, scope, st)), OutermostState(st), fuel);
            var q := Exec(ReturnBoundary(k, rt, body), scope, yld, act, st, fuel);
            Tame(act, st, q) && SameWorld(q.st, b.st) && q.c == Bounded(rt, b.c)
  {
    hide Exec;
    var capture := PanicCapture(body, ReturnRecovery(k), ReturnRecovered(k));
    var test := When(Leaving(k), true, Do(ControlReturn(rt, Control(k))));
    var scope1 := scope[Leaving(k) := |st.cells|];
    var st1 := st.(cells := st.cells + [Flag(false)]);
    var scope2, st2 := BoundaryScope(k, scope, st), BoundaryState(st);
    VarRuns(Leaving(k), Flag(false), Var(Control(k), Held(None), Then(capture, test)), scope, yld, act, st, fuel);
    VarRuns(Control(k), Held(None), Then(capture, test), scope1, yld, act, st1, fuel);
    var r := Exec(capture, scope2, yld, act, st2, fuel);
    ThenRuns(capture, test, scope2, yld, act, st2, fuel);
    BoundaryCapture(k, body, scope, yld, act, st, fuel);
    WhenRuns(Leaving(k), true, Do(ControlReturn(rt, Control(k))), scope2, yld, r.act, r.st, fuel);
    DoRuns(ControlReturn(rt, Control(k)), scope2, yld, r.act, r.st, fuel);
  }

  lemma BoundaryCapture(k: nat, body: Code, scope: Scope, yld: YieldFunc, act: Activation, st: State, fuel: nat)
    requires var b := Exec(body, OutermostScope(k, scope, st), yld, Guard(ReturnRecovered(k), OutermostScope(k, scope, st)), OutermostState(st), fuel);
             Tame(Guard(ReturnRecovered(k), OutermostScope(k, scope, st)), OutermostState(st), b) && !b.c.Returning?
    ensures var b := Exec(body, OutermostScope(k, scope, st), yld, Guard(ReturnRecovered(k), OutermostScope(k, scope, st)), OutermostState(st), fuel);
            var scope2 := BoundaryScope(k, scope, st);
            var q := Exec(PanicCapture(body, ReturnRecovery(k), ReturnRecovered(k)), scope2, yld, act, BoundaryState(st), fuel);
            Tame(act, st, q) && SameWorld(q.st, b.st) &&
            if b.c.Panicking? && b.c.panic.PReturn? then
              q.c == Normal && Holds(scope2, Leaving(k), q.st, Flag(true)) && Holds(scope2, Control(k), q.st, Held(Some(b.c.panic)))
            else
              q.c == (if b.c.Panicking? then b.c else Captured(b.c)) && (q.c.Normal? ==> Holds(scope2, Leaving(k), q.st, Flag(false)))
  {
    hide Exec;
    var n := |st.cells|;
    var scope4, st2, st4 := OutermostScope(k, scope, st), BoundaryState(st), OutermostState(st);
    var b := Exec(body, scope4, yld, Guard(ReturnRecovered(k), scope4), st4, fuel);
    PanicCaptureRuns(body, ReturnRecovery(k), ReturnRecovered(k), BoundaryScope(k, scope, st), yld, act, st2, fuel);
    var st5 := CapturedState(b.c, n + 2, n + 3, b.st);
    assert forall i :: 0 <= i < n + 2 ==> st5.cells[i] == st4.cells[i];
    assert forall i :: 0 <= i < n ==> st4.cells[i] == st.cells[i];
    assert st4.cells[n] == Flag(false);
    if b.c.Panicking? {
      ReturnRecoveryRuns(k, Recovers(Some(b.c.panic)), scope4, yld, act, st5, fuel);
    }
  }
}
