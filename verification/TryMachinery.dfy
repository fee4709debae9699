/** What the generated fragments do on the Go side, whatever code they protect. */
module TryMachinery {
  import opened Completions
  import opened Returns
  import S = ExceptionSource
  import opened GoMachine
  import opened TryLowering

  /** Every cell that existed before still holds what it held. */
  predicate Keeps(old_: seq<Cell>, new_: seq<Cell>) {
    |old_| <= |new_| && forall i :: 0 <= i < |old_| ==> new_[i] == old_[i]
  }

  /** `name` denotes an allocated cell holding `v`. */
  predicate Holds(scope: Scope, name: Temp, st: State, v: Cell) {
    name in scope && scope[name] < |st.cells| && st.cells[scope[name]] == v
  }

  /** The state apart from its cells. */
  predicate SameWorld(a: State, b: State) {
    a.store == b.store && a.ranges == b.ranges && a.frames == b.frames
  }

  /** What a function literal that recovers does to the completion of its body. */
  function Captured(c: Completion): Completion {
    match c
    case Panicking(_) => Normal
    case Exiting(_) => Exiting(None)
    case Returning(_) => Normal
    case _ => c
  }

  /** The cells after it: the completed flag only after a normal end, the recovered value always. */
  function CapturedState(c: Completion, recovered: nat, completed: nat, st: State): State
    requires recovered < |st.cells| && completed < |st.cells|
  {
    if c.OutOfFuel? then st else
    var cells := if c.Normal? then st.cells[completed := Flag(true)] else st.cells;
    st.(cells := cells[recovered := Held(Recovers(PanicOf(c)))])
  }

  function Guard(recovered: Temp, scope: Scope): Activation {
    Activation(Push(Recover(recovered), scope, Bottom), None)
  }

  lemma ThenRuns(a: Code, b: Code, scope: Scope, yld: YieldFunc, act: Activation, st: State, fuel: nat)
    ensures var r := Exec(a, scope, yld, act, st, fuel);
            Exec(Then(a, b), scope, yld, act, st, fuel) ==
            if r.c.Normal? then Exec(b, scope, yld, r.act, r.st, fuel) else r
  {
  }

  lemma DoRuns(op: Op, scope: Scope, yld: YieldFunc, act: Activation, st: State, fuel: nat)
    ensures var r := Step(op, scope, st); Exec(Do(op), scope, yld, act, st, fuel) == Result(r.c, act, r.st)
  {
  }

  lemma ProtectedRuns(body: Code, recovered: Temp, scope: Scope, yld: YieldFunc, st: State, fuel: nat)
    requires recovered in scope && Completed(recovered) in scope
    requires var r := Exec(body, scope, yld, Guard(recovered, scope), st, fuel);
             r.act == Guard(recovered, scope) && scope[recovered] < |r.st.cells| && scope[Completed(recovered)] < |r.st.cells|
    ensures var r := Exec(body, scope, yld, Guard(recovered, scope), st, fuel);
            var q := Exec(Protected(body, recovered), scope, yld, Activation(Bottom, None), st, fuel);
            q.c == r.c && q.act == Guard(recovered, scope) &&
            q.st == if r.c.Normal? then r.st.(cells := r.st.cells[scope[Completed(recovered)] := Flag(true)]) else r.st
  {
    var act := Activation(Bottom, None);
    var mark := Assign(Completed(recovered), Flag(true));
    var rest := Then(body, Do(mark));
    var r := Exec(body, scope, yld, Guard(recovered, scope), st, fuel);
    ThenRuns(body, Do(mark), scope, yld, Guard(recovered, scope), st, fuel);
    DoRuns(mark, scope, yld, r.act, r.st, fuel);
    ThenRuns(Defer(Recover(recovered)), rest, scope, yld, act, st, fuel);
    assert Exec(Defer(Recover(recovered)), scope, yld, act, st, fuel) == Result(Normal, Guard(recovered, scope), st);
  }

  lemma RecoverRuns(recovered: Temp, scope: Scope, yld: YieldFunc, pending: Completion, st: State, fuel: nat)
    requires recovered in scope && scope[recovered] < |st.cells| && !pending.OutOfFuel?
    ensures var q := Invoke(Recover(recovered), scope, yld, PanicOf(pending), st, fuel);
            q.c == Normal && q.recovered == PanicOf(pending).Some? &&
            q.st == st.(cells := st.cells[scope[recovered] := Held(Recovers(PanicOf(pending)))])
  {
    var panic := PanicOf(pending);
    var r := Exec(Recover(recovered), scope, yld, Activation(Bottom, panic), st, fuel);
    assert r == Result(Normal, Activation(Bottom, None), Write(scope, recovered, Held(Recovers(panic)), st));
    assert RunDeferred(Bottom, Size(Recover(recovered)), yld, r.c, r.st, fuel) == Stepped(r.c, r.st);
  }

  /** `func() { defer func() { r = recover() }(); body; completed = true }()` */
  lemma CaptureRuns(body: Code, recovered: Temp, scope: Scope, yld: YieldFunc, act: Activation, st: State, fuel: nat)
    requires recovered in scope && Completed(recovered) in scope
    requires var r := Exec(body, scope, yld, Guard(recovered, scope), st, fuel);
             r.act == Guard(recovered, scope) && scope[recovered] < |r.st.cells| && scope[Completed(recovered)] < |r.st.cells|
    ensures var r := Exec(body, scope, yld, Guard(recovered, scope), st, fuel);
            Exec(Call(Protected(body, recovered)), scope, yld, act, st, fuel) ==
            Result(Captured(r.c), act, CapturedState(r.c, scope[recovered], scope[Completed(recovered)], r.st))
  {
    ProtectedRuns(body, recovered, scope, yld, st, fuel);
    var r := Exec(body, scope, yld, Guard(recovered, scope), st, fuel);
    var p := Protected(body, recovered);
    var q := Exec(p, scope, yld, Activation(Bottom, None), st, fuel);
    var u := RunDeferred(q.act.deferred, Size(p), yld, q.c, q.st, fuel);
    assert Invoke(p, scope, yld, None, st, fuel) == Called(u.c, false, u.st);
    assert Exec(Call(p), scope, yld, act, st, fuel) == Result(AfterCall(u.c), act, u.st);
    if !q.c.OutOfFuel? {
      RecoverRuns(recovered, scope, yld, q.c, q.st, fuel);
      var d := Invoke(Recover(recovered), scope, yld, PanicOf(q.c), q.st, fuel);
      assert u == RunDeferred(Bottom, Size(p), yld, Unwound(q.c, d.recovered, d.c), d.st, fuel);
    }
  }

  lemma VarRuns(name: Temp, init: Cell, body: Code, scope: Scope, yld: YieldFunc, act: Activation, st: State, fuel: nat)
    ensures Exec(Var(name, init, body), scope, yld, act, st, fuel) ==
            Exec(body, scope[name := |st.cells|], yld, act, st.(cells := st.cells + [init]), fuel)
  {
  }

  /** A captured body, then one step when nothing but a panic came out of it. */
  lemma CaptureThenRuns(body: Code, recovered: Temp, op: Op, scope: Scope, yld: YieldFunc, act: Activation, st: State, fuel: nat)
    requires recovered in scope && Completed(recovered) in scope
    requires var r := Exec(body, scope, yld, Guard(recovered, scope), st, fuel);
             r.act == Guard(recovered, scope) && scope[recovered] < |r.st.cells| && scope[Completed(recovered)] < |r.st.cells|
    ensures var r := Exec(body, scope, yld, Guard(recovered, scope), st, fuel);
            var st1 := CapturedState(r.c, scope[recovered], scope[Completed(recovered)], r.st);
            Exec(Then(Call(Protected(body, recovered)), Do(op)), scope, yld, act, st, fuel) ==
            if Captured(r.c).Normal? then Result(Step(op, scope, st1).c, act, Step(op, scope, st1).st)
            else Result(Captured(r.c), act, st1)
  {
    hide Exec, Step;
    var r := Exec(body, scope, yld, Guard(recovered, scope), st, fuel);
    var st1 := CapturedState(r.c, scope[recovered], scope[Completed(recovered)], r.st);
    CaptureRuns(body, recovered, scope, yld, act, st, fuel);
    ThenRuns(Call(Protected(body, recovered)), Do(op), scope, yld, act, st, fuel);
    DoRuns(op, scope, yld, act, st1, fuel);
  }

  lemma WhenRuns(name: Temp, expected: bool, body: Code, scope: Scope, yld: YieldFunc, act: Activation, st: State, fuel: nat)
    ensures Exec(When(name, expected, body), scope, yld, act, st, fuel) ==
            if Read(scope, name, st) == Flag(expected) then Exec(body, scope, yld, act, st, fuel)
            else Result(Normal, act, st)
  {
  }

  lemma LoopRuns(test: Store -> Choice, body: Code, scope: Scope, yld: YieldFunc, act: Activation, st: State, fuel: nat)
    ensures var t := test(st.store);
            var st1 := st.(store := t.store);
            Exec(Loop(test, body), scope, yld, act, st, fuel) ==
            if fuel == 0 then Result(OutOfFuel, act, st)
            else if !t.outcome.Done? then Result(After(t.outcome), act, st1)
            else if !t.taken then Result(Normal, act, st1)
            else
              var r := Exec(body, scope, yld, act, st1, fuel - 1);
              if r.c.Normal? || r.c.Continuing? then Exec(Loop(test, body), scope, yld, r.act, r.st, fuel - 1)
              else if r.c.Breaking? then Result(Normal, r.act, r.st)
              else r
  {
  }

  lemma BranchRuns(test: Store -> Choice, a: Code, b: Code, scope: Scope, yld: YieldFunc, act: Activation, st: State, fuel: nat)
    ensures var t := test(st.store);
            var st1 := st.(store := t.store);
            Exec(Branch(test, a, b), scope, yld, act, st, fuel) ==
            if !t.outcome.Done? then Result(After(t.outcome), act, st1)
            else Exec(if t.taken then a else b, scope, yld, act, st1, fuel)
  {
  }

  /** A capture runs its handler exactly when the body panicked, whatever it panicked with. */
  lemma PanicCaptureRuns(body: Code, handler: Code, recovered: Temp, scope: Scope, yld: YieldFunc, act: Activation, st: State, fuel: nat)
    requires var n := |st.cells|;
             var scope1 := scope[recovered := n][Completed(recovered) := n + 1];
             var st1 := st.(cells := st.cells + [Held(None)] + [Flag(false)]);
             var r := Exec(body, scope1, yld, Guard(recovered, scope1), st1, fuel);
             r.act == Guard(recovered, scope1) && Keeps(st1.cells, r.st.cells) && !r.c.Returning?
    ensures var n := |st.cells|;
            var scope1 := scope[recovered := n][Completed(recovered) := n + 1];
            var st1 := st.(cells := st.cells + [Held(None)] + [Flag(false)]);
            var r := Exec(body, scope1, yld, Guard(recovered, scope1), st1, fuel);
            Exec(PanicCapture(body, handler, recovered), scope, yld, act, st, fuel) ==
            if r.c.Panicking? then
              Exec(handler, scope1, yld, act, CapturedState(r.c, n, n + 1, r.st), fuel)
            else Result(Captured(r.c), act, CapturedState(r.c, n, n + 1, r.st))
  {
    var n := |st.cells|;
    var scope0 := scope[recovered := n];
    var scope1 := scope0[Completed(recovered) := n + 1];
    var st0 := st.(cells := st.cells + [Held(None)]);
    var st1 := st0.(cells := st0.cells + [Flag(false)]);
    var r := Exec(body, scope1, yld, Guard(recovered, scope1), st1, fuel);
    var call := Call(Protected(body, recovered));
    var test := When(Completed(recovered), false, handler);
    VarRuns(recovered, Held(None), Var(Completed(recovered), Flag(false), Then(call, test)), scope, yld, act, st, fuel);
    VarRuns(Completed(recovered), Flag(false), Then(call, test), scope0, yld, act, st0, fuel);
    CaptureRuns(body, recovered, scope1, yld, act, st1, fuel);
    ThenRuns(call, test, scope1, yld, act, st1, fuel);
    var st2 := CapturedState(r.c, n, n + 1, r.st);
    WhenRuns(Completed(recovered), false, handler, scope1, yld, act, st2, fuel);
    assert st1.cells[n + 1] == Flag(false);
  }

  lemma AlsoSteps(a: Op, b: Op, scope: Scope, st: State)
    ensures var r := Step(a, scope, st);
            Step(Also(a, b), scope, st) == if r.c.Normal? then Step(b, scope, r.st) else r
  {
  }

  /** Two declarations in front of a simple statement. */
  lemma DeclareRuns(x: Temp, y: Temp, op: Op, scope: Scope, yld: YieldFunc, act: Activation, st: State, fuel: nat)
    ensures var r := Step(op, scope[x := |st.cells|][y := |st.cells| + 1], Declared(st));
            Exec(Var(x, Held(None), Var(y, Flag(false), Do(op))), scope, yld, act, st, fuel) == Result(r.c, act, r.st)
  {
    hide Exec;
    var scope1 := scope[x := |st.cells|];
    var st1 := st.(cells := st.cells + [Held(None)]);
    VarRuns(x, Held(None), Var(y, Flag(false), Do(op)), scope, yld, act, st, fuel);
    VarRuns(y, Flag(false), Do(op), scope1, yld, act, st1, fuel);
    DoRuns(op, scope1[y := |st.cells| + 1], yld, act, Declared(st), fuel);
  }

  function Declared(st: State): State {
    st.(cells := st.cells + [Held(None)] + [Flag(false)])
  }

  /** The recovery of a catching try keeps an exception for dispatch and re-panics anything else. */
  lemma CatchRecoveryRuns(k: nat, held: Option<PanicValue>, scope: Scope, yld: YieldFunc, act: Activation, st: State, fuel: nat)
    requires Holds(scope, Recovered(k), st, Held(held))
    requires ThrownOf(k) in scope && Caught(k) in scope && CaughtError(k) in scope
    requires scope[Caught(k)] < scope[CaughtError(k)] < scope[ThrownOf(k)] < |st.cells|
    ensures var q := Exec(CatchRecovery(k), scope, yld, act, st, fuel);
            q.act == act && SameWorld(q.st, st) &&
            if IsException(held) then
              && q.c == Normal
              && |st.cells| <= |q.st.cells|
              && Holds(scope, ThrownOf(k), q.st, Held(held)) && Holds(scope, Caught(k), q.st, Flag(true))
              && Holds(scope, CaughtError(k), q.st, Data(held.value.p.err))
              && forall i :: 0 <= i < scope[Caught(k)] ==> q.st.cells[i] == st.cells[i]
            else q.c == Raise(held) && Keeps(st.cells, q.st.cells)
  {
    hide Exec;
    DeclareRuns(Candidate(k), CandidateOk(k), KeepException(k), scope, yld, act, st, fuel);
    KeepsException(k, held, scope, st);
  }

  lemma KeepsException(k: nat, held: Option<PanicValue>, scope: Scope, st: State)
    requires Holds(scope, Recovered(k), st, Held(held))
    requires ThrownOf(k) in scope && Caught(k) in scope && CaughtError(k) in scope
    requires scope[Caught(k)] < scope[CaughtError(k)] < scope[ThrownOf(k)] < |st.cells|
    ensures var q := Step(KeepException(k), scope[Candidate(k) := |st.cells|][CandidateOk(k) := |st.cells| + 1], Declared(st));
            SameWorld(q.st, st) &&
            if IsException(held) then
              && q.c == Normal
              && |st.cells| <= |q.st.cells|
              && Holds(scope, ThrownOf(k), q.st, Held(held)) && Holds(scope, Caught(k), q.st, Flag(true))
              && Holds(scope, CaughtError(k), q.st, Data(held.value.p.err))
              && forall i :: 0 <= i < scope[Caught(k)] ==> q.st.cells[i] == st.cells[i]
            else q.c == Raise(held) && Keeps(st.cells, q.st.cells)
  {
    var scope1 := scope[Candidate(k) := |st.cells|][CandidateOk(k) := |st.cells| + 1];
    var st1 := Declared(st);
    var cast := AsException(Candidate(k), CandidateOk(k), Recovered(k));
    var check := PanicUnless(CandidateOk(k), Recovered(k));
    var keep := Also(Copy(ThrownOf(k), Candidate(k)), Also(Assign(Caught(k), Flag(true)), ErrorOf(CaughtError(k), Candidate(k))));
    assert Read(scope1, Recovered(k), st1) == Held(held);
    var st2 := Step(cast, scope1, st1).st;
    assert st2 == st.(cells := st.cells + [Held(if IsException(held) then held else None)] + [Flag(IsException(held))]);
    assert Step(check, scope1, st2) == Stepped(if IsException(held) then Normal else Raise(held), st2);
    AlsoSteps(cast, Also(check, keep), scope1, st1);
    AlsoSteps(check, keep, scope1, st2);
    if IsException(held) { KeepSteps(k, held, scope1, st2); }
  }

  /** thrown = candidate; caught = true; error = candidate.KinmokuseiExceptionError() */
  lemma KeepSteps(k: nat, held: Option<PanicValue>, scope: Scope, st: State)
    requires IsException(held) && Holds(scope, Candidate(k), st, Held(held))
    requires ThrownOf(k) in scope && Caught(k) in scope && CaughtError(k) in scope
    requires scope[Caught(k)] < scope[CaughtError(k)] < scope[ThrownOf(k)] < scope[Candidate(k)]
    ensures Step(Also(Copy(ThrownOf(k), Candidate(k)), Also(Assign(Caught(k), Flag(true)), ErrorOf(CaughtError(k), Candidate(k)))), scope, st)
         == Stepped(Normal, st.(cells := st.cells[scope[ThrownOf(k)] := Held(held)][scope[Caught(k)] := Flag(true)][scope[CaughtError(k)] := Data(held.value.p.err)]))
  {
    var copy, mark, error := Copy(ThrownOf(k), Candidate(k)), Assign(Caught(k), Flag(true)), ErrorOf(CaughtError(k), Candidate(k));
    var st3 := st.(cells := st.cells[scope[ThrownOf(k)] := Held(held)]);
    var st4 := st3.(cells := st3.cells[scope[Caught(k)] := Flag(true)]);
    assert Step(copy, scope, st) == Stepped(Normal, st3);
    assert Step(mark, scope, st3) == Stepped(Normal, st4);
    AlsoSteps(copy, Also(mark, error), scope, st);
    AlsoSteps(mark, error, scope, st3);
  }

  /** The outermost try keeps a return control and re-panics anything else. */
  lemma ReturnRecoveryRuns(k: nat, held: Option<PanicValue>, scope: Scope, yld: YieldFunc, act: Activation, st: State, fuel: nat)
    requires Holds(scope, ReturnRecovered(k), st, Held(held))
    requires Leaving(k) in scope && Control(k) in scope && scope[Leaving(k)] < scope[Control(k)] < |st.cells|
    ensures var q := Exec(ReturnRecovery(k), scope, yld, act, st, fuel);
            q.act == act && SameWorld(q.st, st) &&
            if IsReturn(held) then
              && q.c == Normal
              && |st.cells| <= |q.st.cells|
              && Holds(scope, Control(k), q.st, Held(held)) && Holds(scope, Leaving(k), q.st, Flag(true))
              && forall i :: 0 <= i < scope[Leaving(k)] ==> q.st.cells[i] == st.cells[i]
            else q.c == Raise(held) && Keeps(st.cells, q.st.cells)
  {
    hide Exec;
    DeclareRuns(ReturnCandidate(k), ReturnOk'(k), KeepReturn(k), scope, yld, act, st, fuel);
    KeepsReturn(k, held, scope, st);
  }

  lemma KeepsReturn(k: nat, held: Option<PanicValue>, scope: Scope, st: State)
    requires Holds(scope, ReturnRecovered(k), st, Held(held))
    requires Leaving(k) in scope && Control(k) in scope && scope[Leaving(k)] < scope[Control(k)] < |st.cells|
    ensures var q := Step(KeepReturn(k), scope[ReturnCandidate(k) := |st.cells|][ReturnOk'(k) := |st.cells| + 1], Declared(st));
            SameWorld(q.st, st) &&
            if IsReturn(held) then
              && q.c == Normal
              && |st.cells| <= |q.st.cells|
              && Holds(scope, Control(k), q.st, Held(held)) && Holds(scope, Leaving(k), q.st, Flag(true))
              && forall i :: 0 <= i < scope[Leaving(k)] ==> q.st.cells[i] == st.cells[i]
            else q.c == Raise(held) && Keeps(st.cells, q.st.cells)
  {
    var scope1 := scope[ReturnCandidate(k) := |st.cells|][ReturnOk'(k) := |st.cells| + 1];
    var st1 := Declared(st);
    var cast := AsReturn(ReturnCandidate(k), ReturnOk'(k), ReturnRecovered(k));
    var check := PanicUnless(ReturnOk'(k), ReturnRecovered(k));
    var copy, mark := Copy(Control(k), ReturnCandidate(k)), Assign(Leaving(k), Flag(true));
    assert Read(scope1, ReturnRecovered(k), st1) == Held(held);
    var st2 := Step(cast, scope1, st1).st;
    assert st2 == st.(cells := st.cells + [Held(if IsReturn(held) then held else None)] + [Flag(IsReturn(held))]);
    assert Step(check, scope1, st2) == Stepped(if IsReturn(held) then Normal else Raise(held), st2);
    AlsoSteps(cast, Also(check, Also(copy, mark)), scope1, st1);
    AlsoSteps(check, Also(copy, mark), scope1, st2);
    AlsoSteps(copy, mark, scope1, st2);
  }

  // ----- dispatch -----

  /** Once a clause has run, the remaining ones are skipped. */
  lemma {:induction false} HandledSkips(k: nat, cs: S.Catches, rt: ResultType, scope: Scope, yld: YieldFunc, act: Activation, st: State, fuel: nat)
    requires Holds(scope, Handled(k), st, Flag(true))
    ensures Exec(LowerCatches(k, cs, rt), scope, yld, act, st, fuel) == Result(Normal, act, st)
    decreases cs
  {
    hide Exec;
    match cs
    case NoCatch => NopRuns(scope, yld, act, st, fuel);
    case MoreCatch(c, others) =>
      var code := LowerCatch(k, c.sort, c.bind, Lower(c.body, true, rt));
      HandledSkipsOne(k, c.sort, c.bind, Lower(c.body, true, rt), scope, yld, act, st, fuel);
      ThenRuns(code, LowerCatches(k, others, rt), scope, yld, act, st, fuel);
      HandledSkips(k, others, rt, scope, yld, act, st, fuel);
  }

  lemma NopRuns(scope: Scope, yld: YieldFunc, act: Activation, st: State, fuel: nat)
    ensures Exec(Nop, scope, yld, act, st, fuel) == Result(Normal, act, st)
  {
  }

  lemma WhenErrorRuns(name: Temp, accepts: Value -> bool, body: Code, scope: Scope, yld: YieldFunc, act: Activation, st: State, fuel: nat)
    ensures Exec(WhenError(name, accepts, body), scope, yld, act, st, fuel) ==
            if accepts(AsData(Read(scope, name, st))) then Exec(body, scope, yld, act, st, fuel)
            else Result(Normal, act, st)
  {
  }

  lemma HandledSkipsOne(k: nat, sort: S.CatchSort, bind: (Value, Store) -> Store, body: Code,
                        scope: Scope, yld: YieldFunc, act: Activation, st: State, fuel: nat)
    requires Holds(scope, Handled(k), st, Flag(true))
    ensures Exec(LowerCatch(k, sort, bind, body), scope, yld, act, st, fuel) == Result(Normal, act, st)
  {
    hide Exec;
    match sort
    case CatchError => WhenRuns(Handled(k), false, HandlerBody(k, v => v, bind, body), scope, yld, act, st, fuel);
    case CatchType(accepts) =>
      WhenRuns(Handled(k), false, WhenError(CaughtError(k), accepts, HandlerBody(k, v => v, bind, body)), scope, yld, act, st, fuel);
    case CatchClass(name, matching) =>
      var fallback := When(Handled(k), false, HandlerBody(k, S.FromError, bind, body));
      HandledSkipsMatches(k, name, matching, bind, body, scope, yld, act, st, fuel);
      ThenRuns(LowerMatches(k, name, matching, bind, body), if name == "Exception" then fallback else Nop, scope, yld, act, st, fuel);
      WhenRuns(Handled(k), false, HandlerBody(k, S.FromError, bind, body), scope, yld, act, st, fuel);
      NopRuns(scope, yld, act, st, fuel);
  }

  lemma {:induction false} HandledSkipsMatches(k: nat, name: string, matching: seq<string>, bind: (Value, Store) -> Store, body: Code,
                            scope: Scope, yld: YieldFunc, act: Activation, st: State, fuel: nat)
    requires Holds(scope, Handled(k), st, Flag(true))
    ensures Exec(LowerMatches(k, name, matching, bind, body), scope, yld, act, st, fuel) == Result(Normal, act, st)
    decreases matching
  {
    hide Exec;
    if matching == [] {
      NopRuns(scope, yld, act, st, fuel);
    } else {
      var view := if matching[0] == name then (v: Value) => v else (v: Value) => Upcast(name, v);
      var test := WhenError(CaughtError(k), IsClass(matching[0]), HandlerBody(k, view, bind, body));
      WhenRuns(Handled(k), false, test, scope, yld, act, st, fuel);
      HandledSkipsMatches(k, name, matching[1..], bind, body, scope, yld, act, st, fuel);
      ThenRuns(When(Handled(k), false, test), LowerMatches(k, name, matching[1..], bind, body), scope, yld, act, st, fuel);
    }
  }

  /** The state in which a chosen clause runs its body. */
  function HandlerEntry(k: nat, bind: (Value, Store) -> Store, value: Value, scope: Scope, st: State): State {
    Write(scope, Handled(k), Flag(true), st.(store := bind(value, st.store)))
  }

  /** A clause body leaves its own function's activation and its `handled` flag alone. */
  ghost predicate Settles(k: nat, scope: Scope, act: Activation, r: Result) {
    r.act == act && (r.c.Normal? ==> Holds(scope, Handled(k), r.st, Flag(true)))
  }

  predicate Dispatching(k: nat, err: Value, scope: Scope, st: State) {
    && Holds(scope, Handled(k), st, Flag(false)) && Holds(scope, CaughtError(k), st, Data(err))
    && scope[Handled(k)] != scope[CaughtError(k)]
  }

  lemma HandlerRuns(k: nat, view: Value -> Value, bind: (Value, Store) -> Store, body: Code, err: Value,
                    scope: Scope, yld: YieldFunc, act: Activation, st: State, fuel: nat)
    requires Dispatching(k, err, scope, st)
    ensures Exec(HandlerBody(k, view, bind, body), scope, yld, act, st, fuel) ==
            Exec(body, scope, yld, act, HandlerEntry(k, bind, view(err), scope, st), fuel)
  {
    hide Exec;
    var b, m := BindError(CaughtError(k), view, bind), Assign(Handled(k), Flag(true));
    AlsoSteps(b, m, scope, st);
    DoRuns(Also(b, m), scope, yld, act, st, fuel);
    ThenRuns(Do(Also(b, m)), body, scope, yld, act, st, fuel);
  }

  lemma MatchRuns(k: nat, cls: string, view: Value -> Value, bind: (Value, Store) -> Store, body: Code, err: Value,
                  scope: Scope, yld: YieldFunc, act: Activation, st: State, fuel: nat)
    requires Dispatching(k, err, scope, st)
    ensures Exec(When(Handled(k), false, WhenError(CaughtError(k), IsClass(cls), HandlerBody(k, view, bind, body))), scope, yld, act, st, fuel) ==
      if err.Instance? && err.cls == cls then Exec(body, scope, yld, act, HandlerEntry(k, bind, view(err), scope, st), fuel)
      else Result(Normal, act, st)
  {
    hide Exec;
    var handler := HandlerBody(k, view, bind, body);
    WhenRuns(Handled(k), false, WhenError(CaughtError(k), IsClass(cls), handler), scope, yld, act, st, fuel);
    WhenErrorRuns(CaughtError(k), IsClass(cls), handler, scope, yld, act, st, fuel);
    HandlerRuns(k, view, bind, body, err, scope, yld, act, st, fuel);
  }

  /** The clause bodies for the listed classes: exactly one of them runs, for the error's own class. */
  lemma {:induction false} MatchesRun(k: nat, name: string, matching: seq<string>, bind: (Value, Store) -> Store, body: Code, err: Value, r: Result,
                                      scope: Scope, yld: YieldFunc, act: Activation, st: State, fuel: nat)
    requires Dispatching(k, err, scope, st) && err.Instance? && Settles(k, scope, act, r)
    requires r == Exec(body, scope, yld, act, HandlerEntry(k, bind, ClassView(name, err), scope, st), fuel)
    ensures Exec(LowerMatches(k, name, matching, bind, body), scope, yld, act, st, fuel) ==
            if err.cls in matching then r else Result(Normal, act, st)
    decreases matching
  {
    hide Exec, LowerMatches, ClassView, HandlerEntry;
    if matching == [] {
      NoMatchRuns(k, name, bind, body, scope, yld, act, st, fuel);
    } else {
      FirstMatchRuns(k, name, matching, bind, body, err, scope, yld, act, st, fuel);
      if err.cls == matching[0] {
        if r.c.Normal? { HandledSkipsMatches(k, name, matching[1..], bind, body, scope, yld, act, r.st, fuel); }
      } else {
        assert matching == [matching[0]] + matching[1..];
        MatchesRun(k, name, matching[1..], bind, body, err, r, scope, yld, act, st, fuel);
      }
    }
  }

  lemma NoMatchRuns(k: nat, name: string, bind: (Value, Store) -> Store, body: Code, scope: Scope, yld: YieldFunc, act: Activation, st: State, fuel: nat)
    ensures Exec(LowerMatches(k, name, [], bind, body), scope, yld, act, st, fuel) == Result(Normal, act, st)
  {
    hide Exec;
    NopRuns(scope, yld, act, st, fuel);
  }

  /** The test for the first class, and the rest of the chain after it. */
  lemma FirstMatchRuns(k: nat, name: string, matching: seq<string>, bind: (Value, Store) -> Store, body: Code, err: Value,
                       scope: Scope, yld: YieldFunc, act: Activation, st: State, fuel: nat)
    requires matching != [] && Dispatching(k, err, scope, st)
    ensures var rest := LowerMatches(k, name, matching[1..], bind, body);
            var r := if err.Instance? && err.cls == matching[0] then Exec(body, scope, yld, act, HandlerEntry(k, bind, ClassView(name, err), scope, st), fuel)
                     else Result(Normal, act, st);
            Exec(LowerMatches(k, name, matching, bind, body), scope, yld, act, st, fuel)
            == if r.c.Normal? then Exec(rest, scope, yld, r.act, r.st, fuel) else r
  {
    hide Exec;
    var view := if matching[0] == name then (v: Value) => v else (v: Value) => Upcast(name, v);
    var first := When(Handled(k), false, WhenError(CaughtError(k), IsClass(matching[0]), HandlerBody(k, view, bind, body)));
    MatchRuns(k, matching[0], view, bind, body, err, scope, yld, act, st, fuel);
    ThenRuns(first, LowerMatches(k, name, matching[1..], bind, body), scope, yld, act, st, fuel);
  }

  function ClassView(name: string, err: Value): Value {
    if err.Instance? && err.cls == name then err else Upcast(name, err)
  }

  lemma {:induction false} MatchesMiss(k: nat, name: string, matching: seq<string>, bind: (Value, Store) -> Store, body: Code, err: Value,
                                       scope: Scope, yld: YieldFunc, act: Activation, st: State, fuel: nat)
    requires Dispatching(k, err, scope, st) && !(err.Instance? && err.cls in matching)
    ensures Exec(LowerMatches(k, name, matching, bind, body), scope, yld, act, st, fuel) == Result(Normal, act, st)
    decreases matching
  {
    hide Exec, LowerMatches, ClassView, HandlerEntry;
    if matching == [] {
      NoMatchRuns(k, name, bind, body, scope, yld, act, st, fuel);
    } else {
      FirstMatchRuns(k, name, matching, bind, body, err, scope, yld, act, st, fuel);
      MatchesMiss(k, name, matching[1..], bind, body, err, scope, yld, act, st, fuel);
    }
  }

  /** One clause runs its body exactly when it accepts the error, with the view it promises. */
  lemma ClauseRuns(k: nat, sort: S.CatchSort, bind: (Value, Store) -> Store, body: Code, err: Value,
                   scope: Scope, yld: YieldFunc, act: Activation, st: State, fuel: nat)
    requires Dispatching(k, err, scope, st)
    requires S.Bound(sort, err).Some? ==>
      Settles(k, scope, act, Exec(body, scope, yld, act, HandlerEntry(k, bind, S.Bound(sort, err).value, scope, st), fuel))
    ensures Exec(LowerCatch(k, sort, bind, body), scope, yld, act, st, fuel) ==
      if S.Bound(sort, err).Some? then
        Exec(body, scope, yld, act, HandlerEntry(k, bind, S.Bound(sort, err).value, scope, st), fuel)
      else Result(Normal, act, st)
  {
    hide Exec;
    match sort
    case CatchError =>
      WhenRuns(Handled(k), false, HandlerBody(k, v => v, bind, body), scope, yld, act, st, fuel);
      HandlerRuns(k, v => v, bind, body, err, scope, yld, act, st, fuel);
    case CatchType(accepts) =>
      var handler := HandlerBody(k, v => v, bind, body);
      WhenRuns(Handled(k), false, WhenError(CaughtError(k), accepts, handler), scope, yld, act, st, fuel);
      WhenErrorRuns(CaughtError(k), accepts, handler, scope, yld, act, st, fuel);
      HandlerRuns(k, v => v, bind, body, err, scope, yld, act, st, fuel);
    case CatchClass(name, matching) =>
      var handler := HandlerBody(k, S.FromError, bind, body);
      var fallback := if name == "Exception" then When(Handled(k), false, handler) else Nop;
      if err.Instance? && err.cls in matching {
        var r := Exec(body, scope, yld, act, HandlerEntry(k, bind, ClassView(name, err), scope, st), fuel);
        MatchesRun(k, name, matching, bind, body, err, r, scope, yld, act, st, fuel);
      } else {
        MatchesMiss(k, name, matching, bind, body, err, scope, yld, act, st, fuel);
      }
      var m := Exec(LowerMatches(k, name, matching, bind, body), scope, yld, act, st, fuel);
      ThenRuns(LowerMatches(k, name, matching, bind, body), fallback, scope, yld, act, st, fuel);
      WhenRuns(Handled(k), false, handler, scope, yld, m.act, m.st, fuel);
      NopRuns(scope, yld, m.act, m.st, fuel);
      HandlerRuns(k, S.FromError, bind, body, err, scope, yld, act, st, fuel);
  }

  /** The dispatch runs the first clause that accepts the error, and no other. */
  lemma {:induction false} ClausesRun(k: nat, cs: S.Catches, rt: ResultType, err: Value,
                                      scope: Scope, yld: YieldFunc, act: Activation, st: State, fuel: nat)
    requires Dispatching(k, err, scope, st)
    requires var ch := S.Choose(cs, err);
             ch.Chosen? ==> Settles(k, scope, act, Exec(Lower(ch.body, true, rt), scope, yld, act, HandlerEntry(k, ch.bind, ch.value, scope, st), fuel))
    ensures var ch := S.Choose(cs, err);
            Exec(LowerCatches(k, cs, rt), scope, yld, act, st, fuel) ==
            if ch.Chosen? then Exec(Lower(ch.body, true, rt), scope, yld, act, HandlerEntry(k, ch.bind, ch.value, scope, st), fuel)
            else Result(Normal, act, st)
    decreases cs
  {
    hide Exec;
    match cs
    case NoCatch => NopRuns(scope, yld, act, st, fuel);
    case MoreCatch(c, others) =>
      var body := Lower(c.body, true, rt);
      ClauseRuns(k, c.sort, c.bind, body, err, scope, yld, act, st, fuel);
      var r := Exec(LowerCatch(k, c.sort, c.bind, body), scope, yld, act, st, fuel);
      ThenRuns(LowerCatch(k, c.sort, c.bind, body), LowerCatches(k, others, rt), scope, yld, act, st, fuel);
      if S.Bound(c.sort, err).Some? {
        if r.c.Normal? { HandledSkips(k, others, rt, scope, yld, act, r.st, fuel); }
      } else {
        ClausesRun(k, others, rt, err, scope, yld, act, st, fuel);
      }
  }

  /** An error no clause accepts leaves the try as the same exception. */
  lemma DispatchRuns(k: nat, cs: S.Catches, rt: ResultType, err: Value, thrown: PanicValue,
                     scope: Scope, yld: YieldFunc, act: Activation, st: State, fuel: nat)
    requires Holds(scope, CaughtError(k), st, Data(err)) && Holds(scope, ThrownOf(k), st, Held(Some(thrown)))
    requires var ch := S.Choose(cs, err);
             var (scope1, st1) := DispatchEntry(k, scope, st);
             ch.Chosen? ==> Settles(k, scope1, act, Exec(Lower(ch.body, true, rt), scope1, yld, act, HandlerEntry(k, ch.bind, ch.value, scope1, st1), fuel))
    ensures var ch := S.Choose(cs, err);
            var (scope1, st1) := DispatchEntry(k, scope, st);
            Exec(Dispatch(k, LowerCatches(k, cs, rt)), scope, yld, act, st, fuel) ==
            if ch.Chosen? then Exec(Lower(ch.body, true, rt), scope1, yld, act, HandlerEntry(k, ch.bind, ch.value, scope1, st1), fuel)
            else Result(Panicking(thrown), act, st1)
  {
    hide Exec;
    var (scope1, st1) := DispatchEntry(k, scope, st);
    var clauses := LowerCatches(k, cs, rt);
    var unhandled := When(Handled(k), false, Do(PanicHeld(ThrownOf(k))));
    VarRuns(Handled(k), Flag(false), Then(clauses, unhandled), scope, yld, act, st, fuel);
    ClausesRun(k, cs, rt, err, scope1, yld, act, st1, fuel);
    var r := Exec(clauses, scope1, yld, act, st1, fuel);
    ThenRuns(clauses, unhandled, scope1, yld, act, st1, fuel);
    WhenRuns(Handled(k), false, Do(PanicHeld(ThrownOf(k))), scope1, yld, r.act, r.st, fuel);
    DoRuns(PanicHeld(ThrownOf(k)), scope1, yld, act, st1, fuel);
  }

  function DispatchEntry(k: nat, scope: Scope, st: State): (Scope, State) {
    (scope[Handled(k) := |st.cells|], st.(cells := st.cells + [Flag(false)]))
  }
}
