/** Where a failing evaluation ends in the laziest run of the ordered form. */
module OrderFailures {
  import opened Completions
  import opened OrderTarget
  import opened OrderSchedules
  import opened OrderLowering
  import opened OrderShapes
  import opened EvaluationOrder

  // ----- on the source -----

  /** What becomes of a failure of strict evaluation when everything is done as late as Go allows: it
      stops the evaluation there, it is left to be done, or a call is made before it is noticed. */
  datatype Fate = Stops | Pends | Calls

  /** The fate of a failure in `e`, which is fixed at its position or not. An operator's own failure is
      left to be done unless the operator is fixed, and fixing does not reach an operator around a
      contextual shift; a shift that fails has had its count checked if it is fixed. Logical operators and
      calls leave nothing of their operands. */
  function FateOf(e: Expr, fixed: bool, st: Store, calls: nat): Fate
    decreases e, 1
  {
    match e
    case Const(_) => Stops
    case NilLit => Stops
    case Node(_, op, args) =>
      if !HasContextualShift(e) then Forced(FateOfAll(args, false, st, calls), fixed)
      else if fixed && op.Shifts? && ShiftArgs(args) then FateOfShift(args, st, calls)
      else FateOfAll(args, fixed, st, calls)
    case Logical(both, l, r) =>
      var inner := fixed && HasContextualShift(e);
      var left := Eval(l, st, calls);
      Forced(if left.value.None? then FateOf(l, inner || MayHaveEffects(r), st, calls) else FateOf(r, inner, left.store, left.calls), true)
    case Call(_, _, callee, args) =>
      var c := Eval(callee, st, calls);
      Forced(if c.value.None? then FateOf(callee, false, st, calls) else FateOfAll(args, false, c.store, c.calls), true)
  }

  predicate ShiftArgs(es: Exprs) {
    es.Then? && es.tail.Then?
  }

  function Forced(f: Fate, forced: bool): Fate {
    if f.Pends? && forced then Stops else f
  }

  /** Operands, those followed by an effect fixed: a failure left to be done meets what comes after. */
  function FateOfAll(es: Exprs, fixed: bool, st: Store, calls: nat): Fate
    decreases es, 0
  {
    match es
    case NoMore => Pends
    case Then(e, rest) =>
      var v := Eval(e, st, calls);
      if v.value.Some? then FateOfAll(rest, fixed, v.store, v.calls)
      else
        var f := FateOf(e, fixed || AnyEffects(rest), st, calls);
        if f.Pends? then After(rest, fixed, v.store, v.calls) else f
  }

  /** What a failure left to be done meets in later operands: a call, or another failure. */
  function After(es: Exprs, fixed: bool, st: Store, calls: nat): Fate
    decreases es, 0
  {
    match es
    case NoMore => Pends
    case Then(e, rest) =>
      var v := Eval(e, st, calls);
      if v.calls > calls then Calls
      else
        var f := if v.value.Some? then Pends else FateOf(e, fixed || AnyEffects(rest), st, calls);
        if f.Pends? then After(rest, fixed, st, calls) else f
  }

  function FateOfShift(es: Exprs, st: Store, calls: nat): Fate
    requires ShiftArgs(es)
    decreases es, 0
  {
    var l, count := es.head, es.tail.head;
    var v := Eval(l, st, calls);
    if v.value.Some? then FateOfCount(count, v.store, v.calls)
    else
      var f := FateOf(l, true, st, calls);
      if !f.Pends? then f
      else if Eval(count, v.store, v.calls).calls > v.calls then Calls
      else FateOfCount(count, v.store, v.calls)
  }

  /** A count is forced and checked, unless it is constant. */
  function FateOfCount(count: Expr, st: Store, calls: nat): Fate
    decreases count, 2
  {
    var n := Eval(count, st, calls);
    if n.value.None? then Forced(FateOf(count, true, st, calls), true)
    else if Negative(n.value.value) then Stops else Pends
  }

  // ----- strict evaluation at once, for every form -----

  lemma {:induction false} ShapeAtOnce(e: Expr, g: Go, fixed: bool, st: Store, calls: nat, next: nat)
    requires Checked(e) && Shape(e, g, fixed)
    ensures Means(Run(g, AtOnce, st, calls, next), Eval(e, st, calls))
    decreases e, g, 1
  {
    if g == Lowered(e) {
      AtOnceIsStrict(e, st, calls, next);
    } else if !HasContextualShift(e) {
      if g.g == Lowered(e) { AtOnceIsStrict(e, st, calls, next); } else { ShapeAtOnce(e, g.g, true, st, calls, next); }
    } else if e.Node? {
      var a := EvalAll(e.args, st, calls);
      if fixed && e.op.Shifts? {
        ShiftAtOnce(e, g, st, calls, next);
      } else {
        ShapeAllAtOnce(e.args, g.args, fixed, st, calls, next);
        if a.values.Some? { KeptForces(a.values.value, a.store); }
      }
    } else {
      ShapeAtOnce(e.left, g.left, fixed || MayHaveEffects(e.right), st, calls, next);
      var x := Run(g.left, AtOnce, st, calls, next);
      ShapeAtOnce(e.right, g.right, fixed, x.store, x.calls, x.next);
    }
  }

  lemma {:induction false} ShapeAllAtOnce(es: Exprs, gs: Gos, fixed: bool, st: Store, calls: nat, next: nat)
    requires CheckedAll(es) && ShapeAll(es, gs, fixed)
    ensures MeansAll(RunAll(gs, AtOnce, st, calls, next), EvalAll(es, st, calls))
    decreases es, gs
  {
    if es.Then? {
      ShapeAtOnce(es.head, gs.head, fixed || AnyEffects(es.tail), st, calls, next);
      var r := Run(gs.head, AtOnce, st, calls, next);
      ShapeAllAtOnce(es.tail, gs.tail, fixed, r.store, r.calls, r.next);
      var vs := EvalAll(es.tail, r.store, r.calls).values;
      if r.res.Some? && vs.Some? { assert ([r.res.value.v] + vs.value)[1..] == vs.value; }
    }
  }

  /** Checking a count fails where the shift itself would. */
  ghost predicate MeansCount(r: Ran, out: Out) {
    r.store == out.store && r.calls == out.calls
    && r.res == if out.value.None? || Negative(out.value.value) then None else Some(Val(out.value.value))
  }

  lemma {:induction false} CountAtOnce(e: Expr, g: Go, st: Store, calls: nat, next: nat)
    requires Checked(e) && CountShape(e, g)
    ensures MeansCount(Run(g, AtOnce, st, calls, next), Eval(e, st, calls))
    decreases e, g
  {
    if Shape(e, g.g, true) { ShapeAtOnce(e, g.g, true, st, calls, next); }
    else if CountShape(e, g.g) { CountAtOnce(e, g.g, st, calls, next); }
    else { CountAtOnce(e, g.g.g, st, calls, next); }
  }

  lemma {:induction false} ShiftAtOnce(e: Expr, g: Go, st: Store, calls: nat, next: nat)
    requires Checked(e) && e.Node? && e.op.Shifts? && g.Pure? && g.op == e.op && ShiftShape(e.args, g.args)
    ensures Means(Run(g, AtOnce, st, calls, next), Eval(e, st, calls))
    decreases e, g, 0
  {
    var l, r := e.args.head, e.args.tail.head;
    var a, c := g.args.head, g.args.tail.head;
    assert g.args == More(a, More(c, End)) && e.args == Then(l, Then(r, NoMore));
    assert CheckedAll(e.args.tail);
    ShapeAtOnce(l, a, true, st, calls, next);
    RunPair(a, c, AtOnce, st, calls, next);
    EvalPair(l, r, st, calls);
    var x := Run(a, AtOnce, st, calls, next);
    if x.res.Some? {
      if !r.Const? { CountAtOnce(r, c, x.store, x.calls, x.next); }
      var y := Run(c, AtOnce, x.store, x.calls, x.next);
      if y.res.Some? { ForcePair(x.res.value, y.res.value.v, y.store); }
    }
  }

  // ----- the laziest run -----

  /** What the laziest run of a form shares with strict evaluation, whatever becomes of a failure. */
  lemma LaziestAgrees(e: Expr, g: Go, fixed: bool, st: Store, calls: nat, next: nat)
    requires Checked(e) && Shape(e, g, fixed) && Ordered(g, false)
    ensures var r, out := Run(g, AtTheEnd, st, calls, next), Eval(e, st, calls);
            if out.value.Some? then r.res.Some? && r.store == out.store && r.calls == out.calls && Finish(r) == out.value
            else Finish(r).None? && r.calls >= out.calls && (r.calls == out.calls ==> r.store == out.store)
  {
    ShapeAtOnce(e, g, fixed, st, calls, next);
    LazierRuns(g, false, AtOnce, AtTheEnd, st, calls, next);
  }

  lemma LaziestAgreesAll(es: Exprs, gs: Gos, fixed: bool, st: Store, calls: nat, next: nat)
    requires CheckedAll(es) && ShapeAll(es, gs, fixed) && OrderedAll(gs, false)
    ensures var r, out := RunAll(gs, AtTheEnd, st, calls, next), EvalAll(es, st, calls);
            if out.values.Some? then r.res.Some? && r.store == out.store && r.calls == out.calls && FinishAll(r) == out.values
            else FinishAll(r).None? && r.calls >= out.calls && (r.calls == out.calls ==> r.store == out.store)
  {
    ShapeAllAtOnce(es, gs, fixed, st, calls, next);
    LazierRunsAll(gs, false, AtOnce, AtTheEnd, st, calls, next);
    var out := EvalAll(es, st, calls);
    if out.values.Some? { KeptForces(out.values.value, out.store); }
  }

  /** The laziest run has a failure of this fate: `before` are the calls of strict evaluation, `calls` its
      own, and `left` says that something is left to be done. */
  predicate Fares(f: Fate, before: nat, calls: nat, left: bool) {
    (f.Calls? <==> calls > before) && (f.Pends? ==> left) && (f.Stops? ==> !left)
  }

  lemma {:induction false} FailureFares(e: Expr, g: Go, fixed: bool, st: Store, calls: nat, next: nat)
    requires Checked(e) && Lowerable(e) && Shape(e, g, fixed) && Ordered(g, false) && Eval(e, st, calls).value.None?
    ensures var r := Run(g, AtTheEnd, st, calls, next);
            Fares(FateOf(e, fixed, st, calls), Eval(e, st, calls).calls, r.calls, r.res.Some?)
    decreases e, g, 1
  {
    if e.Call? {
      CallFares(e, st, calls, next);
    } else if fixed && !HasContextualShift(e) {
      var plain := g.g == Lowered(e);
      if plain { LoweredShape(e); }
      LaziestAgrees(e, g.g, !plain, st, calls, next);
      FailureFares(e, g.g, !plain, st, calls, next);
    } else if e.Logical? {
      LogicalFares(e, g, fixed, st, calls, next);
    } else if fixed && e.op.Shifts? {
      ShiftFares(e, g, st, calls, next);
    } else {
      if !HasContextualShift(e) { LoweredShapeAll(e.args); }
      var inner := fixed && HasContextualShift(e);
      LaziestAgreesAll(e.args, g.args, inner, st, calls, next);
      FailuresFare(e.args, g.args, inner, st, calls, next);
    }
  }

  lemma {:induction false} FailuresFare(es: Exprs, gs: Gos, fixed: bool, st: Store, calls: nat, next: nat)
    requires CheckedAll(es) && LowerableAll(es) && ShapeAll(es, gs, fixed) && OrderedAll(gs, false)
    ensures var r, out := RunAll(gs, AtTheEnd, st, calls, next), EvalAll(es, st, calls);
            if out.values.Some? then FateOfAll(es, fixed, st, calls).Pends?
            else Fares(FateOfAll(es, fixed, st, calls), out.calls, r.calls, r.res.Some?)
    decreases es, gs
  {
    if es.Then? {
      var m := fixed || AnyEffects(es.tail);
      LaziestAgrees(es.head, gs.head, m, st, calls, next);
      var v, x := Eval(es.head, st, calls), Run(gs.head, AtTheEnd, st, calls, next);
      if v.value.Some? {
        FailuresFare(es.tail, gs.tail, fixed, x.store, x.calls, x.next);
      } else {
        FailureFares(es.head, gs.head, m, st, calls, next);
        OnlyCallsChangeAll(gs.tail, AtTheEnd, x.store, x.calls, x.next);
        if x.calls == v.calls { AfterFares(es.tail, gs.tail, fixed, x.store, x.calls, x.next); }
      }
    }
  }

  lemma {:induction false} AfterFares(es: Exprs, gs: Gos, fixed: bool, st: Store, calls: nat, next: nat)
    requires CheckedAll(es) && LowerableAll(es) && ShapeAll(es, gs, fixed) && OrderedAll(gs, false)
    ensures var r := RunAll(gs, AtTheEnd, st, calls, next); Fares(After(es, fixed, st, calls), calls, r.calls, r.res.Some?)
    decreases es, gs
  {
    if es.Then? {
      var m := fixed || AnyEffects(es.tail);
      LaziestAgrees(es.head, gs.head, m, st, calls, next);
      var v, x := Eval(es.head, st, calls), Run(gs.head, AtTheEnd, st, calls, next);
      OnlyCallsChange(gs.head, AtTheEnd, st, calls, next);
      OnlyCallsChangeAll(gs.tail, AtTheEnd, x.store, x.calls, x.next);
      if v.value.None? { FailureFares(es.head, gs.head, m, st, calls, next); }
      StrictCalls(es.head, st, calls);
      if x.calls == calls { AfterFares(es.tail, gs.tail, fixed, x.store, x.calls, x.next); }
    }
  }

  lemma StrictCalls(e: Expr, st: Store, calls: nat)
    ensures Eval(e, st, calls).calls >= calls
  {
    AtOnceIsStrict(e, st, calls, 0);
    OnlyCallsChange(Lowered(e), AtOnce, st, calls, 0);
  }

  lemma {:induction false} LogicalFares(e: Expr, g: Go, fixed: bool, st: Store, calls: nat, next: nat)
    requires e.Logical? && (fixed ==> HasContextualShift(e))
    requires Checked(e) && Lowerable(e) && Shape(e, g, fixed) && Ordered(g, false) && Eval(e, st, calls).value.None?
    ensures var r := Run(g, AtTheEnd, st, calls, next);
            Fares(FateOf(e, fixed, st, calls), Eval(e, st, calls).calls, r.calls, r.res.Some?)
    decreases e, g, 0
  {
    var l, r := e.left, e.right;
    var m := fixed || MayHaveEffects(r);
    if !HasContextualShift(e) {
      LoweredShape(l);
      LoweredShape(r);
      if m { SnapshotShape(l, Lowered(l), false); }
    }
    assert Shape(l, g.left, m) && Shape(r, g.right, fixed);
    assert Ordered(g.left, false) && Ordered(g.right, false);
    LaziestAgrees(l, g.left, m, st, calls, next);
    var x, v := Run(g.left, AtTheEnd, st, calls, next), Eval(l, st, calls);
    if v.value.None? {
      FailureFares(l, g.left, m, st, calls, next);
    } else {
      LaziestAgrees(r, g.right, fixed, x.store, x.calls, x.next);
      FailureFares(r, g.right, fixed, x.store, x.calls, x.next);
    }
  }

  /** A checked count in the laziest run: forced there, and refused if it is negative. */
  lemma {:induction false} CountFares(e: Expr, g: Go, st: Store, calls: nat, next: nat)
    requires Checked(e) && Lowerable(e) && CountShape(e, g) && Ordered(g, false)
    ensures var r, n := Run(g, AtTheEnd, st, calls, next), Eval(e, st, calls);
            && Fares(FateOfCount(e, st, calls), n.calls, r.calls, r.res.Some?)
            && r.calls >= n.calls && (n.value.Some? ==> r.store == n.store && r.calls == n.calls)
            && (r.res.Some? ==> n.value.Some? && r.res.value == Val(n.value.value))
    decreases e, g, 2
  {
    if Shape(e, g.g, true) {
      LaziestAgrees(e, g.g, true, st, calls, next);
      if Eval(e, st, calls).value.None? { FailureFares(e, g.g, true, st, calls, next); }
    } else if CountShape(e, g.g) {
      CountFares(e, g.g, st, calls, next);
    } else {
      CountFares(e, g.g.g, st, calls, next);
    }
  }

  lemma {:induction false} ShiftFares(e: Expr, g: Go, st: Store, calls: nat, next: nat)
    requires e.Node? && e.op.Shifts? && HasContextualShift(e)
    requires Checked(e) && Lowerable(e) && Shape(e, g, true) && Ordered(g, false) && Eval(e, st, calls).value.None?
    ensures var r := Run(g, AtTheEnd, st, calls, next);
            Fares(FateOf(e, true, st, calls), Eval(e, st, calls).calls, r.calls, r.res.Some?)
    decreases e, g, 0
  {
    var l, count := e.args.head, e.args.tail.head;
    var a, c := g.args.head, g.args.tail.head;
    assert g.args == More(a, More(c, End)) && e.args == Then(l, Then(count, NoMore));
    assert CheckedAll(e.args.tail) && LowerableAll(e.args.tail) && OrderedAll(g.args.tail, false);
    EvalPair(l, count, st, calls);
    RunPair(a, c, AtTheEnd, st, calls, next);
    LaziestAgrees(l, a, true, st, calls, next);
    var v, x := Eval(l, st, calls), Run(a, AtTheEnd, st, calls, next);
    if v.value.None? { FailureFares(l, a, true, st, calls, next); }
    OnlyCallsChange(c, AtTheEnd, x.store, x.calls, x.next);
    StrictCalls(count, v.store, v.calls);
    var y := Run(c, AtTheEnd, x.store, x.calls, x.next);
    var r, out := Run(g, AtTheEnd, st, calls, next), Eval(e, st, calls);
    assert r.calls == (if x.res.None? then x.calls else y.calls) && (r.res.Some? <==> x.res.Some? && y.res.Some?);
    assert out.calls == if v.value.None? then v.calls else Eval(count, v.store, v.calls).calls;
    assert FateOf(e, true, st, calls) == FateOfShift(e.args, st, calls);
    if x.res.Some? && x.calls == v.calls {
      assert x.store == v.store;
      if count.Const? {
        assert c == Lit(count.v) && FateOfCount(count, v.store, v.calls) == Pends;
      } else {
        CountFares(count, c, x.store, x.calls, x.next);
      }
    }
  }

  lemma {:induction false} CallFares(e: Expr, st: Store, calls: nat, next: nat)
    requires e.Call? && Checked(e) && Lowerable(e) && Ordered(Lowered(e), false) && Eval(e, st, calls).value.None?
    ensures var r := Run(Lowered(e), AtTheEnd, st, calls, next);
            Fares(FateOf(e, true, st, calls), Eval(e, st, calls).calls, r.calls, r.res.Some?)
    decreases e, Lowered(e), 0
  {
    var callee, first, rest := Lowered(e.callee), CalleeForm(e), OrderedList(e.args, LoweredAll(e.args));
    var operands := More(first, rest);
    assert Lowered(e) == Invoke(e.fn, operands);
    LoweredShape(e.callee);
    LoweredShapeAll(e.args);
    assert OrderedAll(operands, false);
    assert Ordered(first, false) && OrderedAll(rest, false);
    assert Ordered(callee, false);
    LaziestAgrees(e, Lowered(e), false, st, calls, next);
    LaziestAgrees(e.callee, callee, false, st, calls, next);
    var c, x := Eval(e.callee, st, calls), Run(first, AtTheEnd, st, calls, next);
    if c.value.None? {
      FailureFares(e.callee, callee, false, st, calls, next);
      if x.res.Some? {
        JudgedQuietAll(e.args);
        LateFailure(operands, AtTheEnd, st, calls, next);
        QuietRunAll(rest, AtTheEnd, x.store, x.calls, x.next);
      }
    } else {
      LaziestAgreesAll(e.args, rest, false, x.store, x.calls, x.next);
      FailuresFare(e.args, rest, false, x.store, x.calls, x.next);
    }
  }

  // ----- the theorem -----

  /** Every schedule agrees with strict evaluation in value, store and calls, if and only if evaluation
      does not fail in a way that is left to be done until a later operand has made a call. */
  lemma OrderedExactly(e: Expr, st: Store, calls: nat)
    requires Checked(e) && !FixedTwice(e)
    ensures (forall o: Schedule :: Agrees(Run(Lowered(e), o, st, calls, 0), Eval(e, st, calls)))
            <==> Eval(e, st, calls).value.Some? || FateOf(e, false, st, calls) != Calls
  {
    LowerableExactly(e);
    LaziestDecides(e, st, calls);
    LoweredOrdered(e, false);
    LoweredShape(e);
    LaziestAgrees(e, Lowered(e), false, st, calls, 0);
    if Eval(e, st, calls).value.None? { FailureFares(e, Lowered(e), false, st, calls, 0); }
  }
}
