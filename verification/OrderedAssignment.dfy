/** The ordering loop over expression lists, and compound assignment. */
module OrderedAssignment {
  import opened Completions
  import opened OrderTarget
  import opened OrderSchedules
  import opened OrderLowering
  import opened OrderShapes
  import opened EvaluationOrder

  // ----- the loop over a list -----

  function AsExprs(es: seq<Expr>): Exprs {
    if es == [] then NoMore else Then(es[0], AsExprs(es[1..]))
  }

  function AsGos(gs: seq<Go>): Gos {
    if gs == [] then End else More(gs[0], AsGos(gs[1..]))
  }

  /** From the last value to the first: fix a value when something after it may have effects. */
  method OrderExpressionList(source: seq<Expr>, values: array<Go>)
    requires values.Length == |source|
    modifies values
    ensures AsGos(values[..]) == OrderedList(AsExprs(source), AsGos(old(values[..])))
  {
    ghost var before := values[..];
    var later, i := false, |source|;
    while i > 0
      invariant 0 <= i <= |source| && values[..i] == before[..i]
      invariant later == AnyEffects(AsExprs(source[i..]))
      invariant AsGos(values[i..]) == OrderedList(AsExprs(source[i..]), AsGos(before[i..]))
    {
      i := i - 1;
      assert source[i..][1..] == source[i + 1..] && before[i..][1..] == before[i + 1..];
      ghost var rest := values[i + 1..];
      assert values[i] == values[..i + 1][i];
      if later { values[i] := Snapshot(source[i], values[i]); }
      assert values[i..][1..] == rest;
      later := later || MayHaveEffects(source[i]);
    }
  }

  // ----- assignment -----

  /** A target: the operands that locate it, where that is, and reading and writing there. A `simple`
      target is a name, a field of `this` or a package variable. */
  datatype Place = Place(
    simple: bool, operands: Exprs, locate: (seq<Value>, Store) -> Option<Value>,
    load: (Value, Store) -> Option<Value>, save: (Value, Value, Store) -> Option<Store>)

  ghost predicate WellPlaced(p: Place) {
    p.simple ==> p.operands.NoMore? && exists at :: forall st :: p.locate([], st) == Some(at)
  }

  /** `target = value`, or `target op= value`. */
  datatype Assignment = Assignment(place: Place, op: Option<Op>, value: Expr)

  /** `done` is false when some step failed. */
  datatype Effected = Effected(store: Store, calls: nat, done: bool)

  /** What is stored: the value, or the operation on the old value and it. */
  function Stored(op: Option<Op>, old_: Option<Value>, v: Value, st: Store): Option<Value> {
    if op.None? then Some(v) else if old_.None? then None else Apply(op.value, [old_.value, v], st)
  }

  function Saved(p: Place, at: Value, v: Option<Value>, st: Store, calls: nat): Effected {
    if v.None? then Effected(st, calls, false) else
    var r := p.save(at, v.value, st);
    if r.None? then Effected(st, calls, false) else Effected(r.value, calls, true)
  }

  /** Left to right: locate the target once, read its old value once, then evaluate the right side. */
  function Assign(a: Assignment, st: Store, calls: nat): Effected {
    var p := a.place;
    var ops := EvalAll(p.operands, st, calls);
    var at := if ops.values.None? then None else p.locate(ops.values.value, ops.store);
    var was := if at.None? || a.op.None? then None else p.load(at.value, ops.store);
    if at.None? || (a.op.Some? && was.None?) then Effected(ops.store, ops.calls, false) else
    var v := Eval(a.value, ops.store, ops.calls);
    if v.value.None? then Effected(v.store, v.calls, false)
    else Saved(p, at.value, Stored(a.op, was, v.value.value, v.store), v.store, v.calls)
  }

  /** generateOrderedAssignment leaves a plain Go assignment in these cases. */
  predicate StaysDirect(a: Assignment) {
    !MayHaveEffects(a.value) || (a.place.simple && a.op.None?)
  }

  /** A Go assignment: every operand may still be read when the assignment itself is done. */
  function RunDirect(a: Assignment, o: Schedule, st: Store, calls: nat): Effected {
    var p := a.place;
    var ops := RunAll(OrderedList(p.operands, LoweredAll(p.operands)), o, st, calls, 0);
    if ops.res.None? then Effected(ops.store, ops.calls, false) else
    var r := Run(Lowered(a.value), o, ops.store, ops.calls, ops.next);
    if r.res.None? then Effected(r.store, r.calls, false) else
    var vs := ForceAll(ops.res.value, r.store);
    var at := if vs.None? then None else p.locate(vs.value, r.store);
    var was := if at.None? || a.op.None? then None else p.load(at.value, r.store);
    var v := Force(r.res.value, r.store);
    if at.None? || v.None? then Effected(r.store, r.calls, false)
    else Saved(p, at.value, Stored(a.op, was, v.value, r.store), r.store, r.calls)
  }

  /** The lowered block: a pointer to the target (or its map and key), its old value, the assignment. */
  function RunFixed(a: Assignment, o: Schedule, st: Store, calls: nat): Effected {
    var p := a.place;
    var ops := RunAll(OrderedList(p.operands, LoweredAll(p.operands)), o, st, calls, 0);
    var vs := FinishAll(ops);
    var at := if vs.None? then None else p.locate(vs.value, ops.store);
    var was := if at.None? || a.op.None? then None else p.load(at.value, ops.store);
    if at.None? || (a.op.Some? && was.None?) then Effected(ops.store, ops.calls, false) else
    var r := Settled(Run(Lowered(a.value), o, ops.store, ops.calls, ops.next));
    if r.res.None? then Effected(r.store, r.calls, false)
    else Saved(p, at.value, Stored(a.op, was, r.res.value.v, r.store), r.store, r.calls)
  }

  function RunAssign(a: Assignment, o: Schedule, st: Store, calls: nat): Effected {
    if StaysDirect(a) then RunDirect(a, o, st, calls) else RunFixed(a, o, st, calls)
  }

  ghost predicate CheckedAssignment(a: Assignment) {
    && CheckedAll(a.place.operands) && !FixedTwiceAll(a.place.operands) && WellPlaced(a.place)
    && Checked(a.value) && !FixedTwice(a.value)
  }

  /** The operands of the target, as strict evaluation and any schedule leave them. */
  lemma OperandsAgree(es: Exprs, strict: bool, o: Schedule, st: Store, calls: nat)
    requires CheckedAll(es) && !FixedTwiceAll(es) && (strict ==> TotalShiftsAll(es))
    ensures var r := RunAll(OrderedList(es, LoweredAll(es)), o, st, calls, 0);
            var out := EvalAll(es, st, calls);
            && FinishAll(r) == out.values
            && (out.values.Some? || strict ==> r.store == out.store && r.calls == out.calls)
  {
    var gs := OrderedList(es, LoweredAll(es));
    LowerableExactlyAll(es);
    LoweredOrderedAll(es, strict);
    AtOnceIsStrictAll(es, st, calls, 0);
    LazierRunsAll(gs, strict, AtOnce, o, st, calls, 0);
    var out := EvalAll(es, st, calls);
    if out.values.Some? { KeptForces(out.values.value, out.store); }
  }

  lemma ValueAgrees(e: Expr, strict: bool, o: Schedule, st: Store, calls: nat, next: nat)
    requires Checked(e) && !FixedTwice(e) && (strict ==> TotalShifts(e))
    ensures var r := Run(Lowered(e), o, st, calls, next);
            var out := Eval(e, st, calls);
            && Finish(r) == out.value
            && (out.value.Some? || strict ==> r.store == out.store && r.calls == out.calls)
  {
    LowerableExactly(e);
    LoweredOrdered(e, strict);
    AtOnceIsStrict(e, st, calls, next);
    LazierRuns(Lowered(e), strict, AtOnce, o, st, calls, next);
  }

  /** Under every schedule an assignment succeeds exactly when the strict one does, with the same
      store: its target is located and read once, before the right side has any effect. */
  lemma AssignmentIsOrdered(a: Assignment, strict: bool, o: Schedule, st: Store, calls: nat)
    requires CheckedAssignment(a) && (strict ==> TotalShifts(a.value) && TotalShiftsAll(a.place.operands))
    ensures var r := RunAssign(a, o, st, calls);
            var out := Assign(a, st, calls);
            r.done == out.done && (out.done || strict ==> r == out)
  {
    OperandsAgree(a.place.operands, strict, o, st, calls);
    var ops := RunAll(OrderedList(a.place.operands, LoweredAll(a.place.operands)), o, st, calls, 0);
    ValueAgrees(a.value, strict, o, ops.store, ops.calls, ops.next);
    if StaysDirect(a) {
      DirectIsOrdered(a, strict, o, st, calls);
    }
  }

  lemma DirectIsOrdered(a: Assignment, strict: bool, o: Schedule, st: Store, calls: nat)
    requires CheckedAssignment(a) && StaysDirect(a) && (strict ==> TotalShifts(a.value) && TotalShiftsAll(a.place.operands))
    ensures var r := RunDirect(a, o, st, calls);
            var out := Assign(a, st, calls);
            r.done == out.done && (out.done || strict ==> r == out)
  {
    var p := a.place;
    OperandsAgree(p.operands, strict, o, st, calls);
    var ops := RunAll(OrderedList(p.operands, LoweredAll(p.operands)), o, st, calls, 0);
    ValueAgrees(a.value, strict, o, ops.store, ops.calls, ops.next);
    if !MayHaveEffects(a.value) {
      JudgedQuiet(a.value);
      QuietRun(Lowered(a.value), o, ops.store, ops.calls, ops.next);
      QuietRun(Lowered(a.value), AtOnce, ops.store, ops.calls, ops.next);
      AtOnceIsStrict(a.value, ops.store, ops.calls, ops.next);
    } else {
      assert EvalAll(NoMore, st, calls) == OutAll(st, calls, Some([]));
      assert ops == RanAll(st, calls, 0, Some(Nothing));
    }
  }

  /** Every step of an assignment succeeds, and this is what it saves where its target is located: the value
      of the right side, or the operator applied to the value read there before and to that value. */
  ghost predicate Saves(a: Assignment, st: Store, calls: nat, after: Store, total: nat) {
    var p := a.place;
    var ops := EvalAll(p.operands, st, calls);
    ops.values.Some? &&
    var at := p.locate(ops.values.value, ops.store);
    var v := Eval(a.value, ops.store, ops.calls);
    at.Some? && v.value.Some? && total == v.calls &&
    if a.op.None? then p.save(at.value, v.value.value, v.store) == Some(after)
    else
      var was := p.load(at.value, ops.store);
      was.Some? && exists w :: Apply(a.op.value, [was.value, v.value.value], v.store) == Some(w) && p.save(at.value, w, v.store) == Some(after)
  }

  /** Under every schedule an assignment is done exactly when all its steps succeed, and then it has saved
      just that. */
  lemma AssignmentSaves(a: Assignment, o: Schedule, st: Store, calls: nat)
    requires CheckedAssignment(a)
    ensures var r := RunAssign(a, o, st, calls);
            && (r.done ==> Saves(a, st, calls, r.store, r.calls))
            && forall after, total :: Saves(a, st, calls, after, total) ==> r.done && r.store == after && r.calls == total
  {
    AssignmentIsOrdered(a, false, o, st, calls);
    hide RunAssign, CheckedAssignment, Eval, EvalAll, Apply;
  }
}
