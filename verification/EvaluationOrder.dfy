/** The ordered form means strict left-to-right evaluation, whatever Go postpones. */
module EvaluationOrder {
  import opened Completions
  import opened OrderTarget
  import opened OrderSchedules
  import opened OrderLowering
  import opened OrderShapes

  // ----- what the lowering establishes -----

  /** Expressions judged free of effects make no call in their Go form. */
  lemma {:induction false} JudgedQuiet(e: Expr)
    ensures !MayHaveEffects(e) ==> Quiet(Lowered(e))
  {
    match e
    case Const(_) =>
    case NilLit =>
    case Node(_, _, args) => JudgedQuietAll(args);
    case Logical(_, l, r) => JudgedQuiet(l); JudgedQuiet(r);
    case Call(_, _, _, _) =>
  }

  lemma {:induction false} JudgedQuietAll(es: Exprs)
    ensures !AnyEffects(es) ==> QuietAll(OrderedList(es, LoweredAll(es)))
  {
    if es.Then? { JudgedQuiet(es.head); JudgedQuietAll(es.tail); }
  }

  /** A snapshot leaves nothing that reads memory, and no failure when all around shifts is total. */
  lemma {:induction false} SnapshotFixes(e: Expr, g: Go, strict: bool)
    requires Checked(e) && Fits(e, g) && Ordered(g, strict) && (strict ==> TotalShifts(e))
    ensures var s := Snapshot(e, g);
            Ordered(s, strict) && Steady(s) && (strict ==> Firm(s)) && (Quiet(g) ==> Quiet(s))
    decreases e
  {
    if e.Node? && HasContextualShift(e) {
      SnapshotFixesAll(e.args, g.args, strict);
      if e.op.Shifts? { CountIsChecked(e.args, g.args, strict); }
    } else if e.Logical? && HasContextualShift(e) {
      SnapshotFixes(e.left, g.left, strict);
      SnapshotFixes(e.right, g.right, strict);
    }
  }

  /** The operands of a snapshotted shift: two, with a count that is checked or constant. */
  lemma CountIsChecked(es: Exprs, gs: Gos, strict: bool)
    requires es.Then? && es.tail.Then? && es.tail.tail.NoMore? && FitsAll(es, gs)
    requires es.tail.head.Const? ==> !Negative(es.tail.head.v)
    requires OrderedAll(SnapshotAll(es, gs), strict) && SteadyAll(SnapshotAll(es, gs)) && (strict ==> FirmAll(SnapshotAll(es, gs)))
    ensures var s := CheckCount(es, SnapshotAll(es, gs));
            && OrderedAll(s, strict) && SteadyAll(s) && s.More? && s.tail.More? && s.tail.tail.End? && (strict ==> Firm(s.head))
            && (s.tail.head.ShiftCount? || (s.tail.head.Lit? && !Negative(s.tail.head.v)))
            && (QuietAll(SnapshotAll(es, gs)) ==> QuietAll(s))
  {
    assert FitsAll(es.tail, gs.tail) && FitsAll(NoMore, gs.tail.tail);
    assert SnapshotAll(es.tail, gs.tail) == More(Snapshot(es.tail.head, gs.tail.head), SnapshotAll(NoMore, End));
    assert SnapshotAll(NoMore, End) == End;
    var s := SnapshotAll(es, gs);
    assert s == More(Snapshot(es.head, gs.head), More(Snapshot(es.tail.head, gs.tail.head), End));
    assert OrderedAll(s.tail, strict) && SteadyAll(s.tail);
    assert OrderedAll(More(ShiftCount(s.tail.head), End), strict) && SteadyAll(More(ShiftCount(s.tail.head), End));
    assert QuietAll(More(ShiftCount(s.tail.head), End)) <==> QuietAll(s.tail);
    if es.tail.head.Const? {
      assert Fits(es.tail.head, gs.tail.head);
      assert s.tail.head == Lit(es.tail.head.v);
    }
  }

  lemma {:induction false} SnapshotFixesAll(es: Exprs, gs: Gos, strict: bool)
    requires CheckedAll(es) && FitsAll(es, gs) && OrderedAll(gs, strict) && (strict ==> TotalShiftsAll(es))
    ensures var s := SnapshotAll(es, gs);
            OrderedAll(s, strict) && SteadyAll(s) && (strict ==> FirmAll(s)) && (QuietAll(gs) ==> QuietAll(s))
    decreases es
  {
    if es.Then? {
      SnapshotFixes(es.head, gs.head, strict);
      SnapshotFixesAll(es.tail, gs.tail, strict);
    }
  }

  lemma {:induction false} LoweredOrdered(e: Expr, strict: bool)
    requires Checked(e) && Lowerable(e) && (strict ==> TotalShifts(e))
    ensures Ordered(Lowered(e), strict)
  {
    match e
    case Const(_) =>
    case NilLit =>
    case Node(_, _, args) => LoweredOrderedAll(args, strict);
    case Logical(_, l, r) =>
      LoweredOrdered(l, strict);
      LoweredOrdered(r, strict);
      if MayHaveEffects(r) { SnapshotFixes(l, Lowered(l), strict); }
    case Call(_, fixed, callee, args) =>
      LoweredOrdered(callee, strict);
      LoweredOrderedAll(args, strict);
      JudgedQuietAll(args);
  }

  lemma {:induction false} LoweredOrderedAll(es: Exprs, strict: bool)
    requires CheckedAll(es) && LowerableAll(es) && (strict ==> TotalShiftsAll(es))
    ensures OrderedAll(OrderedList(es, LoweredAll(es)), strict)
  {
    if es.Then? {
      LoweredOrdered(es.head, strict);
      LoweredOrderedAll(es.tail, strict);
      JudgedQuietAll(es.tail);
      if AnyEffects(es.tail) { SnapshotFixes(es.head, Lowered(es.head), strict); }
    }
  }

  // ----- the keenest schedule is strict evaluation -----

  function AtOnce(i: nat): bool { true }

  function AtTheEnd(i: nat): bool { false }

  ghost predicate SameRun(x: Ran, y: Ran) {
    x.store == y.store && x.calls == y.calls && x.res == y.res
  }

  ghost predicate SameRuns(x: RanAll, y: RanAll) {
    x.store == y.store && x.calls == y.calls && x.res == y.res
  }

  /** The residuals of values. */
  function Kept(vs: seq<Value>): Ress {
    if vs == [] then Nothing else With(Val(vs[0]), Kept(vs[1..]))
  }

  lemma {:induction false} KeptForces(vs: seq<Value>, st: Store)
    ensures ForceAll(Kept(vs), st) == Some(vs)
  {
    if vs != [] { KeptForces(vs[1..], st); assert [vs[0]] + vs[1..] == vs; }
  }

  /** Nothing is left over, and the numbering of operations does not matter. */
  lemma {:induction false} AtOnceLeavesValues(g: Go, st: Store, calls: nat, n: nat, m: nat)
    ensures var r := Run(g, AtOnce, st, calls, n);
            SameRun(r, Run(g, AtOnce, st, calls, m)) && (r.res.Some? ==> r.res.value.Val?)
  {
    match g
    case Lit(_) =>
    case Pure(_, args) => AtOnceNumbers(args, st, calls, n, m);
    case Logic(both, left, right) =>
      AtOnceLeavesValues(left, st, calls, n, m);
      var l, k := Settled(Run(left, AtOnce, st, calls, n)), Settled(Run(left, AtOnce, st, calls, m));
      AtOnceLeavesValues(right, l.store, l.calls, l.next, k.next);
    case Invoke(_, operands) => AtOnceNumbers(operands, st, calls, n, m);
    case Boundary(inner) => AtOnceLeavesValues(inner, st, calls, n, m);
    case ShiftCount(inner) => AtOnceLeavesValues(inner, st, calls, n, m);
  }

  lemma {:induction false} AtOnceNumbers(gs: Gos, st: Store, calls: nat, n: nat, m: nat)
    ensures SameRuns(RunAll(gs, AtOnce, st, calls, n), RunAll(gs, AtOnce, st, calls, m))
  {
    if gs.More? {
      AtOnceLeavesValues(gs.head, st, calls, n, m);
      var r, q := Run(gs.head, AtOnce, st, calls, n), Run(gs.head, AtOnce, st, calls, m);
      AtOnceNumbers(gs.tail, r.store, r.calls, r.next, q.next);
    }
  }

  /** A snapshot changes nothing when every operation is done at once. */
  lemma {:induction false} SnapshotAtOnce(e: Expr, g: Go, st: Store, calls: nat, n: nat, m: nat)
    ensures SameRun(Run(Snapshot(e, g), AtOnce, st, calls, n), Run(g, AtOnce, st, calls, m))
    decreases e, g
  {
    AtOnceLeavesValues(g, st, calls, n, m);
    if e.Const? || e.NilLit? || e.Call? {
    } else if e.Node? && HasContextualShift(e) && g.Pure? && !g.op.Reads? {
      SnapshotAllAtOnce(e.args, g.args, st, calls, n, m);
      var args := SnapshotAll(e.args, g.args);
      if e.kind.Operator? && g.op.Shifts? && CheckCount(e.args, args) != args {
        CheckedShift(g.op, args.head, args.tail.head, st, calls, n);
      }
    } else if e.Logical? && HasContextualShift(e) && g.Logic? {
      SnapshotAtOnce(e.left, g.left, st, calls, n, m);
      var l, k := Settled(Run(Snapshot(e.left, g.left), AtOnce, st, calls, n)), Settled(Run(g.left, AtOnce, st, calls, m));
      SnapshotAtOnce(e.right, g.right, l.store, l.calls, l.next, k.next);
    }
  }

  lemma {:induction false} SnapshotAllAtOnce(es: Exprs, gs: Gos, st: Store, calls: nat, n: nat, m: nat)
    ensures SameRuns(RunAll(SnapshotAll(es, gs), AtOnce, st, calls, n), RunAll(gs, AtOnce, st, calls, m))
    decreases es, gs
  {
    if gs.More? {
      AtOnceLeavesValues(gs.head, st, calls, n, m);
      if es.Then? { SnapshotAtOnce(es.head, gs.head, st, calls, n, m); }
      var g := if es.Then? then Snapshot(es.head, gs.head) else Boundary(gs.head);
      var r, q := Run(g, AtOnce, st, calls, n), Run(gs.head, AtOnce, st, calls, m);
      SnapshotAllAtOnce(if es.Then? then es.tail else es, gs.tail, r.store, r.calls, r.next, q.next);
    }
  }

  /** Checking the count of a shift early only moves the failure the shift would have. */
  lemma CheckedShift(op: Op, l: Go, r: Go, st: Store, calls: nat, n: nat)
    requires op.Shifts?
    ensures SameRun(Run(Pure(op, More(l, More(ShiftCount(r), End))), AtOnce, st, calls, n), Run(Pure(op, More(l, More(r, End))), AtOnce, st, calls, n))
  {
    AtOnceLeavesValues(l, st, calls, n, n);
    var x := Run(l, AtOnce, st, calls, n);
    RunPair(l, r, AtOnce, st, calls, n);
    RunPair(l, ShiftCount(r), AtOnce, st, calls, n);
    if x.res.Some? {
      AtOnceLeavesValues(r, x.store, x.calls, x.next, x.next);
      var y := Run(r, AtOnce, x.store, x.calls, x.next);
      if y.res.Some? { ForcePair(x.res.value, y.res.value.v, y.store); }
    }
  }

  lemma RunPair(l: Go, r: Go, o: Schedule, st: Store, calls: nat, n: nat)
    ensures var x := Run(l, o, st, calls, n);
            var y := Run(r, o, x.store, x.calls, x.next);
            RunAll(More(l, More(r, End)), o, st, calls, n)
            == if x.res.None? then RanAll(x.store, x.calls, x.next, None)
               else RanAll(y.store, y.calls, y.next, if y.res.None? then None else Some(With(x.res.value, With(y.res.value, Nothing))))
  {
    var x := Run(l, o, st, calls, n);
    var y := Run(r, o, x.store, x.calls, x.next);
    assert RunAll(End, o, y.store, y.calls, y.next) == RanAll(y.store, y.calls, y.next, Some(Nothing));
    assert RunAll(More(r, End), o, x.store, x.calls, x.next)
        == RanAll(y.store, y.calls, y.next, if y.res.None? then None else Some(With(y.res.value, Nothing)));
  }

  ghost predicate Means(r: Ran, out: Out) {
    r.store == out.store && r.calls == out.calls && r.res == if out.value.None? then None else Some(Val(out.value.value))
  }

  ghost predicate MeansAll(r: RanAll, out: OutAll) {
    r.store == out.store && r.calls == out.calls && r.res == if out.values.None? then None else Some(Kept(out.values.value))
  }

  lemma {:induction false} AtOnceIsStrict(e: Expr, st: Store, calls: nat, next: nat)
    ensures Means(Run(Lowered(e), AtOnce, st, calls, next), Eval(e, st, calls))
  {
    match e
    case Const(_) =>
    case NilLit =>
    case Node(_, op, args) =>
      AtOnceIsStrictAll(args, st, calls, next);
      var a := EvalAll(args, st, calls);
      if a.values.Some? { KeptForces(a.values.value, a.store); }
    case Logical(both, l, r) =>
      AtOnceIsStrict(l, st, calls, next);
      SnapshotAtOnce(l, Lowered(l), st, calls, next, next);
      var g := if MayHaveEffects(r) then Snapshot(l, Lowered(l)) else Lowered(l);
      var x := Run(g, AtOnce, st, calls, next);
      AtOnceIsStrict(r, x.store, x.calls, x.next);
    case Call(fn, fixed, callee, args) =>
      AtOnceIsStrict(callee, st, calls, next);
      var c := Run(CalleeForm(e), AtOnce, st, calls, next);
      AtOnceIsStrictAll(args, c.store, c.calls, c.next);
      CallAtOnce(e, st, calls, next);
  }

  function CalleeForm(e: Expr): Go
    requires e.Call?
  {
    if !e.fixed && AnyEffects(e.args) then Boundary(Lowered(e.callee)) else Lowered(e.callee)
  }

  lemma CallAtOnce(e: Expr, st: Store, calls: nat, next: nat)
    requires e.Call? && Means(Run(Lowered(e.callee), AtOnce, st, calls, next), Eval(e.callee, st, calls))
    requires var c := Run(CalleeForm(e), AtOnce, st, calls, next);
             MeansAll(RunAll(OrderedList(e.args, LoweredAll(e.args)), AtOnce, c.store, c.calls, c.next), EvalAll(e.args, c.store, c.calls))
    ensures Means(Run(Lowered(e), AtOnce, st, calls, next), Eval(e, st, calls))
  {
    var c := Run(CalleeForm(e), AtOnce, st, calls, next);
    assert Means(c, Eval(e.callee, st, calls));
    var rest := OrderedList(e.args, LoweredAll(e.args));
    var operands := More(CalleeForm(e), rest);
    assert Lowered(e) == Invoke(e.fn, operands);
    var a := EvalAll(e.args, c.store, c.calls);
    if c.res.Some? && a.values.Some? {
      assert RunAll(operands, AtOnce, st, calls, next).res == Some(With(c.res.value, Kept(a.values.value)));
      KeptForces(a.values.value, a.store);
      assert ForceAll(With(c.res.value, Kept(a.values.value)), a.store) == Some([c.res.value.v] + a.values.value);
    }
  }

  lemma {:induction false} AtOnceIsStrictAll(es: Exprs, st: Store, calls: nat, next: nat)
    ensures MeansAll(RunAll(OrderedList(es, LoweredAll(es)), AtOnce, st, calls, next), EvalAll(es, st, calls))
  {
    if es.Then? {
      AtOnceIsStrict(es.head, st, calls, next);
      SnapshotAtOnce(es.head, Lowered(es.head), st, calls, next, next);
      var g := if AnyEffects(es.tail) then Snapshot(es.head, Lowered(es.head)) else Lowered(es.head);
      var r := Run(g, AtOnce, st, calls, next);
      AtOnceIsStrictAll(es.tail, r.store, r.calls, r.next);
      var vs := EvalAll(es.tail, r.store, r.calls).values;
      if r.res.Some? && vs.Some? { assert ([r.res.value.v] + vs.value)[1..] == vs.value; }
    }
  }

  // ----- the theorems -----

  predicate Agrees(r: Ran, out: Out) {
    r.store == out.store && r.calls == out.calls && Finish(r) == out.value
  }

  /** Whatever is postponed, the ordered form has a value exactly when strict evaluation has, and
      then the same value, store and calls. */
  lemma OrderedValue(e: Expr, o: Schedule, st: Store, calls: nat)
    requires Checked(e) && !FixedTwice(e)
    ensures var r := Run(Lowered(e), o, st, calls, 0);
            if Eval(e, st, calls).value.Some? then Agrees(r, Eval(e, st, calls)) else Finish(r).None?
  {
    LowerableExactly(e);
    LoweredOrdered(e, false);
    AtOnceIsStrict(e, st, calls, 0);
    LazierRuns(Lowered(e), false, AtOnce, o, st, calls, 0);
  }

  /** Under every schedule `l && r` and `l || r` give `l` up when it decides, without a call of `r`, and else
      `r`. Zero stands for false. */
  lemma ShortCircuits(both: bool, l: Expr, r: Expr, o: Schedule, st: Store, calls: nat)
    requires Checked(Logical(both, l, r)) && !FixedTwice(Logical(both, l, r)) && Eval(l, st, calls).value.Some?
    ensures var run, left := Run(Lowered(Logical(both, l, r)), o, st, calls, 0), Eval(l, st, calls);
            var right := Eval(r, left.store, left.calls);
            if (both && left.value == Some(Num(0))) || (!both && left.value != Some(Num(0))) then Agrees(run, left)
            else Finish(run) == right.value && (right.value.Some? ==> Agrees(run, right))
  {
    OrderedValue(Logical(both, l, r), o, st, calls);
  }

  /** Every schedule agrees with strict evaluation in store and calls, also when evaluation fails, exactly
      when the laziest one makes no other calls. */
  lemma LaziestDecides(e: Expr, st: Store, calls: nat)
    requires Checked(e) && Lowerable(e)
    ensures (forall o: Schedule :: Agrees(Run(Lowered(e), o, st, calls, 0), Eval(e, st, calls)))
            <==> Run(Lowered(e), AtTheEnd, st, calls, 0).calls == Eval(e, st, calls).calls
  {
    LoweredOrdered(e, false);
    AtOnceIsStrict(e, st, calls, 0);
    if Run(Lowered(e), AtTheEnd, st, calls, 0).calls == Eval(e, st, calls).calls {
      forall o: Schedule ensures Agrees(Run(Lowered(e), o, st, calls, 0), Eval(e, st, calls)) {
        LazierRuns(Lowered(e), false, AtOnce, o, st, calls, 0);
        LazierRuns(Lowered(e), false, o, AtTheEnd, st, calls, 0);
      }
    } else {
      assert !Agrees(Run(Lowered(e), AtTheEnd, st, calls, 0), Eval(e, st, calls));
    }
  }

  /** They all agree when no operator around a contextual shift can fail. */
  lemma OrderedWithoutPartialShifts(e: Expr, o: Schedule, st: Store, calls: nat)
    requires Checked(e) && !FixedTwice(e) && TotalShifts(e)
    ensures Agrees(Run(Lowered(e), o, st, calls, 0), Eval(e, st, calls))
  {
    LowerableExactly(e);
    LoweredOrdered(e, true);
    AtOnceIsStrict(e, st, calls, 0);
    LazierRuns(Lowered(e), true, AtOnce, o, st, calls, 0);
  }

  // ----- where the lowering falls short -----

  function Item(name: string): Expr {
    Node(Other, Reads((_, st: Store) => if name in st.vars then Some(st.vars[name]) else Some(Num(0))), NoMore)
  }

  function Quotient(vs: seq<Value>): Option<Value> {
    if |vs| == 2 && vs[0].Num? && vs[1].Num? && vs[1].n > 0 then Some(Num(vs[0].n / vs[1].n)) else None
  }

  function ShiftedOne(s: Expr): Expr {
    Node(Operator, Shifts((_: seq<Value>) => Num(1)), Then(Const(Num(1)), Then(s, NoMore)))
  }

  function Sum(l: Expr, r: Expr): Expr {
    Node(Operator, Totals((_: seq<Value>) => Num(0)), Then(l, Then(r, NoMore)))
  }

  function Ping(): Expr {
    Call((_, st: Store) => Applied(st.(trace := st.trace + [1]), Some(Num(0))), true, Const(Nil), NoMore)
  }

  lemma EvalPair(l: Expr, r: Expr, st: Store, calls: nat)
    ensures var x := Eval(l, st, calls);
            var y := Eval(r, x.store, x.calls);
            EvalAll(Then(l, Then(r, NoMore)), st, calls)
            == if x.value.None? then OutAll(x.store, x.calls, None)
               else OutAll(y.store, y.calls, if y.value.None? then None else Some([x.value.value, y.value.value]))
  {
    var x := Eval(l, st, calls);
    var y := Eval(r, x.store, x.calls);
    assert EvalAll(NoMore, y.store, y.calls) == OutAll(y.store, y.calls, Some([]));
    assert EvalAll(Then(r, NoMore), x.store, x.calls)
        == OutAll(y.store, y.calls, if y.value.None? then None else Some([y.value.value] + []));
    if x.value.Some? && y.value.Some? { assert [x.value.value] + ([y.value.value] + []) == [x.value.value, y.value.value]; }
  }

  lemma ItemRuns(name: string, st: Store, n: nat)
    requires name !in st.vars
    ensures Eval(Item(name), st, 0) == Out(st, 0, Some(Num(0)))
    ensures Run(Boundary(Lowered(Item(name))), AtTheEnd, st, 0, n) == Ran(st, 0, n + 1, Some(Val(Num(0))))
    ensures Run(ShiftCount(Boundary(Lowered(Item(name)))), AtTheEnd, st, 0, n) == Ran(st, 0, n + 1, Some(Val(Num(0))))
  {
    assert RunAll(End, AtTheEnd, st, 0, n) == RanAll(st, 0, n, Some(Nothing));
    assert ForceAll(Nothing, st) == Some([]);
    assert EvalAll(NoMore, st, 0) == OutAll(st, 0, Some([]));
  }

  lemma PingRuns(st: Store, n: nat)
    ensures Run(Lowered(Ping()), AtTheEnd, st, 0, n).store == st.(trace := st.trace + [1])
  {
    var operands := More(Lit(Nil), End);
    assert Lowered(Ping()) == Invoke(Ping().fn, operands);
    assert RunAll(End, AtTheEnd, st, 0, n) == RanAll(st, 0, n, Some(Nothing));
    assert RunAll(operands, AtTheEnd, st, 0, n).res == Some(With(Val(Nil), Nothing));
    assert ForceAll(Nothing, st) == Some([]);
    assert RunAll(operands, AtTheEnd, st, 0, n) == RanAll(st, 0, n, Some(With(Val(Nil), Nothing)));
    assert ForceAll(With(Val(Nil), Nothing), st) == Some([Nil] + []);
  }

  function QuotientOfShift(): Expr {
    Node(Operator, Computes(Quotient), Then(ShiftedOne(Item("s")), Then(Item("b"), NoMore)))
  }

  /** Fixing `(1 << s) / b` fixes `s` and `b`, and leaves the shift and the division to be done. */
  lemma QuotientIsLeft(st: Store)
    requires "b" !in st.vars && "s" !in st.vars
    ensures Eval(QuotientOfShift(), st, 0) == Out(st, 0, None)
    ensures var r := Run(Snapshot(QuotientOfShift(), Lowered(QuotientOfShift())), AtTheEnd, st, 0, 0);
            r.store == st && r.calls == 0 && r.res.Some?
  {
    hide Eval, EvalAll, Run, Snapshot, Lowered, QuotientOfShift;
    QuotientFails(st);
    QuotientStays(st);
  }

  lemma QuotientFails(st: Store)
    requires "b" !in st.vars && "s" !in st.vars
    ensures Eval(QuotientOfShift(), st, 0) == Out(st, 0, None)
  {
    var shifted := ShiftedOne(Item("s"));
    EvalPair(Const(Num(1)), Item("s"), st, 0);
    ItemRuns("s", st, 0);
    assert Eval(shifted, st, 0) == Out(st, 0, Some(Num(1)));
    EvalPair(shifted, Item("b"), st, 0);
    ItemRuns("b", st, 2);
  }

  lemma QuotientStays(st: Store)
    requires "b" !in st.vars && "s" !in st.vars
    ensures var r := Run(Snapshot(QuotientOfShift(), Lowered(QuotientOfShift())), AtTheEnd, st, 0, 0);
            r.store == st && r.calls == 0 && r.res.Some?
  {
    var shifted := ShiftedOne(Item("s"));
    ItemRuns("s", st, 0);
    ItemRuns("b", st, 2);
    var count := ShiftCount(Boundary(Lowered(Item("s"))));
    var shift := Pure(shifted.op, More(Lit(Num(1)), More(count, End)));
    assert Snapshot(shifted, Lowered(shifted)) == shift;
    RunPair(Lit(Num(1)), count, AtTheEnd, st, 0, 0);
    RunPair(shift, Boundary(Lowered(Item("b"))), AtTheEnd, st, 0, 0);
    var quotient := QuotientOfShift();
    assert Snapshot(quotient, Lowered(quotient)) == Pure(quotient.op, More(shift, More(Boundary(Lowered(Item("b"))), End)));
  }

  /** `(1 << s) / b + f()` with `b == 0`: strict evaluation fails before f, the lowered form may call
      f first, as the division around a contextual shift is not fixed. */
  lemma DivisionAfterShiftIsLate(st: Store)
    requires "b" !in st.vars && "s" !in st.vars
    ensures var e := Sum(QuotientOfShift(), Ping());
            && Eval(e, st, 0) == Out(st, 0, None)
            && Run(Lowered(e), AtTheEnd, st, 0, 0).store == st.(trace := st.trace + [1])
  {
    var quotient := QuotientOfShift();
    QuotientIsLeft(st);
    EvalPair(quotient, Ping(), st, 0);
    var first := Snapshot(quotient, Lowered(quotient));
    var e := Sum(quotient, Ping());
    assert Lowered(e) == Pure(e.op, More(first, More(Lowered(Ping()), End)));
    RunPair(first, Lowered(Ping()), AtTheEnd, st, 0, 0);
    PingRuns(st, Run(first, AtTheEnd, st, 0, 0).next);
  }

  /** `((1 << (1 << s)) + f()) + f()`: the inner left operand is fixed twice, and the second time its
      checked count is no longer the shift that the generator asserts it to be. */
  lemma NestedCountIsRefused()
    ensures var e := Sum(Sum(ShiftedOne(ShiftedOne(Item("s"))), Ping()), Ping()); Checked(e) && !Lowerable(e)
  {
    var count := ShiftedOne(Item("s"));
    var shift := ShiftedOne(count);
    var inner := Sum(shift, Ping());
    var e := Sum(inner, Ping());
    assert Checked(Item("s")) && Checked(count) && Checked(shift) && Checked(Ping()) && Checked(inner) && Checked(e);
    assert HasContextualShift(count) && HasContextualShift(shift) && HasContextualShift(inner);
    assert AnyEffects(Then(Ping(), NoMore));
    assert ContextualCount(shift.args) && Blocks(shift, true);
    assert BlocksAll(inner.args, false) && Blocks(inner, false);
    assert FixedTwiceAll(e.args);
    LowerableExactly(e);
  }
}
