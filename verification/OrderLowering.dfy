/** Source expressions, their strict left-to-right meaning, and the ordered Go form. */
module OrderLowering {
  import opened Completions
  import opened OrderTarget

  /** `Const` is any Go constant expression, as Go folds it. `Operator`: unary and binary arithmetic.
      `Builtin`: min, max, complex, real, imag. `Other`: variables, fields, elements, slices,
      conversions, lengths, closures and composite literals. */
  datatype Kind = Operator | Builtin | Other

  datatype Expr =
    | Const(v: Value)
    | NilLit
    | Node(kind: Kind, op: Op, args: Exprs)
    | Logical(both: bool, left: Expr, right: Expr)
    | Call(fn: Function, fixed: bool, callee: Expr, args: Exprs)

  datatype Exprs = NoMore | Then(head: Expr, tail: Exprs)

  // ----- strict evaluation -----

  datatype Out = Out(store: Store, calls: nat, value: Option<Value>)
  datatype OutAll = OutAll(store: Store, calls: nat, values: Option<seq<Value>>)

  function Eval(e: Expr, st: Store, calls: nat): Out {
    match e
    case Const(v) => Out(st, calls, Some(v))
    case NilLit => Out(st, calls, Some(Nil))
    case Node(_, op, args) =>
      var a := EvalAll(args, st, calls);
      Out(a.store, a.calls, if a.values.None? then None else Apply(op, a.values.value, a.store))
    case Logical(both, left, right) =>
      var l := Eval(left, st, calls);
      if l.value.None? || Decides(both, l.value.value) then l else Eval(right, l.store, l.calls)
    case Call(fn, _, callee, args) =>
      var c := Eval(callee, st, calls);
      if c.value.None? then c else
      var a := EvalAll(args, c.store, c.calls);
      if a.values.None? then Out(a.store, a.calls, None) else
      var r := fn([c.value.value] + a.values.value, a.store);
      Out(r.store, a.calls + 1, r.value)
  }

  function EvalAll(es: Exprs, st: Store, calls: nat): OutAll {
    match es
    case NoMore => OutAll(st, calls, Some([]))
    case Then(e, rest) =>
      var v := Eval(e, st, calls);
      if v.value.None? then OutAll(v.store, v.calls, None) else
      var vs := EvalAll(rest, v.store, v.calls);
      if vs.values.None? then vs else vs.(values := Some([v.value.value] + vs.values.value))
  }

  // ----- the lowering's judgements -----

  predicate MayHaveEffects(e: Expr) {
    match e
    case Const(_) => false
    case NilLit => false
    case Node(kind, _, args) => kind.Builtin? || AnyEffects(args)
    case Logical(_, l, r) => MayHaveEffects(l) || MayHaveEffects(r)
    case Call(_, _, _, _) => true
  }

  predicate AnyEffects(es: Exprs) {
    es.Then? && (MayHaveEffects(es.head) || AnyEffects(es.tail))
  }

  /** A runtime shift of a constant takes its type from around it. */
  predicate HasContextualShift(e: Expr) {
    match e
    case Node(kind, op, args) =>
      (kind.Operator? && op.Shifts? && args.Then? && args.head.Const?) || (!kind.Other? && AnyContextualShift(args))
    case Logical(_, l, r) => HasContextualShift(l) || HasContextualShift(r)
    case _ => false
  }

  predicate AnyContextualShift(es: Exprs) {
    es.Then? && (HasContextualShift(es.head) || AnyContextualShift(es.tail))
  }

  /** All parts of an expression that are evaluated with it. */
  function Subterms(e: Expr): seq<Expr> {
    match e
    case Node(_, _, args) => [e] + SubtermsAll(args)
    case Logical(_, l, r) => [e] + Subterms(l) + Subterms(r)
    case Call(_, _, callee, args) => [e] + Subterms(callee) + SubtermsAll(args)
    case _ => [e]
  }

  function SubtermsAll(es: Exprs): seq<Expr> {
    match es
    case NoMore => []
    case Then(e, rest) => Subterms(e) + SubtermsAll(rest)
  }

  /** A call, or a builtin such as `min`, which is taken for one. */
  predicate Calls(e: Expr) {
    e.Call? || (e.Node? && e.kind.Builtin?)
  }

  ghost predicate SomeCall(es: seq<Expr>) {
    exists i :: 0 <= i < |es| && Calls(es[i])
  }

  lemma SomeCallTogether(a: seq<Expr>, b: seq<Expr>)
    ensures SomeCall(a + b) <==> SomeCall(a) || SomeCall(b)
  {
    hide Calls;
    if i :| 0 <= i < |a| && Calls(a[i]) { assert (a + b)[i] == a[i]; }
    if i :| 0 <= i < |b| && Calls(b[i]) { assert (a + b)[|a| + i] == b[i]; }
  }

  lemma OneCall(e: Expr)
    ensures SomeCall([e]) <==> Calls(e)
  {
    assert [e][0] == e;
  }

  /** An expression may have effects exactly when some part of it is a call or a builtin. */
  lemma {:induction false} EffectsAreCalls(e: Expr)
    ensures MayHaveEffects(e) <==> SomeCall(Subterms(e))
  {
    hide SomeCall;
    OneCall(e);
    match e
    case Node(_, _, args) => EffectsAreCallsAll(args); SomeCallTogether([e], SubtermsAll(args));
    case Logical(_, l, r) =>
      EffectsAreCalls(l);
      EffectsAreCalls(r);
      SomeCallTogether([e], Subterms(l));
      SomeCallTogether([e] + Subterms(l), Subterms(r));
    case Call(_, _, callee, args) =>
      SomeCallTogether([e], Subterms(callee));
      SomeCallTogether([e] + Subterms(callee), SubtermsAll(args));
    case _ =>
  }

  lemma {:induction false} EffectsAreCallsAll(es: Exprs)
    ensures AnyEffects(es) <==> SomeCall(SubtermsAll(es))
  {
    if es.Then? {
      EffectsAreCalls(es.head);
      EffectsAreCallsAll(es.tail);
      SomeCallTogether(Subterms(es.head), SubtermsAll(es.tail));
    }
  }

  /** The parts that an expression hands its type down to: through operators and builtins, not into a call,
      an index or a conversion. */
  function Operands(e: Expr): seq<Expr> {
    match e
    case Node(kind, _, args) => [e] + if kind.Other? then [] else OperandsAll(args)
    case Logical(_, l, r) => [e] + Operands(l) + Operands(r)
    case _ => [e]
  }

  function OperandsAll(es: Exprs): seq<Expr> {
    match es
    case NoMore => []
    case Then(e, rest) => Operands(e) + OperandsAll(rest)
  }

  predicate ShiftsConstant(e: Expr) {
    e.Node? && e.kind.Operator? && e.op.Shifts? && e.args.Then? && e.args.head.Const?
  }

  ghost predicate SomeShift(es: seq<Expr>) {
    exists i :: 0 <= i < |es| && ShiftsConstant(es[i])
  }

  lemma SomeShiftTogether(a: seq<Expr>, b: seq<Expr>)
    ensures SomeShift(a + b) <==> SomeShift(a) || SomeShift(b)
  {
    hide ShiftsConstant;
    if i :| 0 <= i < |a| && ShiftsConstant(a[i]) { assert (a + b)[i] == a[i]; }
    if i :| 0 <= i < |b| && ShiftsConstant(b[i]) { assert (a + b)[|a| + i] == b[i]; }
  }

  lemma OneShift(e: Expr)
    ensures SomeShift([e]) <==> ShiftsConstant(e)
  {
    assert [e][0] == e;
  }

  /** A contextual shift is a runtime shift of a constant that takes its type from the expression. */
  lemma {:induction false} ContextualShiftsAre(e: Expr)
    ensures HasContextualShift(e) <==> SomeShift(Operands(e))
  {
    hide SomeShift;
    OneShift(e);
    match e
    case Node(kind, _, args) =>
      ContextualShiftsAreAll(args);
      SomeShiftTogether([e], OperandsAll(args));
      assert [e] + [] == [e];
    case Logical(_, l, r) =>
      ContextualShiftsAre(l);
      ContextualShiftsAre(r);
      SomeShiftTogether([e], Operands(l));
      SomeShiftTogether([e] + Operands(l), Operands(r));
    case _ =>
  }

  lemma {:induction false} ContextualShiftsAreAll(es: Exprs)
    ensures AnyContextualShift(es) <==> SomeShift(OperandsAll(es))
  {
    if es.Then? {
      ContextualShiftsAre(es.head);
      ContextualShiftsAreAll(es.tail);
      SomeShiftTogether(Operands(es.head), OperandsAll(es.tail));
    } else {
      NoShift();
    }
  }

  lemma NoShift()
    ensures !SomeShift([])
  {
  }

  // ----- the lowering -----

  /** snapshotOrderedValue: fix the value of `e`, whose Go form is `g`, at its position. The last
      branch stands for the generator's failed type assertion, see Fits. */
  function Snapshot(e: Expr, g: Go): Go
    decreases e, g
  {
    if e.Const? || e.NilLit? || e.Call? then g
    else if !HasContextualShift(e) then Boundary(g)
    else if e.Node? && g.Pure? && !g.op.Reads? then
      var args := SnapshotAll(e.args, g.args);
      Pure(g.op, if e.kind.Operator? && g.op.Shifts? then CheckCount(e.args, args) else args)
    else if e.Logical? && g.Logic? then Logic(g.both, Snapshot(e.left, g.left), Snapshot(e.right, g.right))
    else Boundary(g)
  }

  function SnapshotAll(es: Exprs, gs: Gos): Gos
    decreases es, gs
  {
    match gs
    case End => End
    case More(g, rest) =>
      if es.Then? then More(Snapshot(es.head, g), SnapshotAll(es.tail, rest)) else More(Boundary(g), SnapshotAll(es, rest))
  }

  function CheckCount(es: Exprs, gs: Gos): Gos {
    if es.Then? && es.tail.Then? && !es.tail.head.Const? && gs.More? && gs.tail.More? && gs.tail.tail.End?
    then More(gs.head, More(ShiftCount(gs.tail.head), End)) else gs
  }

  function Lowered(e: Expr): Go {
    match e
    case Const(v) => Lit(v)
    case NilLit => Lit(Nil)
    case Node(_, op, args) => Pure(op, OrderedList(args, LoweredAll(args)))
    case Logical(both, l, r) => Logic(both, if MayHaveEffects(r) then Snapshot(l, Lowered(l)) else Lowered(l), Lowered(r))
    case Call(fn, fixed, callee, args) =>
      Invoke(fn, More(if !fixed && AnyEffects(args) then Boundary(Lowered(callee)) else Lowered(callee),
                      OrderedList(args, LoweredAll(args))))
  }

  function LoweredAll(es: Exprs): Gos {
    match es
    case NoMore => End
    case Then(e, rest) => More(Lowered(e), LoweredAll(rest))
  }

  /** orderExpressionList: each value followed by an effect is fixed first. */
  function OrderedList(es: Exprs, gs: Gos): Gos
    decreases gs
  {
    if gs.End? || es.NoMore? then gs
    else More(if AnyEffects(es.tail) then Snapshot(es.head, gs.head) else gs.head, OrderedList(es.tail, gs.tail))
  }

  // ----- where the generator's type assertions hold -----

  /** Snapshot(e, g) finds the Go node it expects at every level. A count that has been checked is a
      call: as a count that is an operator it fails the type assertion at once, as a `min` or `max` in its
      operands or by their number. */
  ghost predicate Fits(e: Expr, g: Go)
    decreases e
  {
    match e
    case Const(v) => g == Lit(v)
    case NilLit => g == Lit(Nil) || g.ShiftCount?
    case Call(_, _, _, _) => g.Invoke? || g.ShiftCount?
    case Node(_, op, args) => HasContextualShift(e) ==> g.Pure? && g.op == op && FitsAll(args, g.args)
    case Logical(both, l, r) => HasContextualShift(e) ==> g.Logic? && Fits(l, g.left) && Fits(r, g.right)
  }

  ghost predicate FitsAll(es: Exprs, gs: Gos)
    decreases es
  {
    match es
    case NoMore => gs.End?
    case Then(e, rest) => gs.More? && Fits(e, gs.head) && FitsAll(rest, gs.tail)
  }

  /** No type assertion of the generator fails on `e`. */
  ghost predicate Lowerable(e: Expr) {
    match e
    case Const(_) => true
    case NilLit => true
    case Node(_, _, args) => LowerableAll(args)
    case Logical(_, l, r) => Lowerable(l) && Lowerable(r) && (MayHaveEffects(r) ==> Fits(l, Lowered(l)))
    case Call(_, _, callee, args) => Lowerable(callee) && LowerableAll(args)
  }

  ghost predicate LowerableAll(es: Exprs) {
    es.Then? ==> Lowerable(es.head) && LowerableAll(es.tail) && (AnyEffects(es.tail) ==> Fits(es.head, Lowered(es.head)))
  }

  /** What the checker guarantees: operators do not read memory, a shift has two operands and no
      constant negative count, and a fixed callee is a declaration. */
  predicate Checked(e: Expr) {
    match e
    case Const(_) => true
    case NilLit => true
    case Node(kind, op, args) =>
      && CheckedAll(args) && (!kind.Other? ==> !op.Reads?)
      && (op.Shifts? ==> kind.Operator? && args.Then? && args.tail.Then? && args.tail.tail.NoMore?
                         && (args.tail.head.Const? ==> !Negative(args.tail.head.v)))
    case Logical(_, l, r) => Checked(l) && Checked(r)
    case Call(_, fixed, callee, args) => Checked(callee) && CheckedAll(args) && (fixed ==> callee.Const?)
  }

  predicate CheckedAll(es: Exprs) {
    es.Then? ==> Checked(es.head) && CheckedAll(es.tail)
  }

  /** No shift count is itself a contextual shift. */
  predicate PlainCounts(e: Expr) {
    match e
    case Const(_) => true
    case NilLit => true
    case Node(_, op, args) =>
      PlainCountsAll(args) && (op.Shifts? && args.Then? && args.tail.Then? ==> !HasContextualShift(args.tail.head))
    case Logical(_, l, r) => PlainCounts(l) && PlainCounts(r)
    case Call(_, _, callee, args) => PlainCounts(callee) && PlainCountsAll(args)
  }

  predicate PlainCountsAll(es: Exprs) {
    es.Then? ==> PlainCounts(es.head) && PlainCountsAll(es.tail)
  }

  /** No operator around a contextual shift can fail, other than a shift. */
  predicate TotalShifts(e: Expr) {
    match e
    case Const(_) => true
    case NilLit => true
    case Node(_, op, args) => TotalShiftsAll(args) && (HasContextualShift(e) ==> op.Totals? || op.Shifts?)
    case Logical(_, l, r) => TotalShifts(l) && TotalShifts(r)
    case Call(_, _, callee, args) => TotalShifts(callee) && TotalShiftsAll(args)
  }

  predicate TotalShiftsAll(es: Exprs) {
    es.Then? ==> TotalShifts(es.head) && TotalShiftsAll(es.tail)
  }
}
