/** What fixing leaves of an expression's Go form, and when the generator can do it. */
module OrderShapes {
  import opened Completions
  import opened OrderTarget
  import opened OrderLowering

  // ----- the generator's failure, on the source -----

  predicate ContextualCount(es: Exprs) {
    es.Then? && es.tail.Then? && HasContextualShift(es.tail.head)
  }

  /** Fixing `e` meets a count that is a contextual shift and has been checked before: `e` or something
      around it has been fixed, or an operand above the count, because of an effect to its right. */
  predicate Blocks(e: Expr, fixed: bool) {
    HasContextualShift(e)
    && match e
       case Node(_, op, args) => (fixed && op.Shifts? && ContextualCount(args)) || BlocksAll(args, fixed)
       case Logical(_, l, r) => Blocks(l, fixed || MayHaveEffects(r)) || Blocks(r, fixed)
       case _ => false
  }

  predicate BlocksAll(es: Exprs, fixed: bool) {
    es.Then? && (Blocks(es.head, fixed || AnyEffects(es.tail)) || BlocksAll(es.tail, fixed))
  }

  /** Some operand followed by an effect is such an expression. */
  predicate FixedTwice(e: Expr) {
    match e
    case Const(_) => false
    case NilLit => false
    case Node(_, _, args) => FixedTwiceAll(args)
    case Logical(_, l, r) => FixedTwice(l) || FixedTwice(r) || (MayHaveEffects(r) && Blocks(l, false))
    case Call(_, _, callee, args) => FixedTwice(callee) || FixedTwiceAll(args)
  }

  predicate FixedTwiceAll(es: Exprs) {
    es.Then? && (FixedTwice(es.head) || FixedTwiceAll(es.tail) || (AnyEffects(es.tail) && Blocks(es.head, false)))
  }

  // ----- forms -----

  /** `g` is the Go form of `e`, fixed at least once or not at all. */
  ghost predicate Shape(e: Expr, g: Go, fixed: bool)
    decreases e, g
  {
    match e
    case Const(v) => g == Lit(v)
    case NilLit => g == Lit(Nil)
    case Call(_, _, _, _) => g == Lowered(e)
    case Node(_, op, args) =>
      if HasContextualShift(e) then g.Pure? && g.op == op && if fixed && op.Shifts? then ShiftShape(args, g.args) else ShapeAll(args, g.args, fixed)
      else if fixed then g.Boundary? && (g.g == Lowered(e) || Shape(e, g.g, true)) else g == Lowered(e)
    case Logical(both, l, r) =>
      if HasContextualShift(e) then g.Logic? && g.both == both && Shape(l, g.left, fixed || MayHaveEffects(r)) && Shape(r, g.right, fixed)
      else if fixed then g.Boundary? && (g.g == Lowered(e) || Shape(e, g.g, true)) else g == Lowered(e)
  }

  ghost predicate ShapeAll(es: Exprs, gs: Gos, fixed: bool)
    decreases es, gs
  {
    match es
    case NoMore => gs.End?
    case Then(e, rest) => gs.More? && Shape(e, gs.head, fixed || AnyEffects(rest)) && ShapeAll(rest, gs.tail, fixed)
  }

  /** The operands of a fixed shift: a count that is not constant is checked. */
  ghost predicate ShiftShape(es: Exprs, gs: Gos)
    decreases es, gs
  {
    && es.Then? && es.tail.Then? && gs.More? && gs.tail.More? && gs.tail.tail.End?
    && Shape(es.head, gs.head, true)
    && if es.tail.head.Const? then gs.tail.head == Lit(es.tail.head.v) else CountShape(es.tail.head, gs.tail.head)
  }

  ghost predicate CountShape(e: Expr, g: Go)
    decreases e, g
  {
    g.ShiftCount? && (Shape(e, g.g, true) || CountShape(e, g.g) || (g.g.Boundary? && CountShape(e, g.g.g)))
  }

  lemma {:induction false} SnapshotShape(e: Expr, g: Go, fixed: bool)
    requires Checked(e) && Shape(e, g, fixed) && Fits(e, g)
    ensures Shape(e, Snapshot(e, g), true)
    decreases e
  {
    if e.Node? && HasContextualShift(e) {
      if fixed && e.op.Shifts? {
        RecheckedShape(e.args, g.args);
      } else {
        SnapshotShapeAll(e.args, g.args, fixed);
        if e.op.Shifts? { CheckedShape(e.args, SnapshotAll(e.args, g.args)); }
      }
    } else if e.Logical? && HasContextualShift(e) {
      SnapshotShape(e.left, g.left, fixed || MayHaveEffects(e.right));
      SnapshotShape(e.right, g.right, fixed);
    }
  }

  lemma {:induction false} SnapshotShapeAll(es: Exprs, gs: Gos, fixed: bool)
    requires CheckedAll(es) && ShapeAll(es, gs, fixed) && FitsAll(es, gs)
    ensures ShapeAll(es, SnapshotAll(es, gs), true)
    decreases es
  {
    if es.Then? {
      SnapshotShape(es.head, gs.head, fixed || AnyEffects(es.tail));
      SnapshotShapeAll(es.tail, gs.tail, fixed);
    }
  }

  lemma CheckedShape(es: Exprs, gs: Gos)
    requires es.Then? && es.tail.Then? && es.tail.tail.NoMore? && ShapeAll(es, gs, true)
    ensures ShiftShape(es, CheckCount(es, gs))
  {
    assert ShapeAll(es.tail, gs.tail, true);
    assert ShapeAll(NoMore, gs.tail.tail, true);
    assert Shape(es.tail.head, gs.tail.head, true);
    assert CountShape(es.tail.head, ShiftCount(gs.tail.head));
  }

  /** A checked count that is no contextual shift can be fixed and checked again. */
  lemma {:induction false} RecheckedShape(es: Exprs, gs: Gos)
    requires es.Then? && es.tail.Then? && es.tail.tail.NoMore? && CheckedAll(es) && ShiftShape(es, gs) && FitsAll(es, gs)
    ensures ShiftShape(es, CheckCount(es, SnapshotAll(es, gs)))
    decreases es, 0
  {
    var l, r := es.head, es.tail.head;
    assert FitsAll(es.tail, gs.tail);
    SnapshotShape(l, gs.head, true);
    assert SnapshotAll(es.tail.tail, gs.tail.tail) == End;
    assert SnapshotAll(es.tail, gs.tail) == More(Snapshot(r, gs.tail.head), End);
    assert SnapshotAll(es, gs) == More(Snapshot(l, gs.head), More(Snapshot(r, gs.tail.head), End));
    if !r.Const? {
      assert Fits(r, gs.tail.head) && !HasContextualShift(r);
      assert CountShape(r, ShiftCount(Snapshot(r, gs.tail.head)));
    }
  }

  lemma {:induction false} LoweredShape(e: Expr)
    requires Checked(e) && Lowerable(e)
    ensures Shape(e, Lowered(e), false)
  {
    if HasContextualShift(e) {
      match e
      case Node(_, _, args) => LoweredShapeAll(args);
      case Logical(_, l, r) =>
        LoweredShape(l);
        LoweredShape(r);
        if MayHaveEffects(r) { SnapshotShape(l, Lowered(l), false); }
    }
  }

  lemma {:induction false} LoweredShapeAll(es: Exprs)
    requires CheckedAll(es) && LowerableAll(es)
    ensures ShapeAll(es, OrderedList(es, LoweredAll(es)), false)
  {
    if es.Then? {
      LoweredShape(es.head);
      LoweredShapeAll(es.tail);
      if AnyEffects(es.tail) { SnapshotShape(es.head, Lowered(es.head), false); }
    }
  }

  // ----- when the type assertions hold -----

  lemma {:induction false} ShapeFits(e: Expr, g: Go, fixed: bool)
    requires Checked(e) && Shape(e, g, fixed)
    ensures Fits(e, g) <==> !Blocks(e, fixed)
    decreases e
  {
    if e.Node? && HasContextualShift(e) {
      if fixed && e.op.Shifts? { ShiftFits(e.args, g.args); } else { ShapeFitsAll(e.args, g.args, fixed); }
    } else if e.Logical? && HasContextualShift(e) {
      ShapeFits(e.left, g.left, fixed || MayHaveEffects(e.right));
      ShapeFits(e.right, g.right, fixed);
    }
  }

  lemma {:induction false} ShapeFitsAll(es: Exprs, gs: Gos, fixed: bool)
    requires CheckedAll(es) && ShapeAll(es, gs, fixed)
    ensures FitsAll(es, gs) <==> !BlocksAll(es, fixed)
    decreases es
  {
    if es.Then? {
      ShapeFits(es.head, gs.head, fixed || AnyEffects(es.tail));
      ShapeFitsAll(es.tail, gs.tail, fixed);
    }
  }

  lemma {:induction false} ShiftFits(es: Exprs, gs: Gos)
    requires es.Then? && es.tail.Then? && es.tail.tail.NoMore? && CheckedAll(es) && ShiftShape(es, gs)
    ensures FitsAll(es, gs) <==> !ContextualCount(es) && !BlocksAll(es, true)
    decreases es, 0
  {
    var l, r := es.head, es.tail.head;
    ShapeFits(l, gs.head, true);
    assert FitsAll(es.tail, gs.tail) <==> Fits(r, gs.tail.head) && FitsAll(NoMore, gs.tail.tail);
    assert FitsAll(NoMore, gs.tail.tail) && !BlocksAll(NoMore, true);
    assert BlocksAll(es.tail, true) <==> Blocks(r, true);
    assert Fits(r, gs.tail.head) <==> !HasContextualShift(r);
  }

  /** The generator's type assertions all hold exactly when no contextual shift whose count is itself
      one is fixed twice, and this can be read off the source. */
  lemma {:induction false} LowerableExactly(e: Expr)
    requires Checked(e)
    ensures Lowerable(e) <==> !FixedTwice(e)
  {
    match e
    case Const(_) =>
    case NilLit =>
    case Node(_, _, args) => LowerableExactlyAll(args);
    case Logical(_, l, r) =>
      LowerableExactly(l);
      LowerableExactly(r);
      if Lowerable(l) { LoweredShape(l); ShapeFits(l, Lowered(l), false); }
    case Call(_, _, callee, args) => LowerableExactly(callee); LowerableExactlyAll(args);
  }

  lemma {:induction false} LowerableExactlyAll(es: Exprs)
    requires CheckedAll(es)
    ensures LowerableAll(es) <==> !FixedTwiceAll(es)
  {
    if es.Then? {
      LowerableExactly(es.head);
      LowerableExactlyAll(es.tail);
      if Lowerable(es.head) { LoweredShape(es.head); ShapeFits(es.head, Lowered(es.head), false); }
    }
  }

  /** In particular when no shift count is itself a contextual shift. */
  lemma {:induction false} PlainCountsLower(e: Expr)
    requires PlainCounts(e)
    ensures !FixedTwice(e) && !Blocks(e, true) && !Blocks(e, false)
  {
    match e
    case Const(_) =>
    case NilLit =>
    case Node(_, _, args) => PlainCountsLowerAll(args);
    case Logical(_, l, r) => PlainCountsLower(l); PlainCountsLower(r);
    case Call(_, _, callee, args) => PlainCountsLower(callee); PlainCountsLowerAll(args);
  }

  lemma {:induction false} PlainCountsLowerAll(es: Exprs)
    requires PlainCountsAll(es)
    ensures !FixedTwiceAll(es) && !BlocksAll(es, true) && !BlocksAll(es, false)
  {
    if es.Then? { PlainCountsLower(es.head); PlainCountsLowerAll(es.tail); }
  }
}
