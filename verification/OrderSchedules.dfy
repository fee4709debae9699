/** Two schedules on the same ordered form. */
module OrderSchedules {
  import opened Completions
  import opened OrderTarget

  /** `a` does at once whatever `b` does at once. */
  ghost predicate Keener(a: Schedule, b: Schedule) {
    forall i :: b(i) ==> a(i)
  }

  /** The keener run `x` is a prefix of the lazier run `y`: if it has not failed, both did the same
      calls and what is left has the same value; if it has, the lazier one fails too, if later. */
  predicate Prefix(x: Ran, y: Ran) {
    if x.res.Some? then
      y.res.Some? && y.store == x.store && y.calls == x.calls && y.next == x.next
      && Force(y.res.value, x.store) == Force(x.res.value, x.store)
    else
      Finish(y).None? && x.calls <= y.calls && (x.calls == y.calls ==> x.store == y.store)
  }

  predicate PrefixAll(x: RanAll, y: RanAll) {
    if x.res.Some? then
      y.res.Some? && y.store == x.store && y.calls == x.calls && y.next == x.next
      && ForceAll(y.res.value, x.store) == ForceAll(x.res.value, x.store)
    else
      FinishAll(y).None? && x.calls <= y.calls && (x.calls == y.calls ==> x.store == y.store)
  }

  lemma PrefixSettled(x: Ran, y: Ran)
    requires Prefix(x, y)
    ensures Prefix(Settled(x), Settled(y)) && Prefix(Counted(x), Counted(y))
    ensures Settled(x).res.None? ==> Settled(y).res.None?
  {
  }

  /** Reading later gives the same value, in every ordered form. */
  lemma {:induction false} LazierRuns(g: Go, strict: bool, a: Schedule, b: Schedule, st: Store, calls: nat, next: nat)
    requires Ordered(g, strict) && Keener(a, b)
    ensures Prefix(Run(g, a, st, calls, next), Run(g, b, st, calls, next))
    ensures strict ==> Run(g, a, st, calls, next).calls == Run(g, b, st, calls, next).calls
  {
    var x, y := Run(g, a, st, calls, next), Run(g, b, st, calls, next);
    match g
    case Lit(_) =>
    case Pure(op, args) =>
      LazierRunsAll(args, strict, a, b, st, calls, next);
    case Logic(both, left, right) =>
      LazierRuns(left, strict, a, b, st, calls, next);
      var l, m := Run(left, a, st, calls, next), Run(left, b, st, calls, next);
      PrefixSettled(l, m);
      if Settled(l).res.Some? && !Decides(both, Settled(l).res.value.v) {
        LazierRuns(right, strict, a, b, l.store, l.calls, l.next);
        PrefixSettled(Run(right, a, l.store, l.calls, l.next), Run(right, b, l.store, l.calls, l.next));
      }
    case Invoke(fn, operands) =>
      LazierRunsAll(operands, strict, a, b, st, calls, next);
    case Boundary(inner) =>
      LazierRuns(inner, strict, a, b, st, calls, next);
      PrefixSettled(Run(inner, a, st, calls, next), Run(inner, b, st, calls, next));
    case ShiftCount(inner) =>
      LazierRuns(inner, strict, a, b, st, calls, next);
      PrefixSettled(Run(inner, a, st, calls, next), Run(inner, b, st, calls, next));
  }

  lemma {:induction false} LazierRunsAll(gs: Gos, strict: bool, a: Schedule, b: Schedule, st: Store, calls: nat, next: nat)
    requires OrderedAll(gs, strict) && Keener(a, b)
    ensures PrefixAll(RunAll(gs, a, st, calls, next), RunAll(gs, b, st, calls, next))
    ensures strict ==> RunAll(gs, a, st, calls, next).calls == RunAll(gs, b, st, calls, next).calls
  {
    if gs.More? {
      LazierRuns(gs.head, strict, a, b, st, calls, next);
      var x, y := Run(gs.head, a, st, calls, next), Run(gs.head, b, st, calls, next);
      if x.res.Some? {
        LazierRunsAll(gs.tail, strict, a, b, x.store, x.calls, x.next);
        LazierTail(gs, a, b, st, calls, next);
      } else if y.res.Some? {
        LateFailure(gs, b, st, calls, next);
        if strict && !QuietAll(gs.tail) { FirmRun(gs.head, b, st, calls, next, y.store); }
        if QuietAll(gs.tail) { QuietRunAll(gs.tail, b, y.store, y.calls, y.next); }
      }
    }
  }

  /** The first operand's residual still has its value after the others. */
  lemma LazierTail(gs: Gos, a: Schedule, b: Schedule, st: Store, calls: nat, next: nat)
    requires gs.More? && (QuietAll(gs.tail) || Steady(gs.head))
    requires Prefix(Run(gs.head, a, st, calls, next), Run(gs.head, b, st, calls, next)) && Run(gs.head, a, st, calls, next).res.Some?
    requires var x := Run(gs.head, a, st, calls, next);
             PrefixAll(RunAll(gs.tail, a, x.store, x.calls, x.next), RunAll(gs.tail, b, x.store, x.calls, x.next))
    ensures PrefixAll(RunAll(gs, a, st, calls, next), RunAll(gs, b, st, calls, next))
  {
    var x, y := Run(gs.head, a, st, calls, next), Run(gs.head, b, st, calls, next);
    var xs := RunAll(gs.tail, a, x.store, x.calls, x.next);
    if xs.res.Some? {
      if QuietAll(gs.tail) {
        QuietRunAll(gs.tail, a, x.store, x.calls, x.next);
      } else {
        SteadyRun(gs.head, a, st, calls, next);
        SteadyRun(gs.head, b, st, calls, next);
        StableForce(x.res.value, x.store, xs.store);
        StableForce(y.res.value, x.store, xs.store);
      }
    }
  }

  /** A failure that has been put off is not forgotten. */
  lemma LateFailure(gs: Gos, b: Schedule, st: Store, calls: nat, next: nat)
    requires gs.More? && (QuietAll(gs.tail) || Steady(gs.head))
    requires var y := Run(gs.head, b, st, calls, next); y.res.Some? && Finish(y).None?
    ensures var y := Run(gs.head, b, st, calls, next); var ys := RunAll(gs, b, st, calls, next);
            FinishAll(ys).None? && y.calls <= ys.calls && (y.calls == ys.calls ==> y.store == ys.store)
  {
    var y := Run(gs.head, b, st, calls, next);
    OnlyCallsChangeAll(gs.tail, b, y.store, y.calls, y.next);
    var ys := RunAll(gs.tail, b, y.store, y.calls, y.next);
    if QuietAll(gs.tail) {
      QuietRunAll(gs.tail, b, y.store, y.calls, y.next);
    } else {
      SteadyRun(gs.head, b, st, calls, next);
      StableForce(y.res.value, y.store, ys.store);
    }
  }
}
