/** How Go may evaluate an expression: calls and logical operators in order, everything else any
    time from its own position on, as a schedule decides. */
module OrderTarget {
  import opened Completions

  /** `Reads` depends on memory; the other operations only on their operands. A shift fails on a
      negative count; `Computes` may fail otherwise, as a division does. */
  datatype Op =
    | Reads(read: (seq<Value>, Store) -> Option<Value>)
    | Computes(compute: seq<Value> -> Option<Value>)
    | Totals(total: seq<Value> -> Value)
    | Shifts(shift: seq<Value> -> Value)

  predicate Negative(v: Value) {
    v.Num? && v.n < 0
  }

  function Apply(op: Op, vs: seq<Value>, st: Store): Option<Value> {
    match op
    case Reads(f) => f(vs, st)
    case Computes(f) => f(vs)
    case Totals(f) => Some(f(vs))
    case Shifts(f) => if |vs| == 2 && Negative(vs[1]) then None else Some(f(vs))
  }

  datatype Applied = Applied(store: Store, value: Option<Value>)

  /** What a call does, given the callee and the arguments. */
  type Function = (seq<Value>, Store) -> Applied

  datatype Go =
    | Lit(v: Value)
    | Pure(op: Op, args: Gos)
    | Logic(both: bool, left: Go, right: Go)
    | Invoke(fn: Function, operands: Gos)
    | Boundary(g: Go)
    | ShiftCount(g: Go)

  datatype Gos = End | More(head: Go, tail: Gos)

  // ----- residuals -----

  /** What is left of an operand: its value, or an operation still to be done. */
  datatype Res = Val(v: Value) | Later(op: Op, args: Ress)

  datatype Ress = Nothing | With(head: Res, tail: Ress)

  function Force(r: Res, st: Store): Option<Value> {
    match r
    case Val(v) => Some(v)
    case Later(op, args) =>
      var vs := ForceAll(args, st);
      if vs.None? then None else Apply(op, vs.value, st)
  }

  function ForceAll(rs: Ress, st: Store): Option<seq<Value>> {
    match rs
    case Nothing => Some([])
    case With(r, rest) =>
      var v := Force(r, st);
      var vs := ForceAll(rest, st);
      if v.None? || vs.None? then None else Some([v.value] + vs.value)
  }

  // ----- evaluation -----

  /** `Schedule(i)` says whether the i-th operation reached is done at once. */
  type Schedule = nat -> bool

  /** `calls` counts the calls made so far; no result means that the evaluation has failed. */
  datatype Ran = Ran(store: Store, calls: nat, next: nat, res: Option<Res>)
  datatype RanAll = RanAll(store: Store, calls: nat, next: nat, res: Option<Ress>)

  function Finish(r: Ran): Option<Value> {
    if r.res.None? then None else Force(r.res.value, r.store)
  }

  function FinishAll(r: RanAll): Option<seq<Value>> {
    if r.res.None? then None else ForceAll(r.res.value, r.store)
  }

  function Settled(r: Ran): Ran {
    var v := Finish(r);
    r.(res := if v.None? then None else Some(Val(v.value)))
  }

  /** `false && …` and `true || …` need no right operand. */
  predicate Decides(both: bool, v: Value) {
    (v == Num(0)) == both
  }

  function Run(g: Go, o: Schedule, st: Store, calls: nat, next: nat): Ran {
    match g
    case Lit(v) => Ran(st, calls, next, Some(Val(v)))
    case Pure(op, args) =>
      var a := RunAll(args, o, st, calls, next);
      if a.res.None? then Ran(a.store, a.calls, a.next, None) else
      var pending := Ran(a.store, a.calls, a.next + 1, Some(Later(op, a.res.value)));
      if o(a.next) then Settled(pending) else pending
    case Logic(both, left, right) =>
      var l := Settled(Run(left, o, st, calls, next));
      if l.res.None? || Decides(both, l.res.value.v) then l
      else Settled(Run(right, o, l.store, l.calls, l.next))
    case Invoke(fn, operands) => Called(fn, RunAll(operands, o, st, calls, next))
    case Boundary(inner) => Settled(Run(inner, o, st, calls, next))
    case ShiftCount(inner) => Counted(Run(inner, o, st, calls, next))
  }

  function Called(fn: Function, a: RanAll): Ran {
    var vs := FinishAll(a);
    if vs.None? then Ran(a.store, a.calls, a.next, None) else
    var r := fn(vs.value, a.store);
    Ran(r.store, a.calls + 1, a.next, if r.value.None? then None else Some(Val(r.value.value)))
  }

  function Counted(r: Ran): Ran {
    var n := Settled(r);
    if n.res.Some? && Negative(n.res.value.v) then n.(res := None) else n
  }

  function RunAll(gs: Gos, o: Schedule, st: Store, calls: nat, next: nat): RanAll {
    match gs
    case End => RanAll(st, calls, next, Some(Nothing))
    case More(g, rest) =>
      var r := Run(g, o, st, calls, next);
      if r.res.None? then RanAll(r.store, r.calls, r.next, None) else
      var rs := RunAll(rest, o, r.store, r.calls, r.next);
      if rs.res.None? then rs else rs.(res := Some(With(r.res.value, rs.res.value)))
  }

  // ----- forms that schedules cannot tell apart -----

  /** Makes no call. */
  predicate Quiet(g: Go) {
    match g
    case Lit(_) => true
    case Pure(_, args) => QuietAll(args)
    case Logic(_, l, r) => Quiet(l) && Quiet(r)
    case Invoke(_, _) => false
    case Boundary(inner) => Quiet(inner)
    case ShiftCount(inner) => Quiet(inner)
  }

  predicate QuietAll(gs: Gos) {
    gs.More? ==> Quiet(gs.head) && QuietAll(gs.tail)
  }

  /** Leaves nothing behind that reads memory. */
  predicate Steady(g: Go) {
    match g
    case Pure(op, args) => !op.Reads? && SteadyAll(args)
    case _ => true
  }

  predicate SteadyAll(gs: Gos) {
    gs.More? ==> Steady(gs.head) && SteadyAll(gs.tail)
  }

  /** Leaves nothing behind that can still fail. */
  predicate Firm(g: Go) {
    match g
    case Pure(op, args) =>
      (op.Totals? && FirmAll(args)) ||
      (op.Shifts? && args.More? && Firm(args.head) && args.tail.More? && args.tail.tail.End?
       && (args.tail.head.ShiftCount? || (args.tail.head.Lit? && !Negative(args.tail.head.v))))
    case _ => true
  }

  predicate FirmAll(gs: Gos) {
    gs.More? ==> Firm(gs.head) && FirmAll(gs.tail)
  }

  /** Whatever is followed by a call leaves nothing to be read after it (`strict`: nor to fail). */
  predicate Ordered(g: Go, strict: bool) {
    match g
    case Lit(_) => true
    case Pure(_, args) => OrderedAll(args, strict)
    case Logic(_, l, r) => Ordered(l, strict) && Ordered(r, strict)
    case Invoke(_, operands) => OrderedAll(operands, strict)
    case Boundary(inner) => Ordered(inner, strict)
    case ShiftCount(inner) => Ordered(inner, strict)
  }

  predicate OrderedAll(gs: Gos, strict: bool) {
    gs.More? ==>
      && Ordered(gs.head, strict) && OrderedAll(gs.tail, strict)
      && (QuietAll(gs.tail) || (Steady(gs.head) && (strict ==> Firm(gs.head))))
  }

  // ----- calls, quiet forms and residuals -----

  /** The store changes only in calls. */
  lemma {:induction false} OnlyCallsChange(g: Go, o: Schedule, st: Store, calls: nat, next: nat)
    ensures var r := Run(g, o, st, calls, next); r.calls >= calls && (r.calls == calls ==> r.store == st)
  {
    match g
    case Lit(_) =>
    case Pure(_, args) => OnlyCallsChangeAll(args, o, st, calls, next);
    case Logic(both, left, right) =>
      OnlyCallsChange(left, o, st, calls, next);
      var l := Settled(Run(left, o, st, calls, next));
      OnlyCallsChange(right, o, l.store, l.calls, l.next);
    case Invoke(_, operands) => OnlyCallsChangeAll(operands, o, st, calls, next);
    case Boundary(inner) => OnlyCallsChange(inner, o, st, calls, next);
    case ShiftCount(inner) => OnlyCallsChange(inner, o, st, calls, next);
  }

  lemma {:induction false} OnlyCallsChangeAll(gs: Gos, o: Schedule, st: Store, calls: nat, next: nat)
    ensures var r := RunAll(gs, o, st, calls, next); r.calls >= calls && (r.calls == calls ==> r.store == st)
  {
    if gs.More? {
      OnlyCallsChange(gs.head, o, st, calls, next);
      var r := Run(gs.head, o, st, calls, next);
      OnlyCallsChangeAll(gs.tail, o, r.store, r.calls, r.next);
    }
  }

  lemma {:induction false} QuietRun(g: Go, o: Schedule, st: Store, calls: nat, next: nat)
    requires Quiet(g)
    ensures var r := Run(g, o, st, calls, next); r.calls == calls && r.store == st
  {
    match g
    case Lit(_) =>
    case Pure(_, args) => QuietRunAll(args, o, st, calls, next);
    case Logic(both, left, right) =>
      QuietRun(left, o, st, calls, next);
      QuietRun(right, o, st, calls, Run(left, o, st, calls, next).next);
    case Boundary(inner) => QuietRun(inner, o, st, calls, next);
    case ShiftCount(inner) => QuietRun(inner, o, st, calls, next);
  }

  lemma {:induction false} QuietRunAll(gs: Gos, o: Schedule, st: Store, calls: nat, next: nat)
    requires QuietAll(gs)
    ensures var r := RunAll(gs, o, st, calls, next); r.calls == calls && r.store == st
  {
    if gs.More? {
      QuietRun(gs.head, o, st, calls, next);
      QuietRunAll(gs.tail, o, st, calls, Run(gs.head, o, st, calls, next).next);
    }
  }

  predicate Stable(r: Res) {
    r.Val? || (!r.op.Reads? && StableAll(r.args))
  }

  predicate StableAll(rs: Ress) {
    rs.With? ==> Stable(rs.head) && StableAll(rs.tail)
  }

  lemma {:induction false} StableForce(r: Res, s1: Store, s2: Store)
    requires Stable(r)
    ensures Force(r, s1) == Force(r, s2)
  {
    if r.Later? { StableForceAll(r.args, s1, s2); }
  }

  lemma {:induction false} StableForceAll(rs: Ress, s1: Store, s2: Store)
    requires StableAll(rs)
    ensures ForceAll(rs, s1) == ForceAll(rs, s2)
  {
    if rs.With? { StableForce(rs.head, s1, s2); StableForceAll(rs.tail, s1, s2); }
  }

  lemma {:induction false} SteadyRun(g: Go, o: Schedule, st: Store, calls: nat, next: nat)
    requires Steady(g)
    ensures var r := Run(g, o, st, calls, next); r.res.Some? ==> Stable(r.res.value)
  {
    if g.Pure? { SteadyRunAll(g.args, o, st, calls, next); }
  }

  lemma {:induction false} SteadyRunAll(gs: Gos, o: Schedule, st: Store, calls: nat, next: nat)
    requires SteadyAll(gs)
    ensures var r := RunAll(gs, o, st, calls, next); r.res.Some? ==> StableAll(r.res.value)
  {
    if gs.More? {
      SteadyRun(gs.head, o, st, calls, next);
      var r := Run(gs.head, o, st, calls, next);
      SteadyRunAll(gs.tail, o, r.store, r.calls, r.next);
    }
  }

  lemma ForcePair(r: Res, v: Value, st: Store)
    ensures var f := Force(r, st); ForceAll(With(r, With(Val(v), Nothing)), st) == if f.None? then None else Some([f.value, v])
  {
    assert ForceAll(With(Val(v), Nothing), st) == Some([v] + []);
    assert [v] + [] == [v];
    if Force(r, st).Some? { assert [Force(r, st).value] + [v] == [Force(r, st).value, v]; }
  }

  /** A firm form that has been evaluated has its value, in any store. */
  lemma {:induction false} FirmRun(g: Go, o: Schedule, st: Store, calls: nat, next: nat, later: Store)
    requires Firm(g)
    ensures var r := Run(g, o, st, calls, next); r.res.Some? ==> Force(r.res.value, later).Some?
  {
    if g.Pure? {
      var a := RunAll(g.args, o, st, calls, next);
      if g.op.Totals? {
        FirmRunAll(g.args, o, st, calls, next, later);
      } else {
        var l, r := g.args.head, g.args.tail.head;
        FirmRun(l, o, st, calls, next, later);
        var first := Run(l, o, st, calls, next);
        if a.res.Some? {
          var rest := RunAll(g.args.tail, o, first.store, first.calls, first.next);
          var second := Run(r, o, first.store, first.calls, first.next);
          assert RunAll(End, o, second.store, second.calls, second.next).res == Some(Nothing);
          assert a.res.value == With(first.res.value, With(second.res.value, Nothing));
          assert !Negative(second.res.value.v);
          ForcePair(first.res.value, second.res.value.v, later);
        }
      }
    }
  }

  lemma {:induction false} FirmRunAll(gs: Gos, o: Schedule, st: Store, calls: nat, next: nat, later: Store)
    requires FirmAll(gs)
    ensures var r := RunAll(gs, o, st, calls, next); r.res.Some? ==> ForceAll(r.res.value, later).Some?
  {
    if gs.More? {
      FirmRun(gs.head, o, st, calls, next, later);
      var r := Run(gs.head, o, st, calls, next);
      FirmRunAll(gs.tail, o, r.store, r.calls, r.next, later);
    }
  }
}
