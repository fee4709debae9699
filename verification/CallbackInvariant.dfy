/** What holds in every reachable state of the callback and handle protocol. */
module CallbackInvariant {
  import opened Completions
  import opened LockPlan
  import opened CallbackProtocol

  // ----- one registration -----

  /** The first `n` inputs have been freed, once each, and no other. */
  predicate FreedTo(reg: Registration, n: nat) {
    forall i :: 0 <= i < |reg.frees| ==> reg.frees[i] == if i < n then 1 else 0
  }

  /** Every input was allocated and none freed; the context is alive. */
  predicate Intact(reg: Registration) {
    reg.created && !reg.deleted && !reg.closed && reg.obtained == |reg.frees| && FreedTo(reg, 0)
  }

  predicate Usable(reg: Registration) {
    Intact(reg) && reg.registered && !reg.callbacks.closing
  }

  /** No callback is admitted, none will be, and the context is gone. */
  predicate Dead(reg: Registration) {
    reg.deleted && reg.callbacks.closing && reg.callbacks.inFlight == 0
  }

  predicate Finished(reg: Registration) {
    Dead(reg) && reg.created && reg.registered && reg.closed && reg.obtained == |reg.frees| && FreedTo(reg, |reg.frees|)
  }

  predicate Failed(reg: Registration) {
    && !reg.registered && !reg.closed && FreedTo(reg, reg.obtained)
    && (if reg.created then Dead(reg) else !reg.deleted && reg.callbacks.inFlight == 0)
  }

  predicate Resting(reg: Registration) {
    if reg.published then Usable(reg) || Finished(reg) else Failed(reg)
  }

  predicate LocksOk(serialized: bool, phase: Phase, global: bool, locked: nat, plan: seq<nat>) {
    && locked <= |plan| && Increasing(plan)
    && (global <==> serialized && (phase.WantHandles? || phase.Native? || phase.DropHandles? || phase.DropGlobal?))
    && (phase.Native? ==> locked == |plan|)
    && (locked != 0 ==> phase.WantHandles? || phase.Native? || phase.DropHandles? || phase.Relocking? || phase.Redropping?)
  }

  predicate RegisterOk(reg: Registration) {
    var d := reg.drive;
    !reg.published && !reg.closed &&
    match d.phase
    case Preparing => !reg.created && !reg.registered && !reg.deleted && !reg.callbacks.closing && reg.callbacks.inFlight == 0 && FreedTo(reg, 0) && d.cursor == 0
    case WantGlobal => Intact(reg) && !reg.registered && !reg.callbacks.closing && d.cursor == 0
    case WantHandles => Intact(reg) && !reg.registered && !reg.callbacks.closing && d.cursor == 0
    case Native => Intact(reg) && !reg.registered && !reg.callbacks.closing && d.cursor == 0
    case DropHandles => Intact(reg) && reg.registered == d.ok && !reg.callbacks.closing && d.cursor == 0
    case DropGlobal => Intact(reg) && reg.registered == d.ok && !reg.callbacks.closing && d.cursor == 0
    case Settled => Intact(reg) && reg.registered == d.ok && !reg.callbacks.closing && d.cursor == 0
    case Stopping => Intact(reg) && !reg.registered && d.cursor == 0
    case Draining => Intact(reg) && !reg.registered && reg.callbacks.closing && d.cursor == 0
    case Deleting => Intact(reg) && !reg.registered && reg.callbacks.closing && reg.callbacks.inFlight == 0 && d.cursor == 0
    case Freeing =>
      && !reg.registered && d.cursor <= reg.obtained && FreedTo(reg, d.cursor)
      && (if reg.created then Dead(reg) else !reg.deleted && reg.callbacks.inFlight == 0)
    case _ => false
  }

  predicate CloseOk(reg: Registration) {
    var d := reg.drive;
    reg.published && reg.registered && reg.created &&
    match d.phase
    case Checking => (Usable(reg) || Finished(reg)) && d.cursor == 0
    case Leaving => Usable(reg) || Finished(reg)
    case Relocking => Intact(reg) && reg.callbacks.closing && reg.callbacks.inFlight == 0 && d.cursor == 0
    case Redropping => Intact(reg) && reg.callbacks.closing && reg.callbacks.inFlight == 0 && d.cursor == 0
    case Freeing =>
      && !reg.deleted && !reg.closed && reg.callbacks.closing && reg.callbacks.inFlight == 0
      && reg.obtained == |reg.frees| && d.cursor <= reg.obtained && FreedTo(reg, d.cursor)
    case Deleting =>
      && !reg.deleted && !reg.closed && reg.callbacks.closing && reg.callbacks.inFlight == 0
      && reg.obtained == |reg.frees| && FreedTo(reg, reg.obtained)
    case Preparing => false
    case Stopping => false
    case _ => Intact(reg) && reg.callbacks.closing && d.cursor == 0
  }

  predicate RegOk(reg: Registration, serialized: bool) {
    && reg.obtained <= |reg.frees| && Increasing(reg.plan)
    && if reg.driver.None? then Resting(reg)
       else LocksOk(serialized, reg.drive.phase, reg.drive.global, reg.drive.locked, reg.plan)
            && if reg.drive.kind.Register? then RegisterOk(reg) else CloseOk(reg)
  }

  /** A successful registration whose callbacks have not been drained by a successful Close. */
  predicate Outstanding(reg: Registration) {
    && reg.registered && !reg.closed
    && !(reg.driver.Some? && reg.drive.kind.Close? && (reg.drive.phase.Redropping? || reg.drive.phase.Freeing? || reg.drive.phase.Deleting?))
  }

  // ----- the whole state -----

  predicate InFlightOn(th: Thread, r: nat) {
    (th.callback.Admitted? || th.callback.Running? || th.callback.Ending?) && th.callback.reg == r
  }

  function Flying(s: State, r: nat): set<nat> {
    set t | 0 <= t < |s.threads| && InFlightOn(s.threads[t], r)
  }

  function Lessees(s: State, h: nat): set<nat> {
    set r | 0 <= r < |s.regs| && Outstanding(s.regs[r]) && h in s.regs[r].plan
  }

  predicate Drivers(s: State) {
    && (forall r :: 0 <= r < |s.regs| && s.regs[r].driver.Some? ==>
          s.regs[r].driver.value < |s.threads| && s.threads[s.regs[r].driver.value].op == Driving(r))
    && (forall t :: 0 <= t < |s.threads| ==> DriverOf(s, t))
  }

  predicate DriverOf(s: State, t: nat)
    requires t < |s.threads|
  {
    var th := s.threads[t];
    && (th.op.Driving? ==> th.op.reg < |s.regs| && s.regs[th.op.reg].driver == Some(t))
    && (th.op.Waiting? ==> th.op.reg < |s.regs| && s.regs[th.op.reg].published)
    && (!th.callback.Outside? ==> th.callback.reg < |s.regs| && s.regs[th.callback.reg].created)
    && (!th.callback.Outside? && th.op.Driving? && s.regs[th.op.reg].drive.kind.Register? ==> th.callback.reg < th.op.reg)
    && (th.op.Acting? ==> ActOk(s, th.op))
    && (th.op.Free? || th.callback.Outside? || th.callback.Running?)
  }

  predicate Known(s: State, plan: seq<nat>) {
    forall h :: h in plan ==> h < |s.handles|
  }

  predicate ActOk(s: State, op: Operation)
    requires op.Acting?
  {
    && Known(s, op.plan) && (op.closes ==> |op.plan| == 1)
    && LocksOk(s.serialized, op.phase, op.global, op.locked, op.plan)
    && (op.phase.WantGlobal? || op.phase.WantHandles? || op.phase.Native? || op.phase.DropHandles? || op.phase.DropGlobal?)
    && (op.phase.Native? ==> AllOpen(s, op.plan))
  }

  predicate Regs(s: State) {
    forall r :: 0 <= r < |s.regs| ==> RegIn(s, s.regs[r])
  }

  predicate RegIn(s: State, reg: Registration) {
    && RegOk(reg, s.serialized) && Known(s, reg.plan)
    && (reg.driver.Some? && reg.drive.phase.Native? ==> AllOpen(s, reg.plan))
  }

  predicate Counts(s: State) {
    forall h :: 0 <= h < |s.handles| ==> HandleOk(s, h)
  }

  predicate HandleOk(s: State, h: nat)
    requires h < |s.handles|
  {
    && s.handles[h].registrations == |Lessees(s, h)|
    && s.handles[h].releases == (if s.handles[h].closed then 1 else 0)
    && (s.handles[h].closed ==> s.handles[h].registrations == 0)
  }

  predicate Flights(s: State) {
    forall r :: 0 <= r < |s.regs| ==> s.regs[r].callbacks.inFlight == |Flying(s, r)|
  }

  ghost predicate Exclusive(s: State) {
    forall t, u, l :: 0 <= t < |s.threads| && 0 <= u < |s.threads| && Holds(s, t, l) && Holds(s, u, l) ==> t == u
  }

  ghost predicate Inv(s: State) {
    Drivers(s) && Regs(s) && Counts(s) && Flights(s) && Exclusive(s)
  }

  // ----- one step of a Register or Close, seen from its registration -----

  predicate SameOwner(reg: Registration, q: Registration) {
    q.plan == reg.plan && q.drive.kind == reg.drive.kind && q.callbacks.inFlight == reg.callbacks.inFlight
    && (reg.created ==> q.created) && (reg.published ==> q.published)
  }

  /** The driver may drop locks, or take the one it wanted. */
  predicate LockStep(reg: Registration, q: Registration, serialized: bool) {
    && (q.drive.global ==> reg.drive.global || Wanted(reg, serialized) == Some(GlobalLock))
    && q.drive.locked <= |reg.plan|
    && (q.drive.locked <= reg.drive.locked
        || (q.drive.locked == reg.drive.locked + 1 && Wanted(reg, serialized) == Some(HandleLock(reg.plan[reg.drive.locked]))))
  }

  predicate MovedOk(reg: Registration, serialized: bool, open: bool, success: bool, q: Registration) {
    && RegOk(q, serialized) && SameOwner(reg, q)
    && (if Returns(reg) then q.driver.None? && (reg.drive.kind.Close? ==> q.published)
        else q.driver == reg.driver && q.published == reg.published && LockStep(reg, q, serialized))
    && (Outstanding(q) <==> (Outstanding(reg) && LeaseChange(reg, success) != -1) || LeaseChange(reg, success) == 1)
    && (LeaseChange(reg, success) == 1 ==> !Outstanding(reg)) && (LeaseChange(reg, success) == -1 ==> Outstanding(reg))
    && (q.driver.Some? && q.drive.phase.Native? ==> open)
  }

  lemma RegisterPrepares(reg: Registration, serialized: bool, open: bool, success: bool)
    requires RegOk(reg, serialized) && reg.driver.Some? && reg.drive.kind.Register?
    requires reg.drive.phase.Preparing? || reg.drive.phase.WantGlobal? || reg.drive.phase.WantHandles?
    ensures MovedOk(reg, serialized, open, success, Moved(reg, serialized, open, success))
  {
  }

  lemma RegisterCalls(reg: Registration, serialized: bool, open: bool, success: bool)
    requires RegOk(reg, serialized) && reg.driver.Some? && reg.drive.kind.Register?
    requires reg.drive.phase.Native? || reg.drive.phase.DropHandles? || reg.drive.phase.DropGlobal? || reg.drive.phase.Settled?
    ensures MovedOk(reg, serialized, open, success, Moved(reg, serialized, open, success))
  {
  }

  lemma RegisterDrains(reg: Registration, serialized: bool, open: bool, success: bool)
    requires RegOk(reg, serialized) && reg.driver.Some? && reg.drive.kind.Register?
    requires reg.drive.phase.Stopping? || reg.drive.phase.Draining?
    requires reg.drive.phase.Draining? ==> reg.callbacks.inFlight == 0
    ensures MovedOk(reg, serialized, open, success, Moved(reg, serialized, open, success))
  {
  }

  lemma RegisterFrees(reg: Registration, serialized: bool, open: bool, success: bool)
    requires RegOk(reg, serialized) && reg.driver.Some? && reg.drive.kind.Register? && reg.drive.phase.Freeing?
    ensures MovedOk(reg, serialized, open, success, Moved(reg, serialized, open, success))
  {
    hide Usable, Finished;
  }

  lemma RegisterDeletes(reg: Registration, serialized: bool, open: bool, success: bool)
    requires RegOk(reg, serialized) && reg.driver.Some? && reg.drive.kind.Register? && reg.drive.phase.Deleting?
    ensures MovedOk(reg, serialized, open, success, Moved(reg, serialized, open, success))
  {
  }

  lemma CloseStops(reg: Registration, serialized: bool, open: bool, success: bool)
    requires RegOk(reg, serialized) && reg.driver.Some? && reg.drive.kind.Close?
    requires reg.drive.phase.Checking? || reg.drive.phase.WantGlobal? || reg.drive.phase.WantHandles?
    ensures MovedOk(reg, serialized, open, success, Moved(reg, serialized, open, success))
  {
  }

  lemma CloseCalls(reg: Registration, serialized: bool, open: bool, success: bool)
    requires RegOk(reg, serialized) && reg.driver.Some? && reg.drive.kind.Close?
    requires reg.drive.phase.Native? || reg.drive.phase.DropHandles? || reg.drive.phase.DropGlobal? || reg.drive.phase.Settled? || reg.drive.phase.Resuming?
    ensures MovedOk(reg, serialized, open, success, Moved(reg, serialized, open, success))
  {
  }

  lemma CloseDrains(reg: Registration, serialized: bool, open: bool, success: bool)
    requires RegOk(reg, serialized) && reg.driver.Some? && reg.drive.kind.Close?
    requires reg.drive.phase.Draining? || reg.drive.phase.Relocking? || reg.drive.phase.Redropping?
    requires reg.drive.phase.Draining? ==> reg.callbacks.inFlight == 0
    ensures MovedOk(reg, serialized, open, success, Moved(reg, serialized, open, success))
  {
  }

  lemma CloseReleases(reg: Registration, serialized: bool, open: bool, success: bool)
    requires RegOk(reg, serialized) && reg.driver.Some? && reg.drive.kind.Close?
    requires reg.drive.phase.Freeing? || reg.drive.phase.Deleting? || reg.drive.phase.Leaving?
    ensures MovedOk(reg, serialized, open, success, Moved(reg, serialized, open, success))
  {
  }

  lemma Moves(reg: Registration, serialized: bool, open: bool, success: bool)
    requires RegOk(reg, serialized) && reg.driver.Some?
    requires reg.drive.phase.Draining? ==> reg.callbacks.inFlight == 0
    ensures MovedOk(reg, serialized, open, success, Moved(reg, serialized, open, success))
  {
    var p := reg.drive.phase;
    if reg.drive.kind.Register? {
      if p.Preparing? || p.WantGlobal? || p.WantHandles? { RegisterPrepares(reg, serialized, open, success); }
      else if p.Native? || p.DropHandles? || p.DropGlobal? || p.Settled? { RegisterCalls(reg, serialized, open, success); }
      else if p.Stopping? || p.Draining? { RegisterDrains(reg, serialized, open, success); }
      else if p.Freeing? { RegisterFrees(reg, serialized, open, success); }
      else { RegisterDeletes(reg, serialized, open, success); }
    } else {
      if p.Checking? || p.WantGlobal? || p.WantHandles? { CloseStops(reg, serialized, open, success); }
      else if p.Native? || p.DropHandles? || p.DropGlobal? || p.Settled? || p.Resuming? { CloseCalls(reg, serialized, open, success); }
      else if p.Draining? || p.Relocking? || p.Redropping? { CloseDrains(reg, serialized, open, success); }
      else { CloseReleases(reg, serialized, open, success); }
    }
  }

  // ----- ... and seen from the whole state -----

  lemma FrontGrows(plan: seq<nat>, n: nat, m: nat, h: nat)
    requires n <= |plan| && m <= |plan| && h in plan[..m]
    ensures m <= n ==> h in plan[..n]
    ensures m == n + 1 ==> h in plan[..n] || h == plan[n]
  {
  }

  /** Thread `t` drives `r`; afterwards it drives `q` in its place, or nothing. */
  predicate Replaces(s: State, s': State, t: nat, r: nat, q: Registration) {
    && t < |s.threads| && r < |s.regs| && s.threads[t].op == Driving(r)
    && s'.regs == s.regs[r := q] && s'.serialized == s.serialized
    && s'.threads == s.threads[t := s.threads[t].(op := if q.driver.Some? then Driving(r) else Free)]
  }

  lemma DriverHolds(s: State, s': State, t: nat, r: nat, q: Registration, l: Lock)
    requires Drivers(s) && Regs(s) && Replaces(s, s', t, r, q) && q.driver == s.regs[r].driver
    requires SameOwner(s.regs[r], q) && LockStep(s.regs[r], q, s.serialized)
    requires Wanted(s.regs[r], s.serialized).Some? ==> Available(s, Wanted(s.regs[r], s.serialized).value)
    requires Holds(s', t, l)
    ensures Holds(s, t, l) || Available(s, l)
  {
    assert RegIn(s, s.regs[r]) && DriverOf(s, t);
    if l.HandleLock? { FrontGrows(q.plan, s.regs[r].drive.locked, q.drive.locked, l.handle); }
  }

  /** What other threads hold does not depend on a registration they do not drive. */
  lemma OthersHold(s: State, s': State, t: nat, r: nat, q: Registration, u: nat, l: Lock)
    requires Drivers(s) && Replaces(s, s', t, r, q) && u < |s.threads| && u != t
    ensures Holds(s', u, l) <==> Holds(s, u, l)
  {
    assert DriverOf(s, t) && DriverOf(s, u);
  }

  lemma StaysExclusive(s: State, s': State, t: nat, r: nat, q: Registration)
    requires Inv(s) && Replaces(s, s', t, r, q) && SameOwner(s.regs[r], q)
    requires q.driver.Some? ==> q.driver == s.regs[r].driver && LockStep(s.regs[r], q, s.serialized)
    requires Wanted(s.regs[r], s.serialized).Some? ==> Available(s, Wanted(s.regs[r], s.serialized).value)
    ensures Exclusive(s')
  {
    forall u, v, l | 0 <= u < |s'.threads| && 0 <= v < |s'.threads| && Holds(s', u, l) && Holds(s', v, l) ensures u == v {
      if u != v {
        if u == t { DriverHolds(s, s', t, r, q, l); OthersHold(s, s', t, r, q, v, l); }
        else if v == t { DriverHolds(s, s', t, r, q, l); OthersHold(s, s', t, r, q, u, l); }
        else { OthersHold(s, s', t, r, q, u, l); OthersHold(s, s', t, r, q, v, l); }
      }
    }
  }

  /** Whether `r` counts among the lessees of `h` depends only on its own entry. */
  lemma LesseesChange(s: State, s': State, r: nat, q: Registration, h: nat)
    requires r < |s.regs| && s'.regs == s.regs[r := q] && q.plan == s.regs[r].plan
    ensures Outstanding(q) == Outstanding(s.regs[r]) || h !in q.plan ==> Lessees(s', h) == Lessees(s, h)
    ensures h in q.plan && Outstanding(q) && !Outstanding(s.regs[r]) ==> r !in Lessees(s, h) && Lessees(s', h) == Lessees(s, h) + {r}
    ensures h in q.plan && !Outstanding(q) && Outstanding(s.regs[r]) ==> r in Lessees(s, h) && Lessees(s', h) == Lessees(s, h) - {r}
  {
    hide Outstanding;
    forall x: nat ensures x in Lessees(s', h) <==> x < |s.regs| && h in s.regs[x].plan && Outstanding(if x == r then q else s.regs[x]) {
    }
  }

  /** Leases are counted once per registration, whatever it was passed. */
  lemma LeasesFollow(s: State, s': State, r: nat, q: Registration, delta: int)
    requires Regs(s) && Counts(s) && r < |s.regs| && s'.regs == s.regs[r := q] && q.plan == s.regs[r].plan
    requires s'.handles == if delta == 0 then s.handles else Leased(s, q.plan, delta)
    requires -1 <= delta <= 1
    requires Outstanding(q) <==> (Outstanding(s.regs[r]) && delta != -1) || delta == 1
    requires delta == 1 ==> !Outstanding(s.regs[r]) && AllOpen(s, q.plan)
    requires delta == -1 ==> Outstanding(s.regs[r])
    ensures Counts(s')
  {
    hide Outstanding, Lessees, Regs;
    forall h | 0 <= h < |s'.handles| ensures HandleOk(s', h) {
      assert HandleOk(s, h);
      LesseesChange(s, s', r, q, h);
    }
  }

  lemma FlightsStay(s: State, s': State)
    requires Flights(s) && |s'.threads| == |s.threads| && |s'.regs| == |s.regs|
    requires forall t :: 0 <= t < |s.threads| ==> s'.threads[t].callback == s.threads[t].callback
    requires forall r :: 0 <= r < |s.regs| ==> s'.regs[r].callbacks.inFlight == s.regs[r].callbacks.inFlight
    ensures Flights(s')
  {
    forall r | 0 <= r < |s'.regs| ensures s'.regs[r].callbacks.inFlight == |Flying(s', r)| {
      assert Flying(s', r) == Flying(s, r);
    }
  }

  lemma DriversStay(s: State, s': State, t: nat, r: nat, q: Registration)
    requires Drivers(s) && Replaces(s, s', t, r, q) && SameOwner(s.regs[r], q) && |s'.handles| == |s.handles|
    requires q.driver.Some? ==> q.driver == s.regs[r].driver
    requires forall h :: 0 <= h < |s.handles| ==> s'.handles[h].closed == s.handles[h].closed
    ensures Drivers(s')
  {
    forall u | 0 <= u < |s'.threads| ensures DriverOf(s', u) { assert DriverOf(s, u); assert DriverOf(s, t); }
    forall i | 0 <= i < |s'.regs| && s'.regs[i].driver.Some?
      ensures s'.regs[i].driver.value < |s'.threads| && s'.threads[s'.regs[i].driver.value].op == Driving(i)
    {
      assert DriverOf(s, t);
    }
  }

  lemma RegsStay(s: State, s': State, r: nat, q: Registration)
    requires Regs(s) && r < |s.regs| && s'.regs == s.regs[r := q] && s'.serialized == s.serialized && |s'.handles| == |s.handles|
    requires forall h :: 0 <= h < |s.handles| ==> s'.handles[h].closed == s.handles[h].closed
    requires RegIn(s, q)
    ensures Regs(s')
  {
    forall i | 0 <= i < |s'.regs| ensures RegIn(s', s'.regs[i]) {
      assert RegIn(s, if i == r then q else s.regs[i]);
    }
  }

  lemma DrivenShape(s: State, t: nat, r: nat, success: bool, q: Registration)
    requires t < |s.threads| && r < |s.regs| && s.threads[t].op == Driving(r) && Driven(s, t, r, success).Some?
    requires q == Moved(s.regs[r], s.serialized, AllOpen(s, s.regs[r].plan), success) && (q.driver.None? <==> Returns(s.regs[r]))
    ensures var s' := Driven(s, t, r, success).value;
            var delta := LeaseChange(s.regs[r], success);
            && Replaces(s, s', t, r, q) && |s'.handles| == |s.handles|
            && (forall h :: 0 <= h < |s.handles| ==> s'.handles[h].closed == s.handles[h].closed)
            && s'.handles == (if delta == 0 then s.handles else Leased(s, s.regs[r].plan, delta))
    ensures Wanted(s.regs[r], s.serialized).Some? ==> Available(s, Wanted(s.regs[r], s.serialized).value)
    ensures s.regs[r].drive.phase.Draining? ==> s.regs[r].callbacks.inFlight == 0
  {
    assert s.threads[t := s.threads[t]] == s.threads;
  }

  /** What the parts of the invariant need to know of a step of a Register or Close. */
  lemma DrivenMoves(s: State, t: nat, r: nat, success: bool, q: Registration)
    requires Inv(s) && t < |s.threads| && s.threads[t].op == Driving(r) && r < |s.regs| && Driven(s, t, r, success).Some?
    requires q == Moved(s.regs[r], s.serialized, AllOpen(s, s.regs[r].plan), success)
    ensures RegIn(s, q) && MovedOk(s.regs[r], s.serialized, AllOpen(s, s.regs[r].plan), success, q)
    ensures s.regs[r].driver.Some? && (q.driver.None? <==> Returns(s.regs[r]))
    ensures LeaseChange(s.regs[r], success) == 1 ==> AllOpen(s, q.plan)
  {
    hide Driven, Moved, RegisterOk, CloseOk, Exclusive, Counts, Flights, Returns, LeaseChange, Outstanding;
    var reg := s.regs[r];
    assert RegIn(s, reg) && DriverOf(s, t);
    DrivenDrains(s, t, r, success);
    Moves(reg, s.serialized, AllOpen(s, reg.plan), success);
    LeaseIsNative(reg, success);
  }

  lemma DrivenDrains(s: State, t: nat, r: nat, success: bool)
    requires t < |s.threads| && r < |s.regs| && Driven(s, t, r, success).Some?
    ensures s.regs[r].drive.phase.Draining? ==> s.regs[r].callbacks.inFlight == 0
  {
    hide Moved, Available;
  }

  lemma LeaseIsNative(reg: Registration, success: bool)
    ensures LeaseChange(reg, success) == 1 ==> reg.drive.phase.Native?
  {
  }

  /** Every step of a Register or Close keeps the invariant. */
  lemma DrivenKeeps(s: State, t: nat, r: nat, success: bool)
    requires Inv(s) && t < |s.threads| && s.threads[t].op == Driving(r) && r < |s.regs|
    requires Driven(s, t, r, success).Some?
    ensures Inv(Driven(s, t, r, success).value)
  {
    hide Driven, Moved, Leased, RegIn, DriverOf, HandleOk, Flying, Exclusive, Holds, AllOpen, RegOk, Outstanding, LockStep, Wanted, Available, Returns;
    var q := Moved(s.regs[r], s.serialized, AllOpen(s, s.regs[r].plan), success);
    var s' := Driven(s, t, r, success).value;
    DrivenMoves(s, t, r, success, q);
    DrivenShape(s, t, r, success, q);
    StaysExclusive(s, s', t, r, q);
    LeasesFollow(s, s', r, q, LeaseChange(s.regs[r], success));
    FlightsStay(s, s');
    DriversStay(s, s', t, r, q);
    RegsStay(s, s', r, q);
  }
}
