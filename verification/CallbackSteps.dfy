/** Every step of every thread keeps the invariant. */
module CallbackSteps {
  import opened Completions
  import opened LockPlan
  import opened CallbackProtocol
  import opened CallbackInvariant

  // ----- what a step leaves alone -----

  /** A Register, Close or plain call moves its own thread, outside or in whatever callback it is, and no
      registration but the one it works on. */
  predicate OwnStep(s: State, s': State, t: nat) {
    && t < |s.threads| && |s'.threads| == |s.threads| && |s'.regs| == |s.regs| && s'.serialized == s.serialized
    && s'.threads[t].callback == s.threads[t].callback
    && (forall u :: 0 <= u < |s.threads| && u != t ==> s'.threads[u] == s.threads[u])
    && (forall r :: 0 <= r < |s.regs| && s'.regs[r] != s.regs[r] ==> s.threads[t].op == Waiting(r) || s.threads[t].op == Driving(r))
  }

  lemma DrivenIsOwn(s: State, t: nat, r: nat, success: bool)
    requires t < |s.threads| && r < |s.regs| && s.threads[t].op == Driving(r) && Driven(s, t, r, success).Some?
    ensures OwnStep(s, Driven(s, t, r, success).value, t)
  {
    hide Moved, Leased, Wanted, Available, LeaseChange, Returns, AllOpen;
  }

  lemma ActedIsOwn(s: State, t: nat, success: bool)
    requires t < |s.threads| && s.threads[t].op.Acting? && Acted(s, t, success).Some?
    ensures OwnStep(s, Acted(s, t, success).value, t)
  {
    hide Available, AllOpen;
  }

  lemma AdvanceIsOwn(s: State, t: nat, success: bool)
    requires t < |s.threads| && Next(s, t, Advance(success)).Some?
    ensures OwnStep(s, Next(s, t, Advance(success)).value, t)
  {
    hide Driven, Acted;
    match s.threads[t].op
    case Free =>
    case Waiting(_) =>
    case Driving(r) => DrivenIsOwn(s, t, r, success);
    case Acting(_, _, _, _, _) => ActedIsOwn(s, t, success);
  }

  /** Every step leaves the other threads alone. */
  lemma ThreadStays(s: State, a: nat, e: Event, t: nat)
    requires a < |s.threads| && t < |s.threads| && a != t && Next(s, a, e).Some?
    ensures |Next(s, a, e).value.threads| == |s.threads| && Next(s, a, e).value.threads[t] == s.threads[t]
  {
    if e.Advance? {
      hide Next;
      AdvanceIsOwn(s, a, e.success);
    } else {
      hide Plan, Driven, Acted;
    }
  }

  // ----- steps that change only one thread -----

  /** Nothing but thread `t` changed, and it gained no lock that was not available. */
  predicate OnlyThread(s: State, s': State, t: nat) {
    && t < |s.threads| && s'.serialized == s.serialized && s'.regs == s.regs && s'.handles == s.handles
    && |s'.threads| == |s.threads| && (forall u :: 0 <= u < |s.threads| && u != t ==> s'.threads[u] == s.threads[u])
  }

  lemma ThreadExclusive(s: State, s': State, t: nat)
    requires Exclusive(s) && OnlyThread(s, s', t)
    requires forall l :: Holds(s', t, l) ==> Holds(s, t, l) || Available(s, l)
    ensures Exclusive(s')
  {
    forall u, v, l | 0 <= u < |s'.threads| && 0 <= v < |s'.threads| && Holds(s', u, l) && Holds(s', v, l) ensures u == v {
      if u != t { assert Holds(s, u, l); }
      if v != t { assert Holds(s, v, l); }
    }
  }

  lemma ThreadKeeps(s: State, s': State, t: nat)
    requires Inv(s) && OnlyThread(s, s', t) && DriverOf(s', t)
    requires s.threads[t].op.Driving? || s'.threads[t].op.Driving? ==> s'.threads[t].op == s.threads[t].op
    requires forall r :: 0 <= r < |s.regs| ==> (InFlightOn(s'.threads[t], r) <==> InFlightOn(s.threads[t], r))
    requires forall l :: Holds(s', t, l) ==> Holds(s, t, l) || Available(s, l)
    ensures Inv(s')
  {
    ThreadExclusive(s, s', t);
    forall r | 0 <= r < |s'.regs| ensures RegIn(s', s'.regs[r]) && s'.regs[r].callbacks.inFlight == |Flying(s', r)| {
      assert RegIn(s, s.regs[r]);
      assert Flying(s', r) == Flying(s, r);
    }
    forall h | 0 <= h < |s'.handles| ensures HandleOk(s', h) {
      assert HandleOk(s, h) && Lessees(s', h) == Lessees(s, h);
    }
    forall u | 0 <= u < |s'.threads| ensures DriverOf(s', u) { if u != t { assert DriverOf(s, u); } }
    forall r | 0 <= r < |s'.regs| && s'.regs[r].driver.Some?
      ensures s'.regs[r].driver.value < |s'.threads| && s'.threads[s'.regs[r].driver.value].op == Driving(r)
    {
      assert DriverOf(s, t);
    }
  }

  lemma StartCloseKeeps(s: State, t: nat, r: nat)
    requires Inv(s) && t < |s.threads| && Next(s, t, StartClose(r)).Some?
    ensures Inv(Next(s, t, StartClose(r)).value)
  {
    assert DriverOf(s, t);
    ThreadKeeps(s, Next(s, t, StartClose(r)).value, t);
  }

  lemma StartActKeeps(s: State, t: nat, closes: bool, params: seq<nat>)
    requires Inv(s) && t < |s.threads| && Next(s, t, StartAct(closes, params)).Some?
    ensures Inv(Next(s, t, StartAct(closes, params)).value)
  {
    var s' := Next(s, t, StartAct(closes, params)).value;
    assert DriverOf(s, t);
    PlanKnown(s, params);
    if closes { PlanOfOne(params); }
    assert DriverOf(s', t);
    ThreadKeeps(s, s', t);
  }

  lemma PlanKnown(s: State, params: seq<nat>)
    requires forall h :: h in params ==> h < |s.handles|
    ensures Known(s, Plan(params))
  {
    forall h | h in Plan(params) ensures h < |s.handles| { assert h in Elements(Plan(params)) && h in Elements(params); }
  }

  lemma PlanOfOne(params: seq<nat>)
    requires |params| == 1
    ensures Plan(params) == params
  {
    IncreasingUnique(Plan(params), params);
  }

  lemma ArriveKeeps(s: State, t: nat, r: nat)
    requires Inv(s) && t < |s.threads| && Next(s, t, Arrive(r)).Some?
    ensures Inv(Next(s, t, Arrive(r)).value)
  {
    assert DriverOf(s, t);
    ThreadKeeps(s, Next(s, t, Arrive(r)).value, t);
  }

  lemma RunUserKeeps(s: State, t: nat)
    requires Inv(s) && t < |s.threads| && Next(s, t, RunUser).Some?
    ensures Inv(Next(s, t, RunUser).value)
  {
    assert DriverOf(s, t);
    ThreadKeeps(s, Next(s, t, RunUser).value, t);
  }

  // ----- steps under a callback state's mutex -----

  /** Callback states change, and the thread's place in its callback with them. */
  predicate CallbackStep(s: State, s': State, t: nat, r: nat, c: Callbacks) {
    && t < |s.threads| && r < |s.regs| && s'.serialized == s.serialized && s'.handles == s.handles
    && s'.regs == s.regs[r := s.regs[r].(callbacks := c)]
    && |s'.threads| == |s.threads| && (forall u :: 0 <= u < |s.threads| && u != t ==> s'.threads[u] == s.threads[u])
    && s'.threads[t].op == s.threads[t].op
  }

  lemma CallbackHolds(s: State, s': State, t: nat, r: nat, c: Callbacks, u: nat, l: Lock)
    requires CallbackStep(s, s', t, r, c) && u < |s.threads|
    ensures Holds(s', u, l) <==> Holds(s, u, l)
  {
  }

  lemma CallbackExclusive(s: State, s': State, t: nat, r: nat, c: Callbacks)
    requires Exclusive(s) && CallbackStep(s, s', t, r, c)
    ensures Exclusive(s')
  {
    hide Holds;
    forall u, v, l | 0 <= u < |s'.threads| && 0 <= v < |s'.threads| && Holds(s', u, l) && Holds(s', v, l) ensures u == v {
      CallbackHolds(s, s', t, r, c, u, l);
      CallbackHolds(s, s', t, r, c, v, l);
    }
  }

  lemma CallbackCounts(s: State, s': State, t: nat, r: nat, c: Callbacks)
    requires Counts(s) && CallbackStep(s, s', t, r, c)
    ensures Counts(s')
  {
    forall h | 0 <= h < |s'.handles| ensures HandleOk(s', h) {
      assert HandleOk(s, h) && Lessees(s', h) == Lessees(s, h);
    }
  }

  lemma CallbackDrivers(s: State, s': State, t: nat, r: nat, c: Callbacks)
    requires Drivers(s) && CallbackStep(s, s', t, r, c) && DriverOf(s', t)
    ensures Drivers(s')
  {
    hide RegOk;
    forall u | 0 <= u < |s'.threads| ensures DriverOf(s', u) { if u != t { assert DriverOf(s, u); } }
  }

  lemma CallbackKeeps(s: State, s': State, t: nat, r: nat, c: Callbacks)
    requires Inv(s) && CallbackStep(s, s', t, r, c) && RegIn(s, s'.regs[r]) && DriverOf(s', t)
    requires c.inFlight == |Flying(s', r)|
    requires forall i :: 0 <= i < |s.regs| && i != r ==> (InFlightOn(s'.threads[t], i) <==> InFlightOn(s.threads[t], i))
    ensures Inv(s')
  {
    CallbackExclusive(s, s', t, r, c);
    CallbackCounts(s, s', t, r, c);
    CallbackDrivers(s, s', t, r, c);
    hide Exclusive, Counts, Drivers, RegOk;
    forall i | 0 <= i < |s'.regs| ensures RegIn(s', s'.regs[i]) && s'.regs[i].callbacks.inFlight == |Flying(s', i)| {
      assert RegIn(s, s.regs[i]);
      if i != r { assert Flying(s', i) == Flying(s, i); }
    }
  }

  /** A registration stays in order whatever its callbacks record, and is admitted one only while
      its context lives. */
  lemma RecordOk(s: State, reg: Registration, failure: Option<Failure>)
    requires RegIn(s, reg)
    ensures RegIn(s, reg.(callbacks := reg.callbacks.(failure := failure)))
  {
  }

  lemma CountOk(s: State, reg: Registration, n: nat)
    requires RegIn(s, reg) && reg.created && (n <= reg.callbacks.inFlight || Admits(reg.callbacks))
    requires n <= reg.callbacks.inFlight + 1
    ensures RegIn(s, reg.(callbacks := reg.callbacks.(inFlight := n)))
  {
  }

  /** Begin, seen as a step of a callback state. */
  lemma BeginShape(s: State, t: nat)
    requires Drivers(s) && Regs(s) && t < |s.threads| && Next(s, t, BeginCallback).Some? && Admits(s.regs[s.threads[t].callback.reg].callbacks)
    ensures var s', r := Next(s, t, BeginCallback).value, s.threads[t].callback.reg;
            var c := s.regs[r].callbacks.(inFlight := s.regs[r].callbacks.inFlight + 1);
            && CallbackStep(s, s', t, r, c) && DriverOf(s', t) && RegIn(s, s'.regs[r]) && t !in Flying(s, r) && Flying(s', r) == Flying(s, r) + {t}
            && forall i :: 0 <= i < |s.regs| && i != r ==> (InFlightOn(s'.threads[t], i) <==> InFlightOn(s.threads[t], i))
  {
    hide RegOk;
    var r := s.threads[t].callback.reg;
    assert DriverOf(s, t) && RegIn(s, s.regs[r]);
    CountOk(s, s.regs[r], s.regs[r].callbacks.inFlight + 1);
  }

  lemma BeginAdmits(s: State, t: nat)
    requires Inv(s) && t < |s.threads| && Next(s, t, BeginCallback).Some? && Admits(s.regs[s.threads[t].callback.reg].callbacks)
    ensures Inv(Next(s, t, BeginCallback).value)
  {
    hide Next, RegIn, DriverOf, HandleOk, Exclusive, Flying, CallbackStep;
    BeginReg(s, t);
    BeginShape(s, t);
    var r := s.threads[t].callback.reg;
    CallbackKeeps(s, Next(s, t, BeginCallback).value, t, r, s.regs[r].callbacks.(inFlight := s.regs[r].callbacks.inFlight + 1));
  }

  lemma BeginReg(s: State, t: nat)
    requires t < |s.threads| && Next(s, t, BeginCallback).Some?
    ensures s.threads[t].callback.Entered? && s.threads[t].callback.reg < |s.regs|
  {
  }

  lemma BeginRefuses(s: State, t: nat)
    requires Inv(s) && t < |s.threads| && Next(s, t, BeginCallback).Some? && !Admits(s.regs[s.threads[t].callback.reg].callbacks)
    ensures Inv(Next(s, t, BeginCallback).value)
  {
    assert DriverOf(s, t);
    hide RegIn, HandleOk;
    ThreadKeeps(s, Next(s, t, BeginCallback).value, t);
  }

  lemma BeginKeeps(s: State, t: nat)
    requires Inv(s) && t < |s.threads| && Next(s, t, BeginCallback).Some?
    ensures Inv(Next(s, t, BeginCallback).value)
  {
    hide Inv;
    if Admits(s.regs[s.threads[t].callback.reg].callbacks) { BeginAdmits(s, t); } else { BeginRefuses(s, t); }
  }

  /** What user code ended with, recorded or not, seen as a step of a callback state. */
  lemma EndUserShape(s: State, t: nat, failure: Option<Failure>)
    requires Drivers(s) && Regs(s) && t < |s.threads| && Next(s, t, EndUser(failure)).Some?
    ensures !s.threads[t].callback.Outside? && s.threads[t].callback.reg < |s.regs|
    ensures var s', r := Next(s, t, EndUser(failure)).value, s.threads[t].callback.reg;
            && r < |s'.regs| && CallbackStep(s, s', t, r, s'.regs[r].callbacks) && DriverOf(s', t) && RegIn(s, s'.regs[r])
            && s'.regs[r].callbacks.inFlight == s.regs[r].callbacks.inFlight
            && forall i :: 0 <= i < |s.regs| ==> (InFlightOn(s'.threads[t], i) <==> InFlightOn(s.threads[t], i))
  {
    hide RegOk;
    var r := s.threads[t].callback.reg;
    assert DriverOf(s, t) && RegIn(s, s.regs[r]);
    RecordOk(s, s.regs[r], Next(s, t, EndUser(failure)).value.regs[r].callbacks.failure);
  }

  lemma EndUserKeeps(s: State, t: nat, failure: Option<Failure>)
    requires Inv(s) && t < |s.threads| && Next(s, t, EndUser(failure)).Some?
    ensures Inv(Next(s, t, EndUser(failure)).value)
  {
    hide Next, RegIn, DriverOf, HandleOk, Exclusive;
    var s' := Next(s, t, EndUser(failure)).value;
    EndUserShape(s, t, failure);
    var r := s.threads[t].callback.reg;
    assert Flying(s', r) == Flying(s, r);
    CallbackKeeps(s, s', t, r, s'.regs[r].callbacks);
  }

  lemma EndCallbackKeeps(s: State, t: nat)
    requires Inv(s) && t < |s.threads| && Next(s, t, EndCallback).Some?
    ensures Inv(Next(s, t, EndCallback).value)
  {
    var s' := Next(s, t, EndCallback).value;
    var r := s.threads[t].callback.reg;
    var reg := s.regs[r];
    assert DriverOf(s, t) && RegIn(s, reg);
    CountOk(s, reg, reg.callbacks.inFlight - 1);
    assert t in Flying(s, r);
    assert Flying(s', r) == Flying(s, r) - {t};
    CallbackKeeps(s, s', t, r, reg.callbacks.(inFlight := reg.callbacks.inFlight - 1));
  }

  // ----- plain calls and handle Close -----

  /** One lock step of a plain call: it takes what is available, or gives something back. */
  lemma ActedKeeps(s: State, t: nat, success: bool)
    requires Inv(s) && t < |s.threads| && s.threads[t].op.Acting? && Acted(s, t, success).Some?
    ensures Inv(Acted(s, t, success).value)
  {
    var op := s.threads[t].op;
    assert DriverOf(s, t);
    if op.phase.Native? {
      assert op.plan != [] ==> op.plan[0] in op.plan;
      var moved := WithThread(s, t, s.threads[t].(op := op.(phase := DropHandles)));
      ThreadKeeps(s, moved, t);
      if op.closes && s.handles[op.plan[0]].registrations == 0 {
        assert Holds(moved, t, HandleLock(op.plan[0]));
        ReleaseKeeps(moved, Acted(s, t, success).value, t, op.plan[0]);
      }
    } else {
      ActLocks(s, t, success);
      ThreadKeeps(s, Acted(s, t, success).value, t);
    }
  }

  lemma ActLocks(s: State, t: nat, success: bool)
    requires Inv(s) && t < |s.threads| && s.threads[t].op.Acting? && Acted(s, t, success).Some? && !s.threads[t].op.phase.Native?
    ensures var s' := Acted(s, t, success).value;
            && OnlyThread(s, s', t) && DriverOf(s', t) && s'.threads[t].callback == s.threads[t].callback
            && !s'.threads[t].op.Driving? && (forall l :: Holds(s', t, l) ==> Holds(s, t, l) || Available(s, l))
  {
    var s' := Acted(s, t, success).value;
    assert DriverOf(s, t);
    hide Inv;
    ActShape(s, t, success);
    forall l | Holds(s', t, l) ensures Holds(s, t, l) || Available(s, l) { ActHolds(s, t, success, l); }
  }

  lemma ActShape(s: State, t: nat, success: bool)
    requires t < |s.threads| && DriverOf(s, t) && s.threads[t].op.Acting? && Acted(s, t, success).Some? && !s.threads[t].op.phase.Native?
    ensures var s' := Acted(s, t, success).value;
            OnlyThread(s, s', t) && DriverOf(s', t) && s'.threads[t].callback == s.threads[t].callback && !s'.threads[t].op.Driving?
  {
    hide Available, Holds;
  }

  lemma ActHolds(s: State, t: nat, success: bool, l: Lock)
    requires t < |s.threads| && DriverOf(s, t) && s.threads[t].op.Acting? && Acted(s, t, success).Some? && !s.threads[t].op.phase.Native?
    requires Holds(Acted(s, t, success).value, t, l)
    ensures Holds(s, t, l) || Available(s, l)
  {
    var s' := Acted(s, t, success).value;
    if l.HandleLock? { FrontGrows(s.threads[t].op.plan, s.threads[t].op.locked, s'.threads[t].op.locked, l.handle); }
    hide Available, Known, AllOpen;
  }

  /** No native call that uses a handle is under way when another thread has its mutex. */
  lemma NobodyCalls(s: State, t: nat, h: nat)
    requires Inv(s) && t < |s.threads| && Holds(s, t, HandleLock(h))
    ensures forall r :: 0 <= r < |s.regs| && s.regs[r].driver.Some? && s.regs[r].drive.phase.Native? && h in s.regs[r].plan ==> s.regs[r].driver == Some(t)
    ensures forall u :: 0 <= u < |s.threads| && s.threads[u].op.Acting? && s.threads[u].op.phase.Native? && h in s.threads[u].op.plan ==> u == t
  {
    forall r | 0 <= r < |s.regs| && s.regs[r].driver.Some? && s.regs[r].drive.phase.Native? && h in s.regs[r].plan
      ensures s.regs[r].driver == Some(t)
    {
      assert RegIn(s, s.regs[r]);
      assert Holds(s, s.regs[r].driver.value, HandleLock(h));
    }
    forall u | 0 <= u < |s.threads| && s.threads[u].op.Acting? && s.threads[u].op.phase.Native? && h in s.threads[u].op.plan
      ensures u == t
    {
      assert DriverOf(s, u);
      assert Holds(s, u, HandleLock(h));
    }
  }

  /** The native release of a handle that has no registration left. */
  lemma ReleaseKeeps(s: State, s': State, t: nat, h: nat)
    requires Inv(s) && t < |s.threads| && s.threads[t].op.Acting? && !s.threads[t].op.phase.Native? && Holds(s, t, HandleLock(h))
    requires h < |s.handles| && !s.handles[h].closed && s.handles[h].registrations == 0
    requires s' == s.(handles := s.handles[h := Handle(true, 0, s.handles[h].releases + 1)])
    ensures Inv(s')
  {
    NobodyCalls(s, t, h);
    forall u, v, l | 0 <= u < |s'.threads| && 0 <= v < |s'.threads| && Holds(s', u, l) && Holds(s', v, l) ensures u == v {
      assert Holds(s, u, l) && Holds(s, v, l);
    }
    forall r | 0 <= r < |s'.regs| ensures RegIn(s', s'.regs[r]) && s'.regs[r].callbacks.inFlight == |Flying(s', r)| {
      assert RegIn(s, s.regs[r]) && Flying(s', r) == Flying(s, r);
      assert s.threads[t].op.Acting? && DriverOf(s, t);
    }
    forall i | 0 <= i < |s'.handles| ensures HandleOk(s', i) {
      assert HandleOk(s, i) && Lessees(s', i) == Lessees(s, i);
    }
    forall u | 0 <= u < |s'.threads| ensures DriverOf(s', u) { assert DriverOf(s, u); }
  }

  // ----- new handles and registrations, and a Close that gets its registration's mutex -----

  lemma NewHandleKeeps(s: State, s': State)
    requires Inv(s) && s' == s.(handles := s.handles + [Handle(false, 0, 0)])
    ensures Inv(s')
  {
    forall u, v, l | 0 <= u < |s'.threads| && 0 <= v < |s'.threads| && Holds(s', u, l) && Holds(s', v, l) ensures u == v {
      assert Holds(s, u, l) && Holds(s, v, l);
    }
    forall r | 0 <= r < |s'.regs| ensures RegIn(s', s'.regs[r]) && s'.regs[r].callbacks.inFlight == |Flying(s', r)| {
      assert RegIn(s, s.regs[r]) && Flying(s', r) == Flying(s, r);
    }
    forall h | 0 <= h < |s'.handles| ensures HandleOk(s', h) {
      assert Lessees(s', h) == Lessees(s, h);
      if h < |s.handles| {
        assert HandleOk(s, h);
      } else {
        assert forall r :: 0 <= r < |s.regs| ==> RegIn(s, s.regs[r]);
        assert Lessees(s', h) == {};
      }
    }
    forall u | 0 <= u < |s'.threads| ensures DriverOf(s', u) { assert DriverOf(s, u); }
  }

  /** A new registration, driven by the thread that starts it. */
  predicate Starts(s: State, s': State, t: nat, reg: Registration) {
    && t < |s.threads| && InUserCode(s.threads[t]) && s'.serialized == s.serialized && s'.handles == s.handles
    && s'.regs == s.regs + [reg] && s'.threads == s.threads[t := s.threads[t].(op := Driving(|s.regs|))]
    && reg.driver == Some(t) && reg.drive.phase.Preparing? && reg.drive.kind.Register? && RegIn(s, reg)
  }

  lemma StartHolds(s: State, s': State, t: nat, reg: Registration)
    requires Drivers(s) && Exclusive(s) && Starts(s, s', t, reg)
    ensures Exclusive(s')
  {
    forall u, l | 0 <= u < |s'.threads| && Holds(s', u, l) ensures Holds(s, u, l) {
      assert DriverOf(s, u);
    }
  }

  lemma StartDrivers(s: State, s': State, t: nat, reg: Registration)
    requires Drivers(s) && Starts(s, s', t, reg)
    ensures Drivers(s')
  {
    hide RegIn;
    forall u | 0 <= u < |s'.threads| ensures DriverOf(s', u) { assert DriverOf(s, u); }
  }

  lemma StartRegs(s: State, s': State, t: nat, reg: Registration)
    requires Regs(s) && Starts(s, s', t, reg)
    ensures Regs(s')
  {
    forall r | 0 <= r < |s'.regs| ensures RegIn(s', s'.regs[r]) {
      assert RegIn(s, if r < |s.regs| then s.regs[r] else reg);
    }
  }

  lemma StartCounts(s: State, s': State, t: nat, reg: Registration)
    requires Drivers(s) && Counts(s) && Flights(s) && Starts(s, s', t, reg)
    ensures Counts(s') && Flights(s')
  {
    assert !Outstanding(reg) && reg.callbacks.inFlight == 0;
    hide RegIn, Outstanding;
    forall h | 0 <= h < |s'.handles| ensures HandleOk(s', h) {
      assert HandleOk(s, h) && Lessees(s', h) == Lessees(s, h);
    }
    forall r | 0 <= r < |s'.regs| ensures s'.regs[r].callbacks.inFlight == |Flying(s', r)| {
      if r < |s.regs| {
        assert Flying(s', r) == Flying(s, r);
      } else {
        forall u | 0 <= u < |s'.threads| ensures !InFlightOn(s'.threads[u], r) { assert DriverOf(s, u); }
        assert Flying(s', r) == {};
      }
    }
  }

  lemma StartRegisterKeeps(s: State, t: nat, params: seq<nat>, inputs: nat)
    requires Inv(s) && t < |s.threads| && Next(s, t, StartRegister(params, inputs)).Some?
    ensures Inv(Next(s, t, StartRegister(params, inputs)).value)
  {
    var s' := Next(s, t, StartRegister(params, inputs)).value;
    var reg := s'.regs[|s.regs|];
    PlanKnown(s, params);
    assert Starts(s, s', t, reg);
    hide Starts, Next;
    StartHolds(s, s', t, reg);
    StartDrivers(s, s', t, reg);
    StartRegs(s, s', t, reg);
    StartCounts(s, s', t, reg);
  }

  /** A Close that got its registration's mutex. */
  predicate Enters(s: State, s': State, t: nat, r: nat, q: Registration) {
    && t < |s.threads| && r < |s.regs| && s.threads[t].op == Waiting(r) && s.regs[r].driver.None? && s'.serialized == s.serialized
    && s'.handles == s.handles && s'.regs == s.regs[r := q] && s'.threads == s.threads[t := s.threads[t].(op := Driving(r))]
    && q == s.regs[r].(driver := Some(t), drive := Drive(Close, Checking, false, 0, false, 0))
  }

  lemma EnterDrivers(s: State, s': State, t: nat, r: nat, q: Registration)
    requires Drivers(s) && Enters(s, s', t, r, q)
    ensures Drivers(s')
  {
    forall u | 0 <= u < |s'.threads| ensures DriverOf(s', u) { assert DriverOf(s, u); }
  }

  lemma WaitKeeps(s: State, t: nat, success: bool)
    requires Inv(s) && t < |s.threads| && s.threads[t].op.Waiting? && Next(s, t, Advance(success)).Some?
    ensures Inv(Next(s, t, Advance(success)).value)
  {
    var s' := Next(s, t, Advance(success)).value;
    var r := s.threads[t].op.reg;
    var q := s'.regs[r];
    assert DriverOf(s, t) && RegIn(s, s.regs[r]);
    WaitHolds(s, t, success);
    assert RegIn(s, q);
    assert Enters(s, s', t, r, q);
    hide Next, Holds, RegIn;
    FlightsStay(s, s');
    RegsStay(s, s', r, q);
    LeasesFollow(s, s', r, q, 0);
    EnterDrivers(s, s', t, r, q);
  }

  lemma WaitHolds(s: State, t: nat, success: bool)
    requires Inv(s) && t < |s.threads| && s.threads[t].op.Waiting? && Next(s, t, Advance(success)).Some?
    ensures Exclusive(Next(s, t, Advance(success)).value)
  {
    var s' := Next(s, t, Advance(success)).value;
    var r := s.threads[t].op.reg;
    assert DriverOf(s, t);
    forall u, l | 0 <= u < |s'.threads| && Holds(s', u, l) ensures if u == t then l == RegistrationLock(r) else Holds(s, u, l) && l != RegistrationLock(r) {
      assert DriverOf(s, u);
    }
  }

  // ----- whole runs -----

  lemma StepKeeps(s: State, t: nat, e: Event)
    requires Inv(s) && t < |s.threads| && Next(s, t, e).Some?
    ensures Inv(Next(s, t, e).value)
  {
    match e
    case StartRegister(params, inputs) => StartRegisterKeeps(s, t, params, inputs);
    case StartClose(r) => StartCloseKeeps(s, t, r);
    case StartAct(closes, params) => StartActKeeps(s, t, closes, params);
    case NewHandle => NewHandleKeeps(s, Next(s, t, e).value);
    case Arrive(r) => ArriveKeeps(s, t, r);
    case BeginCallback => BeginKeeps(s, t);
    case RunUser => RunUserKeeps(s, t);
    case EndUser(failure) => EndUserKeeps(s, t, failure);
    case EndCallback => EndCallbackKeeps(s, t);
    case Advance(success) =>
      match s.threads[t].op {
        case Waiting(_) => WaitKeeps(s, t, success);
        case Driving(r) => assert DriverOf(s, t); DrivenKeeps(s, t, r, success);
        case Acting(_, _, _, _, _) => ActedKeeps(s, t, success);
        case Free =>
      }
  }

  lemma StepInv(s: State, s': State)
    requires Inv(s) && Step(s, s')
    ensures Inv(s')
  {
    hide Inv, Next;
    var t: nat, e :| t < |s.threads| && Next(s, t, e) == Some(s');
    StepKeeps(s, t, e);
  }

  lemma InitialInv(s: State)
    requires Initial(s)
    ensures Inv(s)
  {
    forall h | 0 <= h < |s.handles| ensures HandleOk(s, h) { assert Lessees(s, h) == {}; }
  }

  /** Every state of every run satisfies the invariant. */
  lemma {:induction false} RunInv(states: seq<State>, i: nat)
    requires Run(states) && i < |states|
    ensures Inv(states[i])
  {
    hide Inv, Step;
    if i == 0 {
      InitialInv(states[0]);
    } else {
      RunInv(states, i - 1);
      assert Step(states[i - 1], states[i - 1 + 1]);
      StepInv(states[i - 1], states[i]);
    }
  }
}
