/** What the invariant means for the users of a generated binding, over whole runs. */
module CallbackSafety {
  import opened Completions
  import opened LockPlan
  import opened CallbackProtocol
  import opened CallbackInvariant
  import opened CallbackSteps

  // ----- handles -----

  /** A handle's lease count is the number of successful registrations that use it and are not yet
      drained, each counted once; its native release runs at most once, exactly when it is closed. */
  lemma LeasesCountRegistrations(states: seq<State>, i: nat, h: nat)
    requires Run(states) && i < |states| && h < |states[i].handles|
    ensures var s := states[i];
            && s.handles[h].registrations == |set r | 0 <= r < |s.regs| && Outstanding(s.regs[r]) && h in s.regs[r].plan|
            && s.handles[h].releases == (if s.handles[h].closed then 1 else 0)
  {
    RunInv(states, i);
    assert HandleOk(states[i], h);
  }

  /** Nothing a registration still uses is released: its handles are open, so the closed-handle
      branch of its Close is never taken. */
  lemma LeasedHandlesAreOpen(s: State, r: nat, h: nat)
    requires Inv(s) && r < |s.regs| && Outstanding(s.regs[r]) && h in s.regs[r].plan
    ensures h < |s.handles| && !s.handles[h].closed && s.handles[h].releases == 0 && s.handles[h].registrations > 0
  {
    assert RegIn(s, s.regs[r]);
    assert HandleOk(s, h) && r in Lessees(s, h);
  }

  /** While a handle is released, the only callbacks that can be in flight on a registration it was
      passed to belong to a Register that failed and is being rolled back. */
  lemma ReleasedHandleHasNoCallbacks(s: State, t: nat, r: nat, h: nat)
    requires Inv(s) && t < |s.threads| && r < |s.regs| && InFlightOn(s.threads[t], r)
    requires h in s.regs[r].plan && h < |s.handles| && s.handles[h].closed
    ensures !s.regs[r].registered && s.regs[r].driver.Some? && s.regs[r].drive.kind.Register?
  {
    assert RegIn(s, s.regs[r]) && t in Flying(s, r);
    if s.regs[r].registered { LeasedHandlesAreOpen(s, r, h); }
  }

  // ----- one step, seen from a registration it may change -----

  /** What no step undoes. */
  predicate Later(reg: Registration, q: Registration) {
    && q.plan == reg.plan && |q.frees| == |reg.frees|
    && (reg.callbacks.failure.Some? ==> q.callbacks.failure == reg.callbacks.failure)
    && (reg.deleted ==> q.deleted) && (reg.closed ==> q.closed)
    && (forall i :: 0 <= i < |reg.frees| ==> reg.frees[i] <= q.frees[i])
  }

  /** A step that frees nothing changes no input. */
  predicate KeepsInputs(reg: Registration, q: Registration) {
    && q.plan == reg.plan && (reg.deleted ==> q.deleted) && (reg.closed ==> q.closed)
    && q.callbacks.failure == reg.callbacks.failure && (q.driver == reg.driver || q.driver.None?)
    && (q.frees == reg.frees || (reg.drive.phase.Freeing? && FreesNext(reg)))
    && (q.obtained == reg.obtained || reg.drive.phase.Preparing?) && (q.registered == reg.registered || reg.drive.phase.Native?)
  }

  predicate BeforeCall(phase: Phase) {
    phase.Preparing? || phase.Checking? || phase.WantGlobal?
  }

  predicate AroundCall(phase: Phase) {
    phase.WantHandles? || phase.Native? || phase.DropHandles? || phase.DropGlobal?
  }

  lemma EarlyKeepsInputs(reg: Registration, serialized: bool, open: bool, success: bool)
    requires BeforeCall(reg.drive.phase)
    ensures KeepsInputs(reg, Moved(reg, serialized, open, success))
  {
  }

  lemma CallKeepsInputs(reg: Registration, serialized: bool, open: bool, success: bool)
    requires AroundCall(reg.drive.phase)
    ensures KeepsInputs(reg, Moved(reg, serialized, open, success))
  {
    hide Moved, KeepsInputs;
    if reg.drive.phase.WantHandles? || reg.drive.phase.Native? { CallingKeepsInputs(reg, serialized, open, success); }
    else { DroppingKeepsInputs(reg, serialized, open, success); }
  }

  lemma CallingKeepsInputs(reg: Registration, serialized: bool, open: bool, success: bool)
    requires reg.drive.phase.WantHandles? || reg.drive.phase.Native?
    ensures KeepsInputs(reg, Moved(reg, serialized, open, success))
  {
  }

  lemma DroppingKeepsInputs(reg: Registration, serialized: bool, open: bool, success: bool)
    requires reg.drive.phase.DropHandles? || reg.drive.phase.DropGlobal?
    ensures KeepsInputs(reg, Moved(reg, serialized, open, success))
  {
  }

  predicate AfterDrain(phase: Phase) {
    phase.Freeing? || phase.Deleting? || phase.Leaving?
  }

  predicate AroundDrain(phase: Phase) {
    phase.Draining? || phase.Relocking? || phase.Redropping?
  }

  lemma SettledKeepsInputs(reg: Registration, serialized: bool, open: bool, success: bool)
    requires reg.drive.phase.Settled? || reg.drive.phase.Stopping? || reg.drive.phase.Resuming?
    ensures KeepsInputs(reg, Moved(reg, serialized, open, success))
  {
  }

  lemma DrainKeepsInputs(reg: Registration, serialized: bool, open: bool, success: bool)
    requires AroundDrain(reg.drive.phase)
    ensures KeepsInputs(reg, Moved(reg, serialized, open, success))
  {
    hide Moved, KeepsInputs;
    if reg.drive.phase.Draining? { WaitingKeepsInputs(reg, serialized, open, success); }
    else { RelockingKeepsInputs(reg, serialized, open, success); }
  }

  lemma WaitingKeepsInputs(reg: Registration, serialized: bool, open: bool, success: bool)
    requires reg.drive.phase.Draining?
    ensures KeepsInputs(reg, Moved(reg, serialized, open, success))
  {
  }

  lemma RelockingKeepsInputs(reg: Registration, serialized: bool, open: bool, success: bool)
    requires reg.drive.phase.Relocking? || reg.drive.phase.Redropping?
    ensures KeepsInputs(reg, Moved(reg, serialized, open, success))
  {
  }

  lemma LateKeepsInputs(reg: Registration, serialized: bool, open: bool, success: bool)
    requires AfterDrain(reg.drive.phase)
    ensures KeepsInputs(reg, Moved(reg, serialized, open, success))
  {
  }

  lemma MovedKeepsInputs(reg: Registration, serialized: bool, open: bool, success: bool)
    ensures KeepsInputs(reg, Moved(reg, serialized, open, success))
  {
    hide Moved;
    if BeforeCall(reg.drive.phase) { EarlyKeepsInputs(reg, serialized, open, success); }
    else if AroundCall(reg.drive.phase) { CallKeepsInputs(reg, serialized, open, success); }
    else if AroundDrain(reg.drive.phase) { DrainKeepsInputs(reg, serialized, open, success); }
    else if !AfterDrain(reg.drive.phase) { SettledKeepsInputs(reg, serialized, open, success); }
    else { LateKeepsInputs(reg, serialized, open, success); }
  }

  lemma MovedLater(reg: Registration, serialized: bool, open: bool, success: bool)
    ensures Later(reg, Moved(reg, serialized, open, success))
  {
    MovedKeepsInputs(reg, serialized, open, success);
    if reg.drive.phase.Freeing? && FreesNext(reg) {
      assert Moved(reg, serialized, open, success).frees == reg.frees[reg.drive.cursor := reg.frees[reg.drive.cursor] + 1];
    } else {
      hide Moved;
    }
  }

  lemma DrivenLater(s: State, t: nat, r: nat, success: bool, i: nat)
    requires t < |s.threads| && r < |s.regs| && i < |s.regs| && Driven(s, t, r, success).Some?
    ensures var s' := Driven(s, t, r, success).value;
            |s'.threads| == |s.threads| && |s.regs| == |s'.regs| && Later(s.regs[i], s'.regs[i])
  {
    MovedLater(s.regs[r], s.serialized, AllOpen(s, s.regs[r].plan), success);
    LaterItself(s.regs[i]);
    hide Moved, Later, Leased, Wanted, LeaseChange, Returns;
  }

  lemma StepLater(s: State, t: nat, e: Event, r: nat)
    requires t < |s.threads| && r < |s.regs| && Next(s, t, e).Some?
    ensures var s' := Next(s, t, e).value;
            |s'.threads| == |s.threads| && |s.regs| <= |s'.regs| && Later(s.regs[r], s'.regs[r])
  {
    if e.Advance? && s.threads[t].op.Driving? {
      DrivenLater(s, t, s.threads[t].op.reg, e.success, r);
      hide Driven, Later;
    } else if e.Advance? {
      hide Driven;
    } else {
      hide Plan, Driven, Acted;
    }
  }

  lemma LaterItself(reg: Registration)
    ensures Later(reg, reg)
  {
  }

  /** A callback is let in only by begin, and begin refuses it once the state is closing or failed. */
  lemma StepAdmits(s: State, t: nat, e: Event, u: nat, r: nat)
    requires t < |s.threads| && u < |s.threads| && r < |s.regs| && Next(s, t, e).Some?
    requires InFlightOn(Next(s, t, e).value.threads[u], r) && !InFlightOn(s.threads[u], r)
    ensures u == t && e.BeginCallback? && Admits(s.regs[r].callbacks)
  {
    if u != t { ThreadStays(s, t, e, u); }
    if e.Advance? {
      hide Next;
      AdvanceIsOwn(s, t, e.success);
    } else {
      hide Plan, Driven, Acted;
    }
  }

  // ----- callbacks, over whole runs -----

  /** No callback can be admitted any more. */
  predicate Sealed(reg: Registration) {
    reg.deleted || reg.callbacks.failure.Some?
  }

  lemma SealedStep(s: State, s': State, t: nat, r: nat)
    requires Inv(s) && Step(s, s') && t < |s.threads| && r < |s.regs| && Sealed(s.regs[r])
    ensures |s'.threads| == |s.threads| && r < |s'.regs| && Sealed(s'.regs[r]) && Later(s.regs[r], s'.regs[r])
    ensures InFlightOn(s'.threads[t], r) ==> InFlightOn(s.threads[t], r)
  {
    var a: nat, e :| a < |s.threads| && Next(s, a, e) == Some(s');
    StepLater(s, a, e, r);
    assert RegIn(s, s.regs[r]);
    if InFlightOn(s'.threads[t], r) && !InFlightOn(s.threads[t], r) {
      StepAdmits(s, a, e, t, r);
    }
  }

  lemma {:induction false} SealedRun(states: seq<State>, i: nat, j: nat, t: nat, r: nat)
    requires Run(states) && i <= j < |states| && t < |states[i].threads| && r < |states[i].regs| && Sealed(states[i].regs[r])
    ensures |states[j].threads| == |states[i].threads| && r < |states[j].regs|
    ensures Sealed(states[j].regs[r]) && Later(states[i].regs[r], states[j].regs[r])
    ensures InFlightOn(states[j].threads[t], r) ==> InFlightOn(states[i].threads[t], r)
  {
    hide Inv, Step;
    if i < j {
      SealedRun(states, i, j - 1, t, r);
      RunInv(states, j - 1);
      assert Step(states[j - 1], states[j - 1 + 1]);
      SealedStep(states[j - 1], states[j], t, r);
    }
  }

  /** No user callback is running when its context is deleted, and none starts afterwards. */
  lemma NoCallbackAfterDelete(states: seq<State>, i: nat, j: nat, t: nat, r: nat)
    requires Run(states) && i <= j < |states| && t < |states[i].threads| && r < |states[i].regs| && states[i].regs[r].deleted
    ensures |states[j].threads| == |states[i].threads| && !InFlightOn(states[j].threads[t], r)
    ensures r < |states[j].regs| && states[j].regs[r].callbacks.inFlight == 0
  {
    RunInv(states, i);
    RunInv(states, j);
    SealedRun(states, i, j, t, r);
    assert RegIn(states[i], states[i].regs[r]) && RegIn(states[j], states[j].regs[r]);
    assert t !in Flying(states[i], r);
  }

  /** The first failure is the one reported for good, and no callback starts after it. */
  lemma FirstFailureIsFinal(states: seq<State>, i: nat, j: nat, t: nat, r: nat)
    requires Run(states) && i <= j < |states| && t < |states[i].threads| && r < |states[i].regs|
    requires states[i].regs[r].callbacks.failure.Some?
    ensures r < |states[j].regs| && states[j].regs[r].callbacks.failure == states[i].regs[r].callbacks.failure
    ensures |states[j].threads| == |states[i].threads|
    ensures !InFlightOn(states[i].threads[t], r) ==> !InFlightOn(states[j].threads[t], r)
  {
    SealedRun(states, i, j, t, r);
  }

  /** While a callback is in flight its context is alive and nothing it was given has been freed. */
  lemma CallbackSeesLiveContext(states: seq<State>, i: nat, t: nat)
    requires Run(states) && i < |states| && t < |states[i].threads|
    requires states[i].threads[t].callback.Admitted? || states[i].threads[t].callback.Running? || states[i].threads[t].callback.Ending?
    ensures var s := states[i];
            var r := s.threads[t].callback.reg;
            r < |s.regs| && s.regs[r].created && !s.regs[r].deleted && s.regs[r].obtained == |s.regs[r].frees| && FreedTo(s.regs[r], 0)
  {
    var s := states[i];
    RunInv(states, i);
    assert DriverOf(s, t);
    var r := s.threads[t].callback.reg;
    assert RegIn(s, s.regs[r]) && t in Flying(s, r);
  }

  // ----- retained inputs -----

  /** No input is freed twice; when one has been freed, no callback is in flight, none can start,
      and the operation that freed it holds neither the global nor a handle mutex. */
  lemma FreesFollowTheDrain(states: seq<State>, i: nat, r: nat, k: nat)
    requires Run(states) && i < |states| && r < |states[i].regs| && k < |states[i].regs[r].frees|
    ensures var s := states[i]; var reg := s.regs[r];
            && reg.frees[k] <= 1
            && (reg.frees[k] == 1 ==>
                  && k < reg.obtained && reg.callbacks.inFlight == 0 && (reg.created ==> !Admits(reg.callbacks))
                  && (reg.driver.Some? ==> reg.driver.value < |s.threads| && !Holds(s, reg.driver.value, GlobalLock)
                                           && forall h :: !Holds(s, reg.driver.value, HandleLock(h))))
  {
    RunInv(states, i);
    assert RegIn(states[i], states[i].regs[r]);
  }

  /** The step that returns from a Register or Close leaves one of these, by its outcome: a usable
      registration with no input freed, or none at all with each allocated input freed exactly once. */
  lemma ReturnSettles(s: State, t: nat, success: bool)
    requires Inv(s) && t < |s.threads| && s.threads[t].op.Driving? && s.threads[t].op.reg < |s.regs|
    requires Next(s, t, Advance(success)).Some? && Next(s, t, Advance(success)).value.threads[t].op.Free?
    ensures var r := s.threads[t].op.reg;
            var reg := Next(s, t, Advance(success)).value.regs[r];
            && (reg.published && !reg.closed ==> Usable(reg))
            && (reg.published && reg.closed ==> Finished(reg))
            && (!reg.published ==> Failed(reg))
            && (reg.published <==> reg.registered)
  {
    var r := s.threads[t].op.reg;
    var s' := Next(s, t, Advance(success)).value;
    assert DriverOf(s, t);
    StepKeeps(s, t, Advance(success));
    assert RegIn(s', s'.regs[r]);
    assert s'.regs[r].driver.None? by { hide Moved, RegOk; StepReturns(s, t, success); }
  }

  lemma StepReturns(s: State, t: nat, success: bool)
    requires Inv(s) && t < |s.threads| && s.threads[t].op.Driving? && s.threads[t].op.reg < |s.regs|
    requires Next(s, t, Advance(success)).Some? && Next(s, t, Advance(success)).value.threads[t].op.Free?
    ensures Next(s, t, Advance(success)).value.regs[s.threads[t].op.reg].driver.None?
  {
    var s' := Next(s, t, Advance(success)).value;
    StepKeeps(s, t, Advance(success));
    assert DriverOf(s, t);
    var r := s.threads[t].op.reg;
    assert s.regs[r].driver == Some(t);
    if s'.regs[r].driver.Some? { MovedKeepsInputs(s.regs[r], s.serialized, AllOpen(s, s.regs[r].plan), success); }
  }
}
