/** Runs that reach the states in which the protocol falls short, and the exact condition on callbacks
    under which no run does. */
module CallbackWitnesses {
  import opened Completions
  import opened LockPlan
  import opened CallbackProtocol
  import opened CallbackInvariant
  import opened CallbackSteps
  import opened CallbackDeadlock
  import opened CallbackRings

  ghost predicate Reachable(s: State, rel: set<(nat, nat)>) {
    exists states :: RunAlong(states, rel) && states[|states| - 1] == s
  }

  lemma StartsReachable(s: State, rel: set<(nat, nat)>)
    requires Initial(s)
    ensures Reachable(s, rel)
  {
    assert RunAlong([s], rel);
  }

  lemma StepReaches(s: State, t: nat, e: Event, rel: set<(nat, nat)>)
    requires Reachable(s, rel) && t < |s.threads| && Next(s, t, e).Some? && Along(Next(s, t, e).value, rel)
    ensures Reachable(Next(s, t, e).value, rel)
  {
    hide Next, Initial, Along;
    var states :| RunAlong(states, rel) && states[|states| - 1] == s;
    var next := Next(s, t, e).value;
    var longer := states + [next];
    forall i | 0 <= i < |longer| - 1 ensures Step(longer[i], longer[i + 1]) {
      if i < |states| - 1 { assert Step(states[i], states[i + 1]); } else { assert Next(longer[i], t, e) == Some(longer[i + 1]); }
    }
    assert RunAlong(longer, rel);
  }

  lemma ReachableInv(s: State, rel: set<(nat, nat)>)
    requires Reachable(s, rel)
    ensures Inv(s) && Along(s, rel)
  {
    hide Inv, Along;
    var states :| RunAlong(states, rel) && states[|states| - 1] == s;
    RunInv(states, |states| - 1);
  }

  // ----- registrations without handles and inputs -----

  function Fresh(t: nat): Registration {
    Registration([], 0, [], Callbacks(false, None, 0), false, false, false, false, false, Some(t), Drive(Register, Preparing, false, 0, false, 0))
  }

  /** Usable, with its callback state still empty but for the calls in flight. */
  predicate Open(reg: Registration) {
    && reg.plan == [] && reg.created && reg.registered && reg.published && !reg.deleted && !reg.closed && reg.driver.None?
    && !reg.callbacks.closing && reg.callbacks.failure.None?
  }

  /** No handles and no global mutex. */
  predicate Bare(s: State) {
    !s.serialized && s.handles == []
  }

  function Put(s: State, r: nat, reg: Registration): State
    requires r < |s.regs|
  {
    s.(regs := s.regs[r := reg])
  }

  lemma DriveMoves(s: State, t: nat, r: nat, reg: Registration)
    requires t < |s.threads| && r < |s.regs| && Bare(s) && s.threads[t].op == Driving(r) && reg.plan == [] && !reg.drive.phase.Draining?
    ensures var moved := Put(s, r, Moved(reg, false, true, true));
            Next(Put(s, r, reg), t, Advance(true)) == Some(if Returns(reg) then WithThread(moved, t, s.threads[t].(op := Free)) else moved)
  {
    var from := Put(s, r, reg);
    assert Leased(from, [], 1) == [] && Leased(from, [], -1) == [];
    assert from.regs[r := Moved(reg, false, true, true)] == s.regs[r := Moved(reg, false, true, true)];
    hide Moved, Holds;
  }

  /** The driver of a registration without handles takes it one step further. */
  lemma Drives(s: State, t: nat, r: nat, reg: Registration, rel: set<(nat, nat)>)
    requires t < |s.threads| && r < |s.regs| && Bare(s) && s.threads[t].op == Driving(r) && Reachable(Put(s, r, reg), rel)
    requires reg.plan == [] && !reg.drive.phase.Draining? && !Returns(reg)
    ensures Reachable(Put(s, r, Moved(reg, false, true, true)), rel)
  {
    hide Inv, Moved, Reachable, Next;
    ReachableInv(Put(s, r, reg), rel);
    DriveMoves(s, t, r, reg);
    StepReaches(Put(s, r, reg), t, Advance(true), rel);
  }

  /** The last step of a successful Register. */
  lemma Settles(s: State, t: nat, r: nat, reg: Registration, rel: set<(nat, nat)>)
    requires t < |s.threads| && r < |s.regs| && Bare(s) && s.threads[t] == Thread(Outside, Driving(r)) && Reachable(Put(s, r, reg), rel)
    requires reg.plan == [] && reg.drive.phase.Settled? && reg.drive.kind.Register? && reg.drive.ok
    ensures Reachable(WithThread(Put(s, r, reg.(published := true, driver := None)), t, Thread(Outside, Free)), rel)
  {
    hide Inv, Reachable, Next;
    ReachableInv(Put(s, r, reg), rel);
    DriveMoves(s, t, r, reg);
    StepReaches(Put(s, r, reg), t, Advance(true), rel);
  }

  /** Register without handles, from its first step to its return. */
  lemma Registers(s: State, t: nat, r: nat, rel: set<(nat, nat)>)
    requires t < |s.threads| && r < |s.regs| && Bare(s) && s.threads[t] == Thread(Outside, Driving(r)) && Reachable(Put(s, r, Fresh(t)), rel)
    ensures exists reg :: Open(reg) && Reachable(WithThread(Put(s, r, reg), t, Thread(Outside, Free)), rel)
  {
    hide Reachable;
    var r0 := Fresh(t);
    Drives(s, t, r, r0, rel);
    var r1 := r0.(created := true, drive := r0.drive.(phase := WantGlobal));
    Drives(s, t, r, r1, rel);
    var r2 := r1.(drive := r0.drive.(phase := WantHandles));
    Drives(s, t, r, r2, rel);
    var r3 := r1.(drive := r0.drive.(phase := Native));
    Drives(s, t, r, r3, rel);
    var r4 := r1.(registered := true, drive := r0.drive.(phase := DropHandles, ok := true));
    Drives(s, t, r, r4, rel);
    var r5 := r4.(drive := r4.drive.(phase := DropGlobal));
    Drives(s, t, r, r5, rel);
    var r6 := r4.(drive := r4.drive.(phase := Settled));
    Settles(s, t, r, r6, rel);
    assert Open(r6.(published := true, driver := None));
  }

  // ----- a ring along any closed walk -----

  /** The first `entered` threads are in a callback of their registration on the walk, and the first
      `asked` of them have called Close on the next one. */
  predicate Stage(s: State, rs: seq<nat>, entered: nat, asked: nat) {
    && Bare(s) && |rs| == |s.threads| + 1 && (forall i :: 0 <= i < |rs| ==> rs[i] < |s.regs|)
    && (forall r :: 0 <= r < |s.regs| ==> Open(s.regs[r]))
    && (forall t :: 0 <= t < |s.threads| ==> s.threads[t] == Place(rs, t, entered, asked))
  }

  function Place(rs: seq<nat>, t: nat, entered: nat, asked: nat): Thread
    requires t + 1 < |rs|
  {
    Thread(if t < entered then Running(rs[t]) else Outside, if t < asked then Waiting(rs[t + 1]) else Free)
  }

  /** Threads outside callbacks, and registrations that thread 0 has made. */
  predicate Ready(s: State, threads: nat, regs: nat) {
    && Bare(s) && |s.threads| == threads && |s.regs| == regs
    && (forall r :: 0 <= r < |s.regs| ==> Open(s.regs[r]))
    && (forall t :: 0 <= t < |s.threads| ==> s.threads[t] == Thread(Outside, Free))
  }

  lemma {:induction false} RegistersAll(threads: nat, regs: nat, rel: set<(nat, nat)>) returns (s: State)
    requires threads > 0
    ensures Reachable(s, rel) && Ready(s, threads, regs)
    decreases regs
  {
    if regs == 0 {
      s := State(false, [], [], seq(threads, _ => Thread(Outside, Free)));
      StartsReachable(s, rel);
    } else {
      var before := RegistersAll(threads, regs - 1, rel);
      s := RegistersOneMore(before, threads, regs - 1, rel);
    }
  }

  lemma RegistersOneMore(s: State, threads: nat, regs: nat, rel: set<(nat, nat)>) returns (s': State)
    requires threads > 0 && Reachable(s, rel) && Ready(s, threads, regs)
    ensures Reachable(s', rel) && Ready(s', threads, regs + 1)
  {
    hide Reachable;
    var params: seq<nat> := [];
    assert Plan(params) == [];
    var started := Next(s, 0, StartRegister(params, 0)).value;
    assert started.regs[regs].frees == [] && started.regs == s.regs + [Fresh(0)];
    StepReaches(s, 0, StartRegister(params, 0), rel);
    assert Put(started, regs, Fresh(0)) == started;
    Registers(started, 0, regs, rel);
    var reg :| Open(reg) && Reachable(WithThread(Put(started, regs, reg), 0, Thread(Outside, Free)), rel);
    s' := WithThread(Put(started, regs, reg), 0, Thread(Outside, Free));
  }

  /** Thread `t` enters a callback of its registration. */
  lemma EntersOneMore(s: State, rs: seq<nat>, t: nat, rel: set<(nat, nat)>) returns (s': State)
    requires t < |s.threads| && Reachable(s, rel) && Stage(s, rs, t, 0)
    ensures Reachable(s', rel) && Stage(s', rs, t + 1, 0)
  {
    hide Reachable, Plan;
    var r := rs[t];
    var arrived := WithThread(s, t, Thread(Entered(r), Free));
    assert Open(s.regs[r]);
    StepReaches(s, t, Arrive(r), rel);
    var c := s.regs[r].callbacks;
    var counted := WithReg(s, r, s.regs[r].(callbacks := c.(inFlight := c.inFlight + 1)));
    var admitted := WithThread(counted, t, Thread(Admitted(r), Free));
    assert WithThread(WithReg(arrived, r, counted.regs[r]), t, Thread(Admitted(r), Free)) == admitted;
    StepReaches(arrived, t, BeginCallback, rel);
    s' := WithThread(counted, t, Thread(Running(r), Free));
    assert WithThread(admitted, t, Thread(Running(r), Free)) == s';
    StepReaches(admitted, t, RunUser, rel);
  }

  lemma {:induction false} EntersAll(s: State, rs: seq<nat>, t: nat, rel: set<(nat, nat)>) returns (s': State)
    requires t <= |s.threads| && Reachable(s, rel) && Stage(s, rs, t, 0)
    ensures |s'.threads| == |s.threads| && Reachable(s', rel) && Stage(s', rs, |s.threads|, 0)
    decreases |s.threads| - t
  {
    hide Reachable;
    s' := s;
    if t < |s.threads| {
      s' := EntersOneMore(s, rs, t, rel);
      s' := EntersAll(s', rs, t + 1, rel);
    }
  }

  /** From inside its callback, each thread calls Close on the next registration. */
  lemma {:induction false} AsksAll(s: State, rs: seq<nat>, t: nat, rel: set<(nat, nat)>) returns (s': State)
    requires t <= |s.threads| && Reachable(s, rel) && Stage(s, rs, |s.threads|, t) && Walk(rs, rel)
    ensures |s'.threads| == |s.threads| && Reachable(s', rel) && Stage(s', rs, |s.threads|, |s.threads|)
    decreases |s.threads| - t
  {
    hide Reachable;
    s' := s;
    if t < |s.threads| {
      s' := WithThread(s, t, Thread(Running(rs[t]), Waiting(rs[t + 1])));
      hide Plan;
      assert Open(s.regs[rs[t + 1]]);
      StepReaches(s, t, StartClose(rs[t + 1]), rel);
      s' := AsksAll(s', rs, t + 1, rel);
    }
  }

  // ----- the closers drain -----

  predicate Drained(reg: Registration) {
    reg.driver.Some? && reg.drive.phase.Draining?
  }

  /** Every thread is in its callback and closes the next registration; the registrations are open or being
      drained, and at least those that the first `n` threads close are. */
  predicate Closing(s: State, rs: seq<nat>, n: nat) {
    && Bare(s) && |rs| == |s.threads| + 1 && (forall i :: 0 <= i < |rs| ==> rs[i] < |s.regs|)
    && (forall r :: 0 <= r < |s.regs| ==> Open(s.regs[r]) || Drained(s.regs[r]))
    && (forall t :: 0 <= t < |s.threads| ==> s.threads[t].callback == Running(rs[t]) && WorksOn(s.threads[t], rs[t + 1]))
    && (forall i :: 0 < i < |rs| && i <= n ==> Drained(s.regs[rs[i]]))
  }

  /** A Close of an open registration comes to its drain. */
  lemma Closes(s: State, t: nat, r: nat, reg: Registration, rel: set<(nat, nat)>)
    requires t < |s.threads| && r < |s.regs| && Bare(s) && s.threads[t].op == Driving(r) && Open(reg)
    requires Reachable(Put(s, r, reg.(driver := Some(t), drive := Drive(Close, Checking, false, 0, false, 0))), rel)
    ensures exists q :: Drained(q) && Reachable(Put(s, r, q), rel)
  {
    hide Reachable;
    var r0 := reg.(driver := Some(t), drive := Drive(Close, Checking, false, 0, false, 0));
    Drives(s, t, r, r0, rel);
    var r1 := r0.(callbacks := reg.callbacks.(closing := true), drive := r0.drive.(phase := WantGlobal));
    Drives(s, t, r, r1, rel);
    var r2 := r1.(drive := r0.drive.(phase := WantHandles));
    Drives(s, t, r, r2, rel);
    var r3 := r1.(drive := r0.drive.(phase := Native));
    ClosesNatively(s, t, r, r3, rel);
  }

  lemma ClosesNatively(s: State, t: nat, r: nat, reg: Registration, rel: set<(nat, nat)>)
    requires t < |s.threads| && r < |s.regs| && Bare(s) && s.threads[t].op.Driving? && s.threads[t].op.reg == r && reg.plan == []
    requires reg.driver.Some? && reg.drive == Drive(Close, Native, false, 0, false, 0) && Reachable(Put(s, r, reg), rel)
    ensures exists q :: Drained(q) && Reachable(Put(s, r, q), rel)
  {
    hide Reachable;
    Drives(s, t, r, reg, rel);
    var r4 := reg.(drive := Drive(Close, DropHandles, false, 0, true, 0));
    Drives(s, t, r, r4, rel);
    var r5 := reg.(drive := Drive(Close, DropGlobal, false, 0, true, 0));
    Drives(s, t, r, r5, rel);
    var r6 := reg.(drive := Drive(Close, Settled, false, 0, true, 0));
    Drives(s, t, r, r6, rel);
    assert Drained(reg.(drive := Drive(Close, Draining, false, 0, true, 0)));
  }

  /** Thread `t` gets the mutex of a registration that nobody drives, and drains it. */
  lemma TakesOver(s: State, rs: seq<nat>, t: nat, rel: set<(nat, nat)>) returns (s': State)
    requires t < |s.threads| && Reachable(s, rel) && Closing(s, rs, t) && Open(s.regs[rs[t + 1]])
    ensures |s'.threads| == |s.threads| && Reachable(s', rel) && Closing(s', rs, t + 1)
  {
    var r := rs[t + 1];
    var driven := WithThread(s, t, s.threads[t].(op := Driving(r)));
    hide Inv, Reachable, Next;
    ReachableInv(s, rel);
    assert WorksOn(s.threads[t], r);
    GetsMutex(s, t, r);
    StillAlong(s, Next(s, t, Advance(true)).value, t, r, rel);
    StepReaches(s, t, Advance(true), rel);
    Closes(driven, t, r, s.regs[r], rel);
    var q :| Drained(q) && Reachable(Put(driven, r, q), rel);
    s' := Put(driven, r, q);
    StillClosing(s, s', rs, t, q);
  }

  lemma GetsMutex(s: State, t: nat, r: nat)
    requires Inv(s) && t < |s.threads| && r < |s.regs| && WorksOn(s.threads[t], r) && Open(s.regs[r])
    ensures Next(s, t, Advance(true)) == Some(Put(WithThread(s, t, s.threads[t].(op := Driving(r))), r,
              s.regs[r].(driver := Some(t), drive := Drive(Close, Checking, false, 0, false, 0))))
  {
    assert DriverOf(s, t);
    hide Inv, Driven, Acted;
  }

  lemma StillClosing(s: State, s': State, rs: seq<nat>, t: nat, q: Registration)
    requires Closing(s, rs, t) && t < |s.threads| && Drained(q)
    requires s' == Put(WithThread(s, t, s.threads[t].(op := Driving(rs[t + 1]))), rs[t + 1], q)
    ensures Closing(s', rs, t + 1)
  {
    hide Open, Drained;
    assert forall u :: 0 <= u < |s.threads| && u != t ==> s'.threads[u] == s.threads[u];
  }

  lemma StillAlong(s: State, s': State, t: nat, r: nat, rel: set<(nat, nat)>)
    requires Along(s, rel) && t < |s.threads| && s'.threads == s.threads[t := s.threads[t].(op := Driving(r))] && WorksOn(s.threads[t], r)
    ensures Along(s', rel)
  {
    forall u: nat, next: nat | u < |s'.threads| && !s'.threads[u].callback.Outside? && WorksOn(s'.threads[u], next)
      ensures (s'.threads[u].callback.reg, next) in rel
    {
      assert WorksOn(s.threads[u], next);
    }
  }

  lemma {:induction false} ClosesAll(s: State, rs: seq<nat>, t: nat, rel: set<(nat, nat)>) returns (s': State)
    requires t <= |s.threads| && Reachable(s, rel) && Closing(s, rs, t)
    ensures |s'.threads| == |s.threads| && Reachable(s', rel) && Closing(s', rs, |s.threads|)
    decreases |s.threads| - t
  {
    hide Reachable;
    s' := s;
    if t < |s.threads| {
      if !Drained(s.regs[rs[t + 1]]) { s' := TakesOver(s, rs, t, rel); }
      s' := ClosesAll(s', rs, t + 1, rel);
    }
  }

  /** When all are being drained, the threads form the ring. */
  lemma ClosingRing(s: State, rs: seq<nat>) returns (ds: seq<nat>, us: seq<nat>)
    requires Inv(s) && Closing(s, rs, |s.threads|) && |rs| > 1 && rs[0] == rs[|rs| - 1]
    ensures Ring(s, rs, ds, us)
  {
    hide Inv;
    assert forall i :: 0 <= i < |rs| ==> rs[i] < |s.regs| && Drained(s.regs[rs[i]]);
    ds := seq(|s.threads|, t requires 0 <= t < |s.threads| => s.regs[rs[t]].driver.value);
    us := seq(|s.threads|, t requires 0 <= t < |s.threads| => t);
    hide Closing;
    forall t | 0 <= t < |ds| ensures Link(s, rs[t], ds[t], us[t], rs[t + 1]) {
      ClosingLink(s, rs, t);
    }
  }

  lemma ClosingLink(s: State, rs: seq<nat>, t: nat)
    requires Inv(s) && Closing(s, rs, |s.threads|) && t < |s.threads| && Drained(s.regs[rs[t]])
    ensures Link(s, rs[t], s.regs[rs[t]].driver.value, t, rs[t + 1])
  {
    hide Inv, Open;
    DrainerWaits(s, rs[t]);
    assert s.threads[t].callback == Running(rs[t]) && WorksOn(s.threads[t], rs[t + 1]);
  }

  lemma DrainerWaits(s: State, r: nat)
    requires Inv(s) && r < |s.regs| && Drained(s.regs[r])
    ensures var d := s.regs[r].driver.value; d < |s.threads| && WaitOf(s, d) == ForCallbacks(r)
  {
  }

  function Bound(rs: seq<nat>): (n: nat)
    ensures forall i :: 0 <= i < |rs| ==> rs[i] < n
  {
    if rs == [] then 0 else
      var n := Bound(rs[1..]);
      assert forall i :: 0 < i < |rs| ==> rs[i] == rs[1..][i - 1];
      if rs[0] < n then n else rs[0] + 1
  }

  /** Along every closed walk of the relation, in which callbacks close as it allows, a run leads to a
      cycle of waiters. */
  lemma RingHappens(rs: seq<nat>, rel: set<(nat, nat)>) returns (s: State, ds: seq<nat>, us: seq<nat>)
    requires Walk(rs, rel)
    ensures Reachable(s, rel) && Ring(s, rs, ds, us)
  {
    hide Reachable, Ring, Inv;
    s := RegistersAll(|rs| - 1, Bound(rs), rel);
    assert Stage(s, rs, 0, 0);
    s := EntersAll(s, rs, 0, rel);
    s := AsksAll(s, rs, 0, rel);
    AskedIsClosing(s, rs);
    s := ClosesAll(s, rs, 0, rel);
    ReachableInv(s, rel);
    ds, us := ClosingRing(s, rs);
  }

  lemma AskedIsClosing(s: State, rs: seq<nat>)
    requires Stage(s, rs, |s.threads|, |s.threads|)
    ensures Closing(s, rs, 0)
  {
  }

  /** Callbacks that only close and register along a relation never lead to a cycle of waiters, in any run,
      if and only if the relation is acyclic. */
  lemma DeadlockFreeExactly(rel: set<(nat, nat)>)
    ensures (forall states, i, path :: RunAlong(states, rel) && 0 <= i < |states| ==> !Cycle(states[i], path))
            <==> (forall rs :: !Walk(rs, rel))
  {
    hide Walk, RunAlong, Cycle, Ring, Reachable;
    if forall rs :: !Walk(rs, rel) {
      forall states, i, path | RunAlong(states, rel) && 0 <= i < |states| ensures !Cycle(states[i], path) {
        AcyclicNeverWaits(states, i, rel, path);
      }
    } else {
      var rs :| Walk(rs, rel);
      WalkReachesCycle(rs, rel);
    }
  }

  lemma WalkReachesCycle(rs: seq<nat>, rel: set<(nat, nat)>)
    requires Walk(rs, rel)
    ensures exists states, i, path :: RunAlong(states, rel) && 0 <= i < |states| && Cycle(states[i], path)
  {
    hide Inv, Walk, Cycle, Ring;
    var s, ds, us := RingHappens(rs, rel);
    ReachableInv(s, rel);
    RingHasCycle(s, rs, ds, us);
    var path :| Cycle(s, path);
    var states :| RunAlong(states, rel) && states[|states| - 1] == s;
    assert Cycle(states[|states| - 1], path);
  }

  ghost predicate HasRing(s: State, rs: seq<nat>) {
    exists ds, us :: Ring(s, rs, ds, us)
  }

  ghost predicate EndsInRing(states: seq<State>, rs: seq<nat>) {
    states != [] && HasRing(states[|states| - 1], rs)
  }

  /** In particular a run ends with a Close that waits for the callback it is called from, and another
      with two callbacks that each close the other's registration. */
  lemma RingsHappen()
    ensures exists states :: Run(states) && EndsInRing(states, [0, 0])
    ensures exists states :: Run(states) && EndsInRing(states, [0, 1, 0])
  {
    RingIsReached([0, 0], {(0, 0)});
    RingIsReached([0, 1, 0], {(0, 1), (1, 0)});
  }

  lemma RingIsReached(rs: seq<nat>, rel: set<(nat, nat)>)
    requires Walk(rs, rel)
    ensures exists states :: Run(states) && EndsInRing(states, rs)
  {
    hide Ring, Inv;
    var s, ds, us := RingHappens(rs, rel);
    var states :| RunAlong(states, rel) && states[|states| - 1] == s;
    assert HasRing(s, rs) && EndsInRing(states, rs);
  }

  // ----- a handle released under a callback -----

  /** Two threads, one handle, one registration on it that thread 0 drives. */
  function Two(h: Handle, reg: Registration, th: Thread): State {
    State(false, [h], [reg], [Thread(Outside, Driving(0)), th])
  }

  lemma TwoDrives(reg: Registration, th: Thread, success: bool)
    requires Reachable(Two(Handle(false, 0, 0), reg, th), {}) && th.op.Free? && reg.plan == [0]
    requires !reg.drive.phase.Draining? && !Returns(reg) && LeaseChange(reg, success) == 0
    ensures Reachable(Two(Handle(false, 0, 0), Moved(reg, false, true, success), th), {})
  {
    var s := Two(Handle(false, 0, 0), reg, th);
    assert s.regs[0 := Moved(reg, false, true, success)] == [Moved(reg, false, true, success)];
    assert reg.plan[..0] == [];
    hide Moved, Plan, Reachable;
    assert Next(s, 0, Advance(success)) == Some(Two(Handle(false, 0, 0), Moved(reg, false, true, success), th));
    StepReaches(s, 0, Advance(success), {});
  }

  lemma TwoMoves(h: Handle, reg: Registration, th: Thread, e: Event, h': Handle, reg': Registration, th': Thread)
    requires Reachable(Two(h, reg, th), {})
    requires Next(Two(h, reg, th), 1, e) == Some(WithThread(Two(h', reg', th), 1, th'))
    requires !th'.op.Waiting? && !th'.op.Driving?
    ensures Reachable(Two(h', reg', th'), {})
  {
    assert [Thread(Outside, Driving(0)), th][1 := th'] == [Thread(Outside, Driving(0)), th'];
    assert Along(Two(h', reg', th'), {});
    hide Next, Reachable, Along;
    StepReaches(Two(h, reg, th), 1, e, {});
  }

  function OnHandle(): Registration {
    Fresh(0).(plan := [0])
  }

  lemma OnHandleReachable()
    ensures Reachable(Two(Handle(false, 0, 0), OnHandle(), Thread(Outside, Free)), {})
  {
    var s := State(false, [Handle(false, 0, 0)], [], [Thread(Outside, Free), Thread(Outside, Free)]);
    StartsReachable(s, {});
    var params: seq<nat> := [0];
    PlanOfOne(params);
    hide Plan;
    StepReaches(s, 0, StartRegister(params, 0), {});
    var next := Next(s, 0, StartRegister(params, 0)).value;
    assert next.regs[0].frees == [] && next.regs == [OnHandle()];
    assert next.threads == [Thread(Outside, Driving(0)), Thread(Outside, Free)];
  }

  /** Register has reached its native call, and the callback already runs. */
  lemma CallbackDuringRegister()
    ensures Reachable(Two(Handle(false, 0, 0),
                          OnHandle().(created := true, callbacks := Callbacks(false, None, 1), drive := Drive(Register, Native, false, 1, false, 0)),
                          Thread(Running(0), Free)), {})
  {
    OnHandleReachable();
    hide Reachable;
    var h, r0, idle := Handle(false, 0, 0), OnHandle(), Thread(Outside, Free);
    TwoDrives(r0, idle, true);
    var r1 := r0.(created := true, drive := Drive(Register, WantGlobal, false, 0, false, 0));
    TwoDrives(r1, idle, true);
    var r2 := r1.(drive := Drive(Register, WantHandles, false, 0, false, 0));
    TwoDrives(r2, idle, true);
    var r3 := r1.(drive := Drive(Register, WantHandles, false, 1, false, 0));
    TwoDrives(r3, idle, true);
    var r4 := r1.(drive := Drive(Register, Native, false, 1, false, 0));
    CallbackEnters(r4);
  }

  lemma CallbackEnters(reg: Registration)
    requires Reachable(Two(Handle(false, 0, 0), reg, Thread(Outside, Free)), {})
    requires reg.created && !reg.deleted && reg.callbacks == Callbacks(false, None, 0)
    ensures Reachable(Two(Handle(false, 0, 0), reg.(callbacks := Callbacks(false, None, 1)), Thread(Running(0), Free)), {})
  {
    hide Reachable, Plan;
    var h, flying := Handle(false, 0, 0), reg.(callbacks := Callbacks(false, None, 1));
    TwoMoves(h, reg, Thread(Outside, Free), Arrive(0), h, reg, Thread(Entered(0), Free));
    assert [reg][0 := flying] == [flying];
    TwoMoves(h, reg, Thread(Entered(0), Free), BeginCallback, h, flying, Thread(Admitted(0), Free));
    TwoMoves(h, flying, Thread(Admitted(0), Free), RunUser, h, flying, Thread(Running(0), Free));
  }

  /** The callback closes the handle as soon as the failed Register has dropped its mutex. */
  lemma HandleCloses(reg: Registration)
    requires Reachable(Two(Handle(false, 0, 0), reg, Thread(Running(0), Free)), {}) && reg.plan == [0] && reg.drive.locked == 0
    ensures exists th: Thread :: th.callback == Running(0) && Reachable(Two(Handle(true, 0, 1), reg, th), {})
  {
    hide Reachable;
    var h, op := Handle(false, 0, 0), Acting(true, [0], WantGlobal, false, 0);
    var params: seq<nat> := [0];
    PlanOfOne(params);
    hide Plan;
    var asks, locks := op.(phase := WantHandles), op.(phase := WantHandles, locked := 1);
    var calls, drops := locks.(phase := Native), locks.(phase := DropHandles);
    TwoMoves(h, reg, Thread(Running(0), Free), StartAct(true, params), h, reg, Thread(Running(0), op));
    TwoMoves(h, reg, Thread(Running(0), op), Advance(true), h, reg, Thread(Running(0), asks));
    assert reg.plan[..0] == [] && op.plan[..0] == [];
    TwoMoves(h, reg, Thread(Running(0), asks), Advance(true), h, reg, Thread(Running(0), locks));
    TwoMoves(h, reg, Thread(Running(0), locks), Advance(true), h, reg, Thread(Running(0), calls));
    assert [h][0 := Handle(true, 0, 1)] == [Handle(true, 0, 1)];
    TwoMoves(h, reg, Thread(Running(0), calls), Advance(true), Handle(true, 0, 1), reg, Thread(Running(0), drops));
  }

  /** Thread `t` is in a callback of registration `r`, whose handle `h` has been released. */
  predicate ReleasedUnder(s: State, t: nat, r: nat, h: nat) {
    && t < |s.threads| && r < |s.regs| && h < |s.handles| && InFlightOn(s.threads[t], r)
    && h in s.regs[r].plan && s.handles[h].closed && s.handles[h].releases == 1
  }

  /** A run ends with a handle that has been released while a callback of a registration on it is in
      flight: the registration's native call has failed, and it is being rolled back. */
  lemma ReleaseUnderCallbackHappens()
    ensures exists states :: Run(states) && ReleasedUnder(states[|states| - 1], 1, 0, 0)
  {
    CallbackDuringRegister();
    var r5 := OnHandle().(created := true, callbacks := Callbacks(false, None, 1), drive := Drive(Register, DropHandles, false, 0, false, 0));
    RegisterFails(r5);
    HandleCloses(r5);
    var th: Thread :| th.callback == Running(0) && Reachable(Two(Handle(true, 0, 1), r5, th), {});
    var states :| RunAlong(states, {}) && states[|states| - 1] == Two(Handle(true, 0, 1), r5, th);
    assert ReleasedUnder(states[|states| - 1], 1, 0, 0);
  }

  lemma RegisterFails(last: Registration)
    requires last == OnHandle().(created := true, callbacks := Callbacks(false, None, 1), drive := Drive(Register, DropHandles, false, 0, false, 0))
    ensures Reachable(Two(Handle(false, 0, 0), last, Thread(Running(0), Free)), {})
  {
    CallbackDuringRegister();
    hide Reachable;
    TwoDrives(last.(drive := Drive(Register, Native, false, 1, false, 0)), Thread(Running(0), Free), false);
    TwoDrives(last.(drive := Drive(Register, DropHandles, false, 1, false, 0)), Thread(Running(0), Free), false);
  }
}
