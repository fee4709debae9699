/** Lock order, and the absence of waiting cycles when callbacks only close later registrations. */
module CallbackDeadlock {
  import opened Completions
  import opened LockPlan
  import opened CallbackProtocol
  import opened CallbackInvariant
  import opened CallbackSteps

  // ----- what a thread waits for -----

  datatype Wait = Nothing | ForLock(l: Lock) | ForCallbacks(reg: nat)

  function WaitOf(s: State, t: nat): Wait
    requires t < |s.threads|
  {
    match s.threads[t].op
    case Free => Nothing
    case Waiting(r) => ForLock(RegistrationLock(r))
    case Driving(r) =>
      if r >= |s.regs| then Nothing
      else if Wanted(s.regs[r], s.serialized).Some? then ForLock(Wanted(s.regs[r], s.serialized).value)
      else if s.regs[r].drive.phase.Draining? then ForCallbacks(r)
      else Nothing
    case Acting(_, plan, phase, _, locked) =>
      if phase.WantGlobal? && s.serialized then ForLock(GlobalLock)
      else if phase.WantHandles? && locked < |plan| then ForLock(HandleLock(plan[locked]))
      else Nothing
  }

  /** `t` cannot go on before `u` does. */
  predicate BlockedBy(s: State, t: nat, u: nat)
    requires t < |s.threads| && u < |s.threads|
  {
    match WaitOf(s, t)
    case Nothing => false
    case ForLock(l) => Holds(s, u, l)
    case ForCallbacks(r) => InFlightOn(s.threads[u], r)
  }

  predicate Stuck(s: State, t: nat)
    requires t < |s.threads|
  {
    !s.threads[t].op.Free? && Next(s, t, Advance(true)).None? && Next(s, t, Advance(false)).None?
  }

  /** A thread in the middle of an operation or of a callback. */
  predicate Busy(th: Thread) {
    !th.op.Free? || !th.callback.Outside?
  }

  predicate CanGoOn(s: State, t: nat)
    requires t < |s.threads|
  {
    Next(s, t, Advance(true)).Some? || Next(s, t, BeginCallback).Some? || Next(s, t, RunUser).Some?
    || Next(s, t, EndUser(None)).Some? || Next(s, t, EndCallback).Some?
  }

  /** Thread `t` is in a Register or Close of registration `r`. */
  predicate WorksOn(th: Thread, r: nat) {
    th.op == Waiting(r) || th.op == Driving(r)
  }

  /** The registrations can be ordered so that a callback only closes, or registers, later ones. */
  ghost predicate Layered(s: State, order: nat -> nat, top: nat) {
    && (forall r :: 0 <= r < |s.regs| ==> order(r) < top)
    && (forall t, r :: 0 <= t < |s.threads| && !s.threads[t].callback.Outside? && WorksOn(s.threads[t], r) ==>
          order(s.threads[t].callback.reg) < order(r))
  }

  predicate Closing(s: State, t: nat)
    requires t < |s.threads|
  {
    match s.threads[t].op
    case Waiting(_) => true
    case Driving(r) => r < |s.regs| && s.regs[r].drive.kind.Close?
    case _ => false
  }

  /** A callback only closes registrations created after its own. */
  predicate CallbacksCloseLater(s: State) {
    forall t :: 0 <= t < |s.threads| && !s.threads[t].callback.Outside? && Closing(s, t) ==>
      s.threads[t].callback.reg < s.threads[t].op.reg
  }

  /** That is one such order, as registrations made in a callback are later ones already. */
  lemma CreationOrder(s: State)
    requires Inv(s) && CallbacksCloseLater(s)
    ensures Layered(s, r => r, |s.regs|)
  {
    forall t, r | 0 <= t < |s.threads| && !s.threads[t].callback.Outside? && WorksOn(s.threads[t], r)
      ensures s.threads[t].callback.reg < r
    {
      assert DriverOf(s, t);
    }
  }

  // ----- the order of acquisition -----

  function LockRank(l: Lock): nat {
    match l
    case RegistrationLock(_) => 0
    case GlobalLock => 1
    case HandleLock(h) => 2 + h
  }

  lemma NextInPlan(plan: seq<nat>, locked: nat, h: nat)
    requires Increasing(plan) && locked < |plan| && h in plan[..locked]
    ensures h < plan[locked]
  {
  }

  /** Registration mutex, global mutex, then handle mutexes by strictly increasing creation id: what
      is asked for ranks above everything held, so nothing is ever taken twice or out of order. */
  lemma LocksInOrder(s: State, t: nat, held: Lock)
    requires Inv(s) && t < |s.threads| && Holds(s, t, held) && WaitOf(s, t).ForLock?
    ensures LockRank(held) < LockRank(WaitOf(s, t).l)
  {
    assert DriverOf(s, t);
    if s.threads[t].op.Driving? {
      var reg := s.regs[s.threads[t].op.reg];
      assert RegIn(s, reg);
      if held.HandleLock? { NextInPlan(reg.plan, reg.drive.locked, held.handle); }
    } else if s.threads[t].op.Acting? && held.HandleLock? {
      NextInPlan(s.threads[t].op.plan, s.threads[t].op.locked, held.handle);
    }
  }

  // ----- no cycle of waiters -----

  /** A registration's mutex ranks below the drain that may hold it, and both by the order of the
      registrations; the global mutex and those of handles rank above. */
  function WaitRank(order: nat -> nat, top: nat, w: Wait): nat {
    match w
    case Nothing => 0
    case ForLock(RegistrationLock(r)) => 2 * order(r) + 1
    case ForCallbacks(r) => 2 * order(r) + 2
    case ForLock(GlobalLock) => 2 * top + 3
    case ForLock(HandleLock(h)) => 2 * top + 4 + h
  }

  lemma WaitsClimb(s: State, order: nat -> nat, top: nat, t: nat, u: nat)
    requires Inv(s) && Layered(s, order, top) && t < |s.threads| && u < |s.threads|
    requires BlockedBy(s, t, u) && WaitOf(s, u) != Nothing
    ensures WaitRank(order, top, WaitOf(s, t)) < WaitRank(order, top, WaitOf(s, u))
  {
    assert DriverOf(s, u) && DriverOf(s, t);
    var w := WaitOf(s, t);
    if w.ForLock? {
      if WaitOf(s, u).ForLock? { LocksInOrder(s, u, w.l); } else { DrainingHolds(s, u, w.l); }
    } else {
      CallbackWaitsLater(s, order, top, u, w.reg);
    }
  }

  /** What is asked for from inside a callback of `r` ranks above the drain of `r`. */
  lemma CallbackWaitsLater(s: State, order: nat -> nat, top: nat, u: nat, r: nat)
    requires Inv(s) && Layered(s, order, top) && u < |s.threads| && InFlightOn(s.threads[u], r) && WaitOf(s, u) != Nothing
    ensures WaitRank(order, top, ForCallbacks(r)) < WaitRank(order, top, WaitOf(s, u))
  {
    assert DriverOf(s, u);
    var op := s.threads[u].op;
    if op.Waiting? || op.Driving? { assert WorksOn(s.threads[u], op.reg); }
  }

  /** A draining Close or Register holds at most its registration's mutex. */
  lemma DrainingHolds(s: State, t: nat, l: Lock)
    requires Inv(s) && t < |s.threads| && WaitOf(s, t).ForCallbacks? && Holds(s, t, l)
    ensures l == RegistrationLock(WaitOf(s, t).reg)
  {
    assert DriverOf(s, t) && RegIn(s, s.regs[s.threads[t].op.reg]);
  }

  predicate Chain(s: State, path: seq<nat>) {
    && (forall i :: 0 <= i < |path| ==> path[i] < |s.threads|)
    && (forall i :: 0 < i < |path| ==> BlockedBy(s, path[i - 1], path[i]))
  }

  /** Threads that wait for each other round about. */
  predicate Cycle(s: State, path: seq<nat>) {
    |path| > 1 && Chain(s, path) && path[0] == path[|path| - 1]
  }

  lemma {:induction false} ChainClimbs(s: State, order: nat -> nat, top: nat, path: seq<nat>)
    requires Inv(s) && Layered(s, order, top) && |path| > 1 && Chain(s, path)
    ensures WaitOf(s, path[|path| - 1]) != Nothing ==>
      WaitRank(order, top, WaitOf(s, path[0])) < WaitRank(order, top, WaitOf(s, path[|path| - 1]))
    decreases |path|
  {
    hide Inv, Layered;
    var n := |path| - 1;
    assert BlockedBy(s, path[n - 1], path[n]);
    if WaitOf(s, path[n]) != Nothing { WaitsClimb(s, order, top, path[n - 1], path[n]); }
    if n > 1 { ChainClimbs(s, order, top, path[..n]); }
  }

  /** No reachable state whose callbacks close in some order has a cycle of waiters, of any length. */
  lemma NoWaitingCycle(states: seq<State>, i: nat, order: nat -> nat, top: nat, path: seq<nat>)
    requires Run(states) && i < |states| && Layered(states[i], order, top)
    requires |path| > 1 && Chain(states[i], path)
    ensures path[0] != path[|path| - 1]
  {
    hide Inv, Layered;
    RunInv(states, i);
    ChainClimbs(states[i], order, top, path);
    assert BlockedBy(states[i], path[0], path[1]);
  }

  // ----- what a cycle would consist of -----

  /** Waits for the global mutex or for a handle's, by their order. */
  function SharedRank(w: Wait): nat {
    match w
    case ForLock(GlobalLock) => 1
    case ForLock(HandleLock(h)) => 2 + h
    case _ => 0
  }

  /** Whoever holds what `t` waits for asks, if anything, for a later one of these. */
  lemma SharedWaitsClimb(s: State, t: nat, u: nat)
    requires Inv(s) && t < |s.threads| && u < |s.threads| && BlockedBy(s, t, u) && WaitOf(s, u) != Nothing
    ensures SharedRank(WaitOf(s, t)) > 0 ==> SharedRank(WaitOf(s, t)) < SharedRank(WaitOf(s, u))
  {
    var w := WaitOf(s, t);
    if w.ForLock? {
      if WaitOf(s, u).ForLock? { LocksInOrder(s, u, w.l); } else { DrainingHolds(s, u, w.l); }
    }
  }

  lemma {:induction false} SharedWaitsClimbAlong(s: State, path: seq<nat>, i: nat, k: nat)
    requires Inv(s) && i <= k < |path| && Chain(s, path) && WaitOf(s, path[|path| - 1]) != Nothing
    requires SharedRank(WaitOf(s, path[i])) > 0
    ensures SharedRank(WaitOf(s, path[k])) >= SharedRank(WaitOf(s, path[i])) + k - i
    decreases k
  {
    hide Inv, SharedRank;
    if i < k {
      SharedWaitsClimbAlong(s, path, i, k - 1);
      assert BlockedBy(s, path[k - 1], path[k]);
      assert k < |path| - 1 ==> BlockedBy(s, path[k + 1 - 1], path[k + 1]);
      SharedWaitsClimb(s, path[k - 1], path[k]);
    }
  }

  predicate WaitsForRegistration(w: Wait) {
    w.ForCallbacks? || (w.ForLock? && w.l.RegistrationLock?)
  }

  /** Whatever callbacks do: in a cycle of waiters every thread waits for a registration's mutex or for
      callbacks to end, and some thread waits so from inside a callback. The global mutex and those of
      handles never take part in a deadlock. */
  lemma CyclesAreOfClosings(s: State, path: seq<nat>)
    requires Inv(s) && Cycle(s, path)
    ensures forall i :: 0 <= i < |path| ==> WaitsForRegistration(WaitOf(s, path[i]))
    ensures exists i, r :: 0 <= i < |path| && !s.threads[path[i]].callback.Outside? && WorksOn(s.threads[path[i]], r)
  {
    hide Inv;
    assert BlockedBy(s, path[0], path[1]);
    var n := |path| - 1;
    forall i | 0 <= i < |path| ensures WaitsForRegistration(WaitOf(s, path[i])) {
      assert i < n ==> BlockedBy(s, path[i + 1 - 1], path[i + 1]);
      if SharedRank(WaitOf(s, path[i])) > 0 {
        SharedWaitsClimbAlong(s, path, i, n);
        if i > 0 { SharedWaitsClimbAlong(s, path, 0, i); }
      }
    }
    var w := WaitOf(s, path[0]);
    var drains := if w.ForCallbacks? then 0 else 1;
    assert WaitsForRegistration(WaitOf(s, path[1]));
    if w.ForLock? { HolderDrains(s, path[0], path[1]); }
    assert drains < n;
    assert BlockedBy(s, path[drains + 1 - 1], path[drains + 1]);
    var th := s.threads[path[drains + 1]];
    assert WaitsForRegistration(WaitOf(s, path[drains + 1]));
    assert WorksOn(th, th.op.reg);
  }

  lemma HolderDrains(s: State, t: nat, u: nat)
    requires t < |s.threads| && u < |s.threads| && BlockedBy(s, t, u)
    requires WaitOf(s, t).ForLock? && WaitOf(s, t).l.RegistrationLock? && WaitsForRegistration(WaitOf(s, u))
    ensures WaitOf(s, u).ForCallbacks?
  {
  }

  // ----- what a drain blocks -----

  /** Under such an order a draining Close never blocks a callback it waits for. */
  lemma DrainBlocksNoCallback(s: State, order: nat -> nat, top: nat, t: nat, u: nat)
    requires Inv(s) && Layered(s, order, top) && t < |s.threads| && u < |s.threads|
    requires WaitOf(s, t).ForCallbacks? && InFlightOn(s.threads[u], WaitOf(s, t).reg)
    ensures !BlockedBy(s, u, t)
  {
    if BlockedBy(s, u, t) {
      WaitsClimb(s, order, top, t, u);
      WaitsClimb(s, order, top, u, t);
    }
  }

  /** Whatever callbacks do, one that is not itself called from a callback blocks only threads that close
      the same registration. */
  lemma DrainBlocksOnlyClosers(s: State, t: nat, u: nat)
    requires Inv(s) && t < |s.threads| && u < |s.threads| && WaitOf(s, t).ForCallbacks? && s.threads[t].callback.Outside?
    requires BlockedBy(s, u, t)
    ensures s.threads[u].op == Waiting(WaitOf(s, t).reg)
  {
    assert DriverOf(s, u) && DriverOf(s, t);
    var w := WaitOf(s, u);
    if w.ForLock? { DrainingHolds(s, t, w.l); }
  }

  // ----- someone can always go on -----

  lemma StuckIsBlocked(s: State, t: nat)
    requires Inv(s) && t < |s.threads| && Stuck(s, t)
    ensures exists u :: 0 <= u < |s.threads| && BlockedBy(s, t, u) && Busy(s.threads[u])
  {
    assert DriverOf(s, t);
    var w := WaitOf(s, t);
    if s.threads[t].op.Waiting? {
      var r := s.threads[t].op.reg;
      assert RegIn(s, s.regs[r]);
      assert BlockedBy(s, t, s.regs[r].driver.value);
    } else if w.ForLock? {
      assert !Available(s, w.l);
      var u: nat :| u < |s.threads| && Holds(s, u, w.l);
      assert BlockedBy(s, t, u);
    } else {
      var r := s.threads[t].op.reg;
      assert s.regs[r].callbacks.inFlight == |Flying(s, r)|;
      var u: nat :| u in Flying(s, r);
      assert BlockedBy(s, t, u);
    }
  }

  lemma BusyIsStuckOrGoesOn(s: State, t: nat)
    requires Inv(s) && t < |s.threads| && Busy(s.threads[t])
    ensures CanGoOn(s, t) || Stuck(s, t)
  {
    assert DriverOf(s, t);
    var th := s.threads[t];
    if th.op.Free? {
      hide Plan, Moved, RegOk;
      if th.callback.Ending? {
        assert t in Flying(s, th.callback.reg);
      }
      assert th.callback.Running? ==> Next(s, t, EndUser(None)).Some?;
    } else {
      hide Plan, Moved, RegOk, Holds;
    }
  }

  predicate Distinct(path: seq<nat>) {
    forall i, j :: 0 <= i < j < |path| ==> path[i] != path[j]
  }

  lemma {:induction false} DistinctBelow(path: seq<nat>, n: nat)
    requires Distinct(path) && forall i :: 0 <= i < |path| ==> path[i] < n
    ensures |path| <= n
    decreases n
  {
    assert path != [] ==> path[0] < n;
    if n > 0 {
      if k :| 0 <= k < |path| && path[k] == n - 1 {
        var rest := path[..k] + path[k + 1..];
        assert forall i :: 0 <= i < |rest| ==> rest[i] == path[if i < k then i else i + 1];
        DistinctBelow(rest, n - 1);
      } else {
        DistinctBelow(path, n - 1);
      }
    }
  }

  lemma ClosesCycle(s: State, path: seq<nat>, k: nat)
    requires Chain(s, path) && k < |path| - 1 && path[k] == path[|path| - 1]
    ensures Cycle(s, path[k..])
  {
    hide BlockedBy;
    var tail := path[k..];
    forall i | 0 < i < |tail| ensures BlockedBy(s, tail[i - 1], tail[i]) { assert BlockedBy(s, path[k + i - 1], path[k + i]); }
  }

  /** Following who waits for whom leads back, or to a thread that can go on. */
  lemma {:induction false} FollowWaits(s: State, path: seq<nat>) returns (u: nat)
    requires Inv(s) && path != [] && Chain(s, path) && Distinct(path) && Busy(s.threads[path[|path| - 1]])
    requires forall p :: !Cycle(s, p)
    ensures u < |s.threads| && Busy(s.threads[u]) && CanGoOn(s, u)
    decreases |s.threads| - |path|
  {
    hide Inv, CanGoOn, Stuck, BlockedBy;
    var t := path[|path| - 1];
    BusyIsStuckOrGoesOn(s, t);
    if CanGoOn(s, t) { return t; }
    StuckIsBlocked(s, t);
    var v: nat :| v < |s.threads| && BlockedBy(s, t, v) && Busy(s.threads[v]);
    var longer := path + [v];
    assert Chain(s, longer);
    if k :| 0 <= k < |path| && path[k] == v { ClosesCycle(s, longer, k); }
    DistinctBelow(longer, |s.threads|);
    u := FollowWaits(s, longer);
  }

  /** With work left and no cycle of waiters, some thread can go on with its own. */
  lemma SomeThreadGoesOn(s: State, t: nat)
    requires Inv(s) && (forall path :: !Cycle(s, path)) && t < |s.threads| && Busy(s.threads[t])
    ensures exists u :: 0 <= u < |s.threads| && Busy(s.threads[u]) && CanGoOn(s, u)
  {
    hide Inv, CanGoOn;
    var u := FollowWaits(s, [t]);
  }

  /** In every such state with work left, some thread can go on with its own. */
  lemma NoDeadlock(states: seq<State>, i: nat, order: nat -> nat, top: nat, t: nat)
    requires Run(states) && i < |states| && Layered(states[i], order, top)
    requires t < |states[i].threads| && Busy(states[i].threads[t])
    ensures exists u :: 0 <= u < |states[i].threads| && Busy(states[i].threads[u]) && CanGoOn(states[i], u)
  {
    hide Inv, Layered, CanGoOn;
    RunInv(states, i);
    forall path ensures !Cycle(states[i], path) {
      if Cycle(states[i], path) { NoWaitingCycle(states, i, order, top, path); }
    }
    SomeThreadGoesOn(states[i], t);
  }

  /** In particular when callbacks only close registrations created after their own. */
  lemma NoDeadlockByCreation(states: seq<State>, i: nat, t: nat)
    requires Run(states) && i < |states| && CallbacksCloseLater(states[i])
    requires t < |states[i].threads| && Busy(states[i].threads[t])
    ensures exists u :: 0 <= u < |states[i].threads| && Busy(states[i].threads[u]) && CanGoOn(states[i], u)
  {
    hide Inv, CanGoOn, CallbacksCloseLater, Layered;
    RunInv(states, i);
    CreationOrder(states[i]);
    NoDeadlock(states, i, r => r, |states[i].regs|, t);
  }
}
