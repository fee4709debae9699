/** Exactly when threads wait for each other: a ring of registrations, each being drained while a
    callback of it works on the next. */
module CallbackRings {
  import opened Completions
  import opened LockPlan
  import opened CallbackProtocol
  import opened CallbackInvariant
  import opened CallbackSteps
  import opened CallbackDeadlock

  /** Thread `d` drains the callbacks of `r`, and `u` is in one of them and closes or registers `next`. */
  predicate Link(s: State, r: nat, d: nat, u: nat, next: nat) {
    && d < |s.threads| && u < |s.threads| && WaitOf(s, d) == ForCallbacks(r)
    && InFlightOn(s.threads[u], r) && WorksOn(s.threads[u], next)
  }

  /** A sequence of such links. */
  predicate Links(s: State, rs: seq<nat>, ds: seq<nat>, us: seq<nat>) {
    |ds| == |us| && |rs| == |ds| + 1 && forall i :: 0 <= i < |ds| ==> Link(s, rs[i], ds[i], us[i], rs[i + 1])
  }

  predicate Ring(s: State, rs: seq<nat>, ds: seq<nat>, us: seq<nat>) {
    Links(s, rs, ds, us) && |rs| > 1 && rs[0] == rs[|rs| - 1]
  }

  // ----- from a ring to a cycle of waiters -----

  lemma LinkBlocks(s: State, r: nat, d: nat, u: nat, next: nat)
    requires Link(s, r, d, u, next)
    ensures BlockedBy(s, d, u)
  {
  }

  /** A thread that works on a registration that `d` drains is `d`, or waits for it. */
  lemma WorkerWaits(s: State, u: nat, d: nat, r: nat)
    requires Inv(s) && u < |s.threads| && d < |s.threads| && WorksOn(s.threads[u], r) && WaitOf(s, d) == ForCallbacks(r)
    ensures u == d || BlockedBy(s, u, d)
  {
    assert DriverOf(s, u) && DriverOf(s, d) && RegIn(s, s.regs[r]);
  }

  /** One more thread at the end of a chain. */
  lemma ChainGrows(s: State, path: seq<nat>, v: nat)
    requires path != [] && Chain(s, path) && v < |s.threads| && BlockedBy(s, path[|path| - 1], v)
    ensures Chain(s, path + [v])
  {
    hide BlockedBy;
  }

  /** The chain that leads from the first drainer through `n` links, to the one of the next registration. */
  lemma {:induction false} LinksChain(s: State, rs: seq<nat>, ds: seq<nat>, us: seq<nat>, n: nat) returns (path: seq<nat>)
    requires Inv(s) && Ring(s, rs, ds, us) && n <= |ds|
    ensures path != [] && Chain(s, path) && path[0] == ds[0] && |path| > n
    ensures path[|path| - 1] == if n < |ds| then ds[n] else ds[0]
  {
    hide Inv, BlockedBy;
    assert Link(s, rs[0], ds[0], us[0], rs[1]);
    if n == 0 {
      path := [ds[0]];
    } else {
      path := LinksChain(s, rs, ds, us, n - 1);
      var u, d := us[n - 1], if n < |ds| then ds[n] else ds[0];
      assert Link(s, rs[n - 1], ds[n - 1], u, rs[n - 1 + 1]);
      if n < |ds| { assert Link(s, rs[n], ds[n], us[n], rs[n + 1]); }
      LinkBlocks(s, rs[n - 1], ds[n - 1], u, rs[n]);
      ChainGrows(s, path, u);
      path := path + [u];
      WorkerWaits(s, u, d, rs[n]);
      if u != d {
        ChainGrows(s, path, d);
        path := path + [d];
      }
    }
  }

  // ----- and back -----

  predicate Drains(s: State, t: nat) {
    t < |s.threads| && WaitOf(s, t).ForCallbacks?
  }

  /** Along a chain that begins and ends with drainers, and whose threads all wait for registrations, the
      registrations they drain are linked. */
  lemma {:induction false} ChainLinks(s: State, path: seq<nat>) returns (rs: seq<nat>, ds: seq<nat>, us: seq<nat>)
    requires Inv(s) && path != [] && Chain(s, path) && Drains(s, path[0]) && Drains(s, path[|path| - 1])
    requires forall i :: 0 <= i < |path| ==> WaitsForRegistration(WaitOf(s, path[i]))
    ensures Links(s, rs, ds, us) && (|path| > 1 ==> |rs| > 1)
    ensures WaitOf(s, path[0]) == ForCallbacks(rs[0]) && WaitOf(s, path[|path| - 1]) == ForCallbacks(rs[|rs| - 1])
    decreases |path|
  {
    var r := WaitOf(s, path[0]).reg;
    if |path| == 1 {
      rs, ds, us := [r], [], [];
    } else {
      hide Inv;
      assert BlockedBy(s, path[0], path[1]);
      var k := if Drains(s, path[1]) then 1 else 2;
      if k == 2 {
        assert BlockedBy(s, path[2 - 1], path[2]);
        HolderDrains(s, path[1], path[2]);
      }
      ChainTail(s, path, k);
      rs, ds, us := ChainLinks(s, path[k..]);
      assert WaitsForRegistration(WaitOf(s, path[1]));
      NextLink(s, path[0], path[1], path[k], r, rs[0]);
      LinksGrow(s, r, path[0], path[1], rs, ds, us);
      rs, ds, us := [r] + rs, [path[0]] + ds, [path[1]] + us;
    }
  }

  lemma ChainTail(s: State, path: seq<nat>, k: nat)
    requires Chain(s, path) && k < |path|
    ensures Chain(s, path[k..])
  {
    hide BlockedBy;
    forall i | 0 < i < |path[k..]| ensures BlockedBy(s, path[k..][i - 1], path[k..][i]) { assert BlockedBy(s, path[k + i - 1], path[k + i]); }
  }

  /** What `u` waits for, the next drainer drains. */
  lemma NextLink(s: State, d: nat, u: nat, e: nat, r: nat, next: nat)
    requires d < |s.threads| && u < |s.threads| && e < |s.threads| && WaitOf(s, d) == ForCallbacks(r) && BlockedBy(s, d, u)
    requires WaitOf(s, e) == ForCallbacks(next) && WaitsForRegistration(WaitOf(s, u))
    requires if Drains(s, u) then u == e else BlockedBy(s, u, e)
    ensures Link(s, r, d, u, next)
  {
  }

  lemma LinksGrow(s: State, r: nat, d: nat, u: nat, rs: seq<nat>, ds: seq<nat>, us: seq<nat>)
    requires Links(s, rs, ds, us) && Link(s, r, d, u, rs[0])
    ensures Links(s, [r] + rs, [d] + ds, [u] + us)
  {
    hide Link;
    forall i | 0 <= i < |ds| + 1 ensures Link(s, ([r] + rs)[i], ([d] + ds)[i], ([u] + us)[i], ([r] + rs)[i + 1]) {
      if i > 0 { assert Link(s, rs[i - 1], ds[i - 1], us[i - 1], rs[i - 1 + 1]); }
    }
  }

  lemma CycleHasRing(s: State, path: seq<nat>) returns (rs: seq<nat>, ds: seq<nat>, us: seq<nat>)
    requires Inv(s) && Cycle(s, path)
    ensures Ring(s, rs, ds, us)
  {
    hide Inv;
    CyclesAreOfClosings(s, path);
    var n := |path| - 1;
    assert BlockedBy(s, path[0], path[1]) && WaitsForRegistration(WaitOf(s, path[0])) && WaitsForRegistration(WaitOf(s, path[1]));
    var round := path;
    if !Drains(s, path[0]) {
      HolderDrains(s, path[0], path[1]);
      round := path[1..] + [path[1]];
      ChainTail(s, path, 1);
      ChainGrows(s, path[1..], path[1]);
    }
    rs, ds, us := ChainLinks(s, round);
  }

  /** Whatever callbacks do, threads wait for each other round about if and only if there is a ring of
      registrations, each drained while a callback of it closes or registers the next. */
  lemma CyclesExactly(s: State)
    requires Inv(s)
    ensures (exists path :: Cycle(s, path)) <==> (exists rs, ds, us :: Ring(s, rs, ds, us))
  {
    hide Inv, Ring, Cycle;
    if path :| Cycle(s, path) {
      var rs, ds, us := CycleHasRing(s, path);
    }
    if rs, ds, us :| Ring(s, rs, ds, us) {
      RingHasCycle(s, rs, ds, us);
    }
  }

  lemma RingHasCycle(s: State, rs: seq<nat>, ds: seq<nat>, us: seq<nat>)
    requires Inv(s) && Ring(s, rs, ds, us)
    ensures exists path :: Cycle(s, path)
  {
    hide Inv;
    var path := LinksChain(s, rs, ds, us, |ds|);
    assert Cycle(s, path);
  }

  // ----- a ring lasts -----

  /** Only its driver moves a registration on. */
  lemma DriveStays(s: State, a: nat, e: Event, d: nat, r: nat)
    requires Inv(s) && a < |s.threads| && d < |s.threads| && a != d && s.threads[d].op == Driving(r) && Next(s, a, e).Some?
    ensures var s' := Next(s, a, e).value;
            r < |s.regs| && r < |s'.regs| && s'.serialized == s.serialized
            && s'.regs[r].drive == s.regs[r].drive && s'.regs[r].plan == s.regs[r].plan
  {
    assert DriverOf(s, a) && DriverOf(s, d);
    if e.Advance? {
      NotItsRegistration(s, a, e.success, d, r);
      AdvanceIsOwn(s, a, e.success);
      hide Next, Inv;
    } else {
      hide Plan, Driven, Acted, Inv;
    }
  }

  lemma NotItsRegistration(s: State, a: nat, success: bool, d: nat, r: nat)
    requires a < |s.threads| && d < |s.threads| && DriverOf(s, a) && DriverOf(s, d) && a != d && s.threads[d].op == Driving(r) && Next(s, a, Advance(success)).Some?
    ensures s.threads[a].op != Waiting(r) && s.threads[a].op != Driving(r)
  {
    hide Driven, Acted;
  }

  lemma DrainStays(s: State, a: nat, e: Event, d: nat, r: nat)
    requires Inv(s) && a < |s.threads| && d < |s.threads| && a != d && WaitOf(s, d) == ForCallbacks(r) && Next(s, a, e).Some?
    ensures var s' := Next(s, a, e).value; |s'.threads| == |s.threads| && WaitOf(s', d) == ForCallbacks(r)
  {
    assert DriverOf(s, d);
    hide Next, Inv;
    ThreadStays(s, a, e, d);
    DriveStays(s, a, e, d, r);
  }

  /** A thread that drains while a callback is in flight cannot take a step of its own. */
  lemma DrainerIsStuck(s: State, d: nat, r: nat, u: nat, e: Event)
    requires Inv(s) && d < |s.threads| && u < |s.threads| && WaitOf(s, d) == ForCallbacks(r) && InFlightOn(s.threads[u], r)
    requires Next(s, d, e).Some?
    ensures e.NewHandle?
  {
    assert DriverOf(s, d) && u in Flying(s, r) && s.regs[r].callbacks.inFlight > 0;
    hide Plan, Moved, RegOk, Holds, Leased, Counts, Exclusive;
  }

  /** Nor can one in a callback that works on a registration being drained. */
  lemma WorkerIsStuck(s: State, r: nat, d: nat, u: nat, next: nat, e: nat, v: nat, event: Event)
    requires Inv(s) && Link(s, r, d, u, next) && e < |s.threads| && v < |s.threads| && WaitOf(s, e) == ForCallbacks(next)
    requires InFlightOn(s.threads[v], next) && Next(s, u, event).Some?
    ensures event.NewHandle?
  {
    assert DriverOf(s, u) && DriverOf(s, e) && RegIn(s, s.regs[next]);
    if s.threads[u].op.Driving? {
      OneDriver(s, u, e, next);
      DrainerIsStuck(s, e, next, v, event);
    } else {
      hide Plan, Moved, RegOk, Holds, Leased, Counts, Exclusive, Acted, Driven;
    }
  }

  lemma OneDriver(s: State, u: nat, e: nat, r: nat)
    requires Inv(s) && u < |s.threads| && e < |s.threads| && s.threads[u].op == Driving(r) && WaitOf(s, e) == ForCallbacks(r)
    ensures u == e
  {
    assert DriverOf(s, u) && DriverOf(s, e);
  }

  lemma NewHandleLeavesLinks(s: State, s': State, r: nat, d: nat, u: nat, next: nat)
    requires Link(s, r, d, u, next) && s' == s.(handles := s.handles + [Handle(false, 0, 0)])
    ensures Link(s', r, d, u, next)
  {
  }

  /** Link by link, a ring survives every step. */
  lemma LinkStep(s: State, a: nat, event: Event, r: nat, d: nat, u: nat, next: nat, e: nat, v: nat)
    requires Inv(s) && a < |s.threads| && Next(s, a, event).Some? && Link(s, r, d, u, next)
    requires e < |s.threads| && v < |s.threads| && WaitOf(s, e) == ForCallbacks(next) && InFlightOn(s.threads[v], next)
    ensures Link(Next(s, a, event).value, r, d, u, next)
  {
    var s' := Next(s, a, event).value;
    hide Inv;
    if event.NewHandle? {
      NewHandleLeavesLinks(s, s', r, d, u, next);
    } else {
      hide Next;
      if a == d { DrainerIsStuck(s, d, r, u, event); }
      if a == u { WorkerIsStuck(s, r, d, u, next, e, v, event); }
      ThreadStays(s, a, event, u);
      DrainStays(s, a, event, d, r);
    }
  }

  lemma RingStep(s: State, s': State, rs: seq<nat>, ds: seq<nat>, us: seq<nat>)
    requires Inv(s) && Step(s, s') && Ring(s, rs, ds, us)
    ensures Ring(s', rs, ds, us)
  {
    hide Inv, Link, Next;
    var a: nat, e :| a < |s.threads| && Next(s, a, e) == Some(s');
    forall i | 0 <= i < |ds| ensures Link(s', rs[i], ds[i], us[i], rs[i + 1]) {
      var k := if i + 1 < |ds| then i + 1 else 0;
      assert Link(s, rs[i], ds[i], us[i], rs[i + 1]) && Link(s, rs[k], ds[k], us[k], rs[k + 1]) && rs[k] == rs[i + 1];
      LinkMeans(s, rs[k], ds[k], us[k], rs[k + 1]);
      LinkStep(s, a, e, rs[i], ds[i], us[i], rs[i + 1], ds[k], us[k]);
    }
  }

  lemma LinkMeans(s: State, r: nat, d: nat, u: nat, next: nat)
    requires Link(s, r, d, u, next)
    ensures d < |s.threads| && u < |s.threads| && WaitOf(s, d) == ForCallbacks(r) && InFlightOn(s.threads[u], r)
  {
  }

  /** A ring never ends: its threads stay where they are in every later state, and so does the cycle. */
  lemma {:induction false} RingNeverEnds(states: seq<State>, i: nat, j: nat, rs: seq<nat>, ds: seq<nat>, us: seq<nat>)
    requires Run(states) && i <= j < |states| && Ring(states[i], rs, ds, us)
    ensures Ring(states[j], rs, ds, us) && exists path :: Cycle(states[j], path)
  {
    hide Inv, Step, Ring, Cycle;
    RunInv(states, j);
    if i < j {
      RingNeverEnds(states, i, j - 1, rs, ds, us);
      RunInv(states, j - 1);
      assert Step(states[j - 1], states[j - 1 + 1]);
      RingStep(states[j - 1], states[j], rs, ds, us);
    }
    RingHasCycle(states[j], rs, ds, us);
  }

  /** So a deadlock, once reached, is for ever. */
  lemma CyclesLast(states: seq<State>, i: nat, j: nat)
    requires Run(states) && i <= j < |states| && exists path :: Cycle(states[i], path)
    ensures exists path :: Cycle(states[j], path)
  {
    hide Inv, Step, Ring, Cycle;
    RunInv(states, i);
    var path :| Cycle(states[i], path);
    var rs, ds, us := CycleHasRing(states[i], path);
    RingNeverEnds(states, i, j, rs, ds, us);
  }

  /** A Close called from a callback of its own registration does not return once that is being drained,
      by this thread or by another: it still waits in every later state. */
  lemma OwnCloseNeverReturns(states: seq<State>, i: nat, j: nat, d: nat, u: nat, r: nat)
    requires Run(states) && i <= j < |states| && d < |states[i].threads| && u < |states[i].threads|
    requires WaitOf(states[i], d) == ForCallbacks(r) && InFlightOn(states[i].threads[u], r) && WorksOn(states[i].threads[u], r)
    ensures d < |states[j].threads| && u < |states[j].threads| && WorksOn(states[j].threads[u], r)
    ensures BlockedBy(states[j], d, u) && (u == d || BlockedBy(states[j], u, d))
  {
    var rs, ds, us := [r, r], [d], [u];
    assert Ring(states[i], rs, ds, us);
    hide Inv;
    RingNeverEnds(states, i, j, rs, ds, us);
    assert Link(states[j], rs[0], ds[0], us[0], rs[1]);
    RunInv(states, j);
    WorkerWaits(states[j], u, d, r);
  }

  // ----- what callbacks may do -----

  /** Callbacks of `q` close or register `r` only if the relation has the pair. */
  ghost predicate Along(s: State, rel: set<(nat, nat)>) {
    forall t: nat, r: nat :: t < |s.threads| && !s.threads[t].callback.Outside? && WorksOn(s.threads[t], r) ==>
      (s.threads[t].callback.reg, r) in rel
  }

  ghost predicate RunAlong(states: seq<State>, rel: set<(nat, nat)>) {
    Run(states) && forall i :: 0 <= i < |states| ==> Along(states[i], rel)
  }

  /** The registrations of a closed walk along the relation. */
  predicate Walk(rs: seq<nat>, rel: set<(nat, nat)>) {
    |rs| > 1 && rs[0] == rs[|rs| - 1] && forall i :: 0 <= i < |rs| - 1 ==> (rs[i], rs[i + 1]) in rel
  }

  lemma RingWalks(s: State, rs: seq<nat>, ds: seq<nat>, us: seq<nat>, rel: set<(nat, nat)>)
    requires Ring(s, rs, ds, us) && Along(s, rel)
    ensures Walk(rs, rel)
  {
    forall i | 0 <= i < |rs| - 1 ensures (rs[i], rs[i + 1]) in rel {
      assert Link(s, rs[i], ds[i], us[i], rs[i + 1]);
    }
  }

  /** Along an acyclic relation no reachable state has a cycle of waiters. */
  lemma AcyclicNeverWaits(states: seq<State>, i: nat, rel: set<(nat, nat)>, path: seq<nat>)
    requires RunAlong(states, rel) && i < |states| && forall rs :: !Walk(rs, rel)
    ensures !Cycle(states[i], path)
  {
    hide Inv;
    RunInv(states, i);
    if Cycle(states[i], path) {
      var rs, ds, us := CycleHasRing(states[i], path);
      RingWalks(states[i], rs, ds, us, rel);
    }
  }

  /** And with work left, some thread can go on. */
  lemma AcyclicGoesOn(states: seq<State>, i: nat, rel: set<(nat, nat)>, t: nat)
    requires RunAlong(states, rel) && i < |states| && forall rs :: !Walk(rs, rel)
    requires t < |states[i].threads| && Busy(states[i].threads[t])
    ensures exists u :: 0 <= u < |states[i].threads| && Busy(states[i].threads[u]) && CanGoOn(states[i], u)
  {
    hide Inv, CanGoOn, Busy;
    RunInv(states, i);
    forall path ensures !Cycle(states[i], path) { AcyclicNeverWaits(states, i, rel, path); }
    SomeThreadGoesOn(states[i], t);
  }
}
