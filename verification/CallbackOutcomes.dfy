/** What Register and Close do by the status of the native function they call, over whole runs. */
module CallbackOutcomes {
  import opened Completions
  import opened LockPlan
  import opened CallbackProtocol
  import opened CallbackInvariant
  import opened CallbackSteps
  import opened CallbackSafety

  // ----- runs with their steps -----

  datatype Move = Move(thread: nat, event: Event)

  ghost predicate Plays(s: State, m: Move, s': State) {
    m.thread < |s.threads| && Next(s, m.thread, m.event) == Some(s')
  }

  ghost predicate Played(states: seq<State>, moves: seq<Move>) {
    && states != [] && Initial(states[0]) && |moves| == |states| - 1
    && forall i :: 0 <= i < |moves| ==> Plays(states[i], moves[i], states[i + 1])
  }

  lemma PlayedRuns(states: seq<State>, moves: seq<Move>)
    requires Played(states, moves)
    ensures Run(states)
  {
    hide Next, Initial;
    forall i | 0 <= i < |states| - 1 ensures Step(states[i], states[i + 1]) { assert Plays(states[i], moves[i], states[i + 1]); }
  }

  /** Every run is played by some steps. */
  lemma {:induction false} RunsArePlayed(states: seq<State>) returns (moves: seq<Move>)
    requires Run(states)
    ensures Played(states, moves)
  {
    hide Next, Initial;
    var n := |states| - 1;
    if n == 0 {
      moves := [];
    } else {
      moves := RunsArePlayed(states[..n]);
      assert Step(states[n - 1], states[n - 1 + 1]);
      var t, e :| 0 <= t < |states[n - 1].threads| && Next(states[n - 1], t, e) == Some(states[n]);
      forall i | 0 <= i < n ensures Plays(states[i], (moves + [Move(t, e)])[i], states[i + 1]) {
        if i < n - 1 { assert Plays(states[..n][i], moves[i], states[..n][i + 1]); }
      }
      moves := moves + [Move(t, e)];
    }
  }

  /** A step of the Register or Close of `r`. */
  predicate Drives(s: State, m: Move, r: nat) {
    r < |s.regs| && m.thread < |s.threads| && s.threads[m.thread].op == Driving(r) && m.event.Advance?
  }

  /** The native register or unregister function of `r` answers. */
  predicate Answers(s: State, m: Move, r: nat, kind: Kind, success: bool) {
    Drives(s, m, r) && s.regs[r].drive.phase.Native? && s.regs[r].drive.kind == kind && m.event.success == success
  }

  /** The allocation of an input of `r` fails. */
  predicate Exhausts(s: State, m: Move, r: nat) {
    Drives(s, m, r) && s.regs[r].drive.phase.Preparing? && s.regs[r].obtained < |s.regs[r].frees| && !m.event.success
  }

  // ----- what the last Register or Close of a registration has met so far -----

  datatype Fate = Pending | NoMemory | HandleClosed | AlreadyClosed | Status(success: bool)

  function Met(reg: Registration, open: bool, success: bool, before: Fate): Fate {
    match reg.drive.phase
    case Preparing => if reg.obtained < |reg.frees| && !success then NoMemory else before
    case Checking => if reg.closed then AlreadyClosed else before
    case WantHandles => if reg.drive.locked == |reg.plan| && !open then HandleClosed else before
    case Native => Status(success)
    case _ => before
  }

  function After(s: State, m: Move, r: nat, before: Fate): Fate {
    if Drives(s, m, r) then Met(s.regs[r], AllOpen(s, s.regs[r].plan), m.event.success, before)
    else if m.thread < |s.threads| && s.threads[m.thread].op == Waiting(r) && m.event.Advance? then Pending
    else before
  }

  /** What the operation on `r` has met before state `j`. */
  function FateAt(states: seq<State>, moves: seq<Move>, j: nat, r: nat): Fate
    requires j <= |moves| < |states|
  {
    if j == 0 then Pending else After(states[j - 1], moves[j - 1], r, FateAt(states, moves, j - 1, r))
  }

  predicate SomeClosed(s: State, plan: seq<nat>) {
    exists h :: h in plan && h < |s.handles| && s.handles[h].closed
  }

  predicate Refused(f: Fate, closed: bool) {
    f == Status(false) || (f.HandleClosed? && closed)
  }

  predicate RegisterMet(reg: Registration, closed: bool, f: Fate) {
    match reg.drive.phase
    case DropHandles => if reg.drive.ok then f == Status(true) else Refused(f, closed)
    case DropGlobal => if reg.drive.ok then f == Status(true) else Refused(f, closed)
    case Settled => if reg.drive.ok then f == Status(true) else Refused(f, closed)
    case Stopping => Refused(f, closed)
    case Draining => Refused(f, closed)
    case Deleting => Refused(f, closed)
    case Freeing => if reg.created then Refused(f, closed) else f.NoMemory?
    case _ => f.Pending?
  }

  predicate CloseMet(reg: Registration, f: Fate) {
    match reg.drive.phase
    case Checking => f.Pending?
    case WantGlobal => f.Pending?
    case WantHandles => f.Pending?
    case Native => f.Pending?
    case DropHandles => f == Status(reg.drive.ok)
    case DropGlobal => f == Status(reg.drive.ok)
    case Settled => f == Status(reg.drive.ok)
    case Resuming => f == Status(false)
    case Leaving => if reg.closed then f == Status(true) || f.AlreadyClosed? else f == Status(false)
    case _ => f == Status(true)
  }

  /** What a registration at rest has met. */
  predicate RestMet(reg: Registration, closed: bool, f: Fate) {
    if reg.drive.kind.Close? then reg.published && if reg.closed then f == Status(true) || f.AlreadyClosed? else f == Status(false)
    else if reg.published then f == Status(true) && !reg.closed
    else if reg.created then Refused(f, closed)
    else f.NoMemory?
  }

  predicate MetOk(reg: Registration, closed: bool, f: Fate) {
    if reg.driver.None? then RestMet(reg, closed, f)
    else if reg.drive.kind.Register? then RegisterMet(reg, closed, f)
    else CloseMet(reg, f)
  }

  // ----- one step -----

  lemma RegisterMeets(reg: Registration, serialized: bool, open: bool, closed: bool, success: bool, f: Fate)
    requires RegOk(reg, serialized) && reg.driver.Some? && reg.drive.kind.Register? && (open <==> !closed) && MetOk(reg, closed, f)
    ensures MetOk(Moved(reg, serialized, open, success), closed, Met(reg, open, success, f))
  {
    hide Usable, Finished, FreedTo, Dead;
  }

  lemma CloseMeets(reg: Registration, serialized: bool, open: bool, closed: bool, success: bool, f: Fate)
    requires RegOk(reg, serialized) && reg.driver.Some? && reg.drive.kind.Close? && MetOk(reg, closed, f)
    requires reg.drive.phase.WantHandles? ==> open
    ensures MetOk(Moved(reg, serialized, open, success), closed, Met(reg, open, success, f))
  {
    hide Usable, Finished, FreedTo, Dead;
  }

  predicate ClosedStay(s: State, s': State) {
    |s.handles| <= |s'.handles| && forall h :: 0 <= h < |s.handles| && s.handles[h].closed ==> s'.handles[h].closed
  }

  lemma DrivenStep(s: State, t: nat, r: nat, success: bool)
    requires t < |s.threads| && r < |s.regs| && Driven(s, t, r, success).Some?
    ensures var s' := Driven(s, t, r, success).value;
            && s'.regs == s.regs[r := Moved(s.regs[r], s.serialized, AllOpen(s, s.regs[r].plan), success)] && ClosedStay(s, s')
  {
    hide Moved, Wanted, Available, LeaseChange, Returns, AllOpen;
  }

  lemma ActedStep(s: State, t: nat, success: bool)
    requires t < |s.threads| && s.threads[t].op.Acting? && Acted(s, t, success).Some?
    ensures var s' := Acted(s, t, success).value; s'.regs == s.regs && ClosedStay(s, s')
  {
    hide Available, AllOpen;
  }

  /** The registration `r` after a step of another kind than those of its own Register or Close. */
  predicate Untouched(s: State, m: Move, s': State, r: nat) {
    if r >= |s.regs| then
      var q := s'.regs;
      r < |q| ==> q[r].driver.Some? && q[r].drive.kind.Register? && q[r].drive.phase.Preparing? && !q[r].registered
    else if m.thread < |s.threads| && s.threads[m.thread].op == Waiting(r) && m.event.Advance? then
      r < |s'.regs| && s'.regs[r] == s.regs[r].(driver := Some(m.thread), drive := Drive(Close, Checking, false, 0, false, 0))
    else
      r < |s'.regs| && s'.regs[r] == s.regs[r].(callbacks := s'.regs[r].callbacks)
  }

  lemma AdvanceShape(s: State, m: Move, s': State, r: nat)
    requires Plays(s, m, s') && m.event.Advance? && !s.threads[m.thread].op.Driving?
    ensures ClosedStay(s, s') && |s.regs| <= |s'.regs| && Untouched(s, m, s', r)
  {
    if s.threads[m.thread].op.Acting? {
      ActedStep(s, m.thread, m.event.success);
      hide Acted;
    } else {
      hide Acted, Driven;
    }
  }

  lemma EventShape(s: State, m: Move, s': State, r: nat)
    requires Plays(s, m, s') && !m.event.Advance?
    ensures ClosedStay(s, s') && |s.regs| <= |s'.regs| && Untouched(s, m, s', r)
  {
    hide Plan, Driven, Acted, InUserCode, Recorded, Admits;
  }

  lemma StepShape(s: State, m: Move, s': State, r: nat)
    requires Plays(s, m, s')
    ensures ClosedStay(s, s') && |s.regs| <= |s'.regs|
    ensures if Drives(s, m, r) then r < |s'.regs| && s'.regs[r] == Moved(s.regs[r], s.serialized, AllOpen(s, s.regs[r].plan), m.event.success)
            else Untouched(s, m, s', r)
  {
    var t := m.thread;
    if !m.event.Advance? {
      EventShape(s, m, s', r);
      hide Next;
    } else if s.threads[t].op.Driving? {
      DrivenStep(s, t, s.threads[t].op.reg, m.event.success);
      hide Driven, Moved;
    } else {
      AdvanceShape(s, m, s', r);
      hide Next;
    }
  }

  lemma OpenOrClosed(s: State, reg: Registration)
    requires RegIn(s, reg)
    ensures AllOpen(s, reg.plan) <==> !SomeClosed(s, reg.plan)
  {
    hide RegOk;
  }

  /** No handle of a registration that is being closed is closed: it holds leases on them. */
  lemma CloseFindsOpen(s: State, r: nat)
    requires Inv(s) && r < |s.regs| && s.regs[r].driver.Some? && s.regs[r].drive.kind.Close? && s.regs[r].drive.phase.WantHandles?
    ensures AllOpen(s, s.regs[r].plan)
  {
    assert RegIn(s, s.regs[r]);
    forall h | h in s.regs[r].plan ensures h < |s.handles| && !s.handles[h].closed {
      assert HandleOk(s, h) && r in Lessees(s, h);
    }
  }

  lemma OwnStepMeets(s: State, m: Move, s': State, r: nat, f: Fate)
    requires Inv(s) && Plays(s, m, s') && Drives(s, m, r) && MetOk(s.regs[r], SomeClosed(s, s.regs[r].plan), f)
    ensures r < |s'.regs| && s'.regs[r].plan == s.regs[r].plan
    ensures MetOk(s'.regs[r], SomeClosed(s, s'.regs[r].plan), After(s, m, r, f))
  {
    var reg := s.regs[r];
    var open, closed := AllOpen(s, reg.plan), SomeClosed(s, reg.plan);
    StepShape(s, m, s', r);
    assert RegIn(s, reg) && DriverOf(s, m.thread);
    OpenOrClosed(s, reg);
    if reg.drive.kind.Register? {
      RegisterMeets(reg, s.serialized, open, closed, m.event.success, f);
    } else {
      if reg.drive.phase.WantHandles? { CloseFindsOpen(s, r); }
      CloseMeets(reg, s.serialized, open, closed, m.event.success, f);
    }
    MovedKeepsInputs(reg, s.serialized, open, m.event.success);
    hide Moved, Met, MetOk, Next, AllOpen, SomeClosed, Drivers, Regs, Counts, Flights, Exclusive;
  }

  lemma MetStays(s: State, s': State, reg: Registration, f: Fate)
    requires ClosedStay(s, s') && MetOk(reg, SomeClosed(s, reg.plan), f)
    ensures MetOk(reg, SomeClosed(s', reg.plan), f)
  {
    hide RestMet, RegisterMet, CloseMet;
    if SomeClosed(s, reg.plan) {
      var h :| h in reg.plan && h < |s.handles| && s.handles[h].closed;
      assert s'.handles[h].closed;
    } else if SomeClosed(s', reg.plan) {
      RefusedStays(reg, f);
    }
  }

  lemma RefusedStays(reg: Registration, f: Fate)
    requires MetOk(reg, false, f)
    ensures MetOk(reg, true, f)
  {
  }

  lemma FateStep(s: State, m: Move, s': State, r: nat, f: Fate)
    requires Inv(s) && Plays(s, m, s') && r < |s'.regs|
    requires if r < |s.regs| then MetOk(s.regs[r], SomeClosed(s, s.regs[r].plan), f) else f.Pending?
    ensures MetOk(s'.regs[r], SomeClosed(s', s'.regs[r].plan), After(s, m, r, f))
  {
    hide Inv, Next, SomeClosed, MetOk, AllOpen;
    StepShape(s, m, s', r);
    if s.threads[m.thread].op == Waiting(r) { WaitsForOne(s, m.thread, r); }
    if Drives(s, m, r) {
      OwnStepMeets(s, m, s', r, f);
      MetStays(s, s', s'.regs[r], After(s, m, r, f));
    } else {
      OtherStepMeets(s, m, s', r, f);
    }
  }

  lemma WaitsForOne(s: State, t: nat, r: nat)
    requires Inv(s) && t < |s.threads| && s.threads[t].op == Waiting(r)
    ensures r < |s.regs|
  {
    assert DriverOf(s, t);
  }

  lemma OtherStepMeets(s: State, m: Move, s': State, r: nat, f: Fate)
    requires !Drives(s, m, r) && Untouched(s, m, s', r) && ClosedStay(s, s') && r < |s'.regs|
    requires if r < |s.regs| then MetOk(s.regs[r], SomeClosed(s, s.regs[r].plan), f) else f.Pending?
    requires m.thread < |s.threads| && (r >= |s.regs| ==> s.threads[m.thread].op != Waiting(r))
    ensures MetOk(s'.regs[r], SomeClosed(s', s'.regs[r].plan), After(s, m, r, f))
  {
    hide SomeClosed, ClosedStay;
    if r < |s.regs| { MetStays(s, s', s.regs[r], f); }
  }

  lemma {:induction false} FateHolds(states: seq<State>, moves: seq<Move>, j: nat, r: nat)
    requires Played(states, moves) && j < |states|
    ensures Inv(states[j])
    ensures if r < |states[j].regs| then MetOk(states[j].regs[r], SomeClosed(states[j], states[j].regs[r].plan), FateAt(states, moves, j, r))
            else FateAt(states, moves, j, r).Pending?
    decreases j
  {
    hide Inv, Next, MetOk, SomeClosed;
    PlayedRuns(states, moves);
    RunInv(states, j);
    if j > 0 {
      FateHolds(states, moves, j - 1, r);
      assert Plays(states[j - 1], moves[j - 1], states[j - 1 + 1]);
      if r < |states[j].regs| {
        FateStep(states[j - 1], moves[j - 1], states[j], r, FateAt(states, moves, j - 1, r));
      } else {
        StepShape(states[j - 1], moves[j - 1], states[j], r);
      }
    }
  }

  // ----- whole operations -----

  /** A Register or Close of `r` is under way from state `i` up to state `j`, which it has left. */
  predicate Spans(states: seq<State>, r: nat, i: nat, j: nat) {
    && i < j < |states| && (forall k :: i <= k < j ==> UnderWay(states[k], r))
    && r < |states[j].regs| && states[j].regs[r].driver.None?
  }

  predicate UnderWay(s: State, r: nat) {
    r < |s.regs| && s.regs[r].driver.Some?
  }

  lemma MeetsOnce(reg: Registration, serialized: bool, open: bool, closed: bool, success: bool, f: Fate)
    requires RegOk(reg, serialized) && reg.driver.Some? && MetOk(reg, closed, f) && !f.Pending?
    ensures Met(reg, open, success, f) == f
  {
    hide Usable, Finished, FreedTo, Dead;
  }

  /** Once a registration's operation has met something, that is all it meets, and it stays of its kind. */
  lemma MetOnce(s: State, m: Move, s': State, r: nat, f: Fate)
    requires Inv(s) && Plays(s, m, s') && UnderWay(s, r) && MetOk(s.regs[r], SomeClosed(s, s.regs[r].plan), f) && !f.Pending?
    ensures After(s, m, r, f) == f && r < |s'.regs| && s'.regs[r].drive.kind == s.regs[r].drive.kind
  {
    hide Moved, SomeClosed, AllOpen, RegOk;
    StepShape(s, m, s', r);
    if Drives(s, m, r) {
      assert RegIn(s, s.regs[r]);
      MeetsOnce(s.regs[r], s.serialized, AllOpen(s, s.regs[r].plan), SomeClosed(s, s.regs[r].plan), m.event.success, f);
      KindStays(s, m, s', r);
      hide Next, MetOk, Met, Inv;
    } else {
      hide Driven, Acted;
    }
  }

  lemma KindStays(s: State, m: Move, s': State, r: nat)
    requires Inv(s) && Plays(s, m, s') && Drives(s, m, r)
    ensures r < |s'.regs| && s'.regs[r].drive.kind == s.regs[r].drive.kind
  {
    hide Moved, Driven, Inv;
    assert Driven(s, m.thread, r, m.event.success) == Some(s');
    StepShape(s, m, s', r);
    DrivenMoves(s, m.thread, r, m.event.success, s'.regs[r]);
  }

  lemma {:induction false} FateStays(states: seq<State>, moves: seq<Move>, i: nat, j: nat, k: nat, r: nat)
    requires Played(states, moves) && Spans(states, r, i, j) && i < k <= j && !After(states[i], moves[i], r, FateAt(states, moves, i, r)).Pending?
    ensures FateAt(states, moves, k, r) == After(states[i], moves[i], r, FateAt(states, moves, i, r))
    ensures r < |states[k].regs| && states[k].regs[r].drive.kind == states[i + 1].regs[r].drive.kind
    decreases k
  {
    hide Inv, Next, MetOk, SomeClosed, After;
    if k > i + 1 {
      FateStays(states, moves, i, j, k - 1, r);
      FateHolds(states, moves, k - 1, r);
      assert Plays(states[k - 1], moves[k - 1], states[k - 1 + 1]) && UnderWay(states[k - 1], r);
      MetOnce(states[k - 1], moves[k - 1], states[k], r, FateAt(states, moves, k - 1, r));
    } else {
      assert r < |states[k].regs| by { if k < j { assert UnderWay(states[k], r); } }
    }
  }

  /** The registration when the operation has returned. */
  predicate Ended(reg: Registration, kind: Kind, success: bool) {
    if success then if kind.Register? then reg.published && Usable(reg) else Finished(reg)
    else if kind.Register? then !reg.published && reg.created && Failed(reg)
    else reg.published && Usable(reg)
  }

  /** ... and before, after the native function has answered: only a Close that succeeds gives back its
      leases, frees its inputs or deletes its context, and only a Register that succeeds takes leases. */
  predicate Underway(reg: Registration, kind: Kind, success: bool) {
    if kind.Register? then Outstanding(reg) == success && (success ==> Intact(reg))
    else !success ==> Outstanding(reg) && Intact(reg)
  }

  /** What Register and Close leave follows the status of the native function: a Close that it refuses
      leaves a usable registration with its leases and inputs, and one that it accepts finishes it; a
      Register likewise publishes or rolls back. */
  lemma ReturnsByStatus(states: seq<State>, moves: seq<Move>, i: nat, j: nat, r: nat, kind: Kind, success: bool)
    requires Played(states, moves) && Spans(states, r, i, j) && Answers(states[i], moves[i], r, kind, success)
    ensures Ended(states[j].regs[r], kind, success)
    ensures forall k :: i < k <= j ==> r < |states[k].regs| && Underway(states[k].regs[r], kind, success)
  {
    hide Inv, Next, MetOk, SomeClosed, Ended, Underway, FateAt;
    forall k | i < k <= j
      ensures r < |states[k].regs| && Underway(states[k].regs[r], kind, success) && (k == j ==> Ended(states[j].regs[r], kind, success))
    {
      AnsweredAt(states, moves, i, j, k, r, kind, success);
      UnderwayMeans(states[k], r, kind, success);
    }
  }

  lemma AnsweredAt(states: seq<State>, moves: seq<Move>, i: nat, j: nat, k: nat, r: nat, kind: Kind, success: bool)
    requires Played(states, moves) && Spans(states, r, i, j) && i < k <= j && Answers(states[i], moves[i], r, kind, success)
    ensures Inv(states[k]) && r < |states[k].regs| && states[k].regs[r].drive.kind == kind
    ensures MetOk(states[k].regs[r], SomeClosed(states[k], states[k].regs[r].plan), Status(success))
  {
    hide Inv, Next, MetOk, SomeClosed;
    FateHolds(states, moves, i, r);
    assert Plays(states[i], moves[i], states[i + 1]);
    KindStays(states[i], moves[i], states[i + 1], r);
    FateStays(states, moves, i, j, k, r);
    FateHolds(states, moves, k, r);
  }

  lemma UnderwayMeans(s: State, r: nat, kind: Kind, success: bool)
    requires Inv(s) && r < |s.regs| && s.regs[r].drive.kind == kind && MetOk(s.regs[r], SomeClosed(s, s.regs[r].plan), Status(success))
    ensures Underway(s.regs[r], kind, success) && (s.regs[r].driver.None? ==> Ended(s.regs[r], kind, success))
  {
    assert RegIn(s, s.regs[r]);
    hide SomeClosed, FreedTo;
  }

  // ----- failures -----

  /** The first failure that user code ends with, a panic or a bad input, is recorded and reported from
      then on. */
  lemma FirstFailureIsReported(states: seq<State>, moves: seq<Move>, i: nat, j: nat, f: Failure)
    requires Played(states, moves) && i < j < |states| && moves[i].event == EndUser(Some(f))
    ensures var t := moves[i].thread;
            t < |states[i].threads| && !states[i].threads[t].callback.Outside? &&
            var r := states[i].threads[t].callback.reg;
            r < |states[i].regs| && r < |states[j].regs| &&
            states[j].regs[r].callbacks.failure == if states[i].regs[r].callbacks.failure.Some? then states[i].regs[r].callbacks.failure else Some(f)
  {
    var t := moves[i].thread;
    assert Plays(states[i], moves[i], states[i + 1]);
    PlayedRuns(states, moves);
    RunInv(states, i);
    EndRecords(states[i], t, f);
    hide Inv, Next, Initial;
    FirstFailureIsFinal(states, i + 1, j, t, states[i].threads[t].callback.reg);
  }

  lemma EndRecords(s: State, t: nat, f: Failure)
    requires t < |s.threads| && Next(s, t, EndUser(Some(f))).Some?
    ensures !s.threads[t].callback.Outside? && s.threads[t].callback.reg < |s.regs|
    ensures var s', r := Next(s, t, EndUser(Some(f))).value, s.threads[t].callback.reg;
            && |s'.threads| == |s.threads| && r < |s'.regs|
            && s'.regs[r].callbacks.failure == if s.regs[r].callbacks.failure.Some? then s.regs[r].callbacks.failure else Some(f)
  {
  }

  /** User code of a callback of `r` ends with a failure. */
  predicate Fails(s: State, m: Move, r: nat, f: Failure) {
    m.thread < |s.threads| && !s.threads[m.thread].callback.Outside? && s.threads[m.thread].callback.reg == r && m.event == EndUser(Some(f))
  }

  /** Nothing else is ever recorded. */
  lemma {:induction false} FailureHasCause(states: seq<State>, moves: seq<Move>, j: nat, r: nat, f: Failure)
    requires Played(states, moves) && j < |states| && r < |states[j].regs| && states[j].regs[r].callbacks.failure == Some(f)
    ensures exists i :: 0 <= i < j && Fails(states[i], moves[i], r, f)
    decreases j
  {
    hide Next;
    var s, m := states[j - 1], moves[j - 1];
    assert Plays(s, m, states[j - 1 + 1]);
    FailureStep(s, m, states[j], r, f);
    if !Fails(s, m, r, f) {
      FailureHasCause(states, moves, j - 1, r, f);
      var i :| 0 <= i < j - 1 && Fails(states[i], moves[i], r, f);
    }
  }

  lemma FailureStep(s: State, m: Move, s': State, r: nat, f: Failure)
    requires Plays(s, m, s') && r < |s'.regs| && s'.regs[r].callbacks.failure == Some(f)
    ensures (r < |s.regs| && s.regs[r].callbacks.failure == Some(f)) || Fails(s, m, r, f)
  {
    hide Next, Moved, AllOpen;
    if Drives(s, m, r) {
      StepShape(s, m, s', r);
      MovedKeepsInputs(s.regs[r], s.serialized, AllOpen(s, s.regs[r].plan), m.event.success);
    } else if m.event.Advance? {
      AdvanceLeavesFailure(s, m, s', r);
    } else {
      EventRecords(s, m, s', r, f);
    }
  }

  lemma EventRecords(s: State, m: Move, s': State, r: nat, f: Failure)
    requires Plays(s, m, s') && !m.event.Advance? && r < |s'.regs| && s'.regs[r].callbacks.failure == Some(f)
    ensures (r < |s.regs| && s.regs[r].callbacks.failure == Some(f)) || Fails(s, m, r, f)
  {
    hide Plan, Driven, Acted, InUserCode, Admits;
  }

  lemma AdvanceLeavesFailure(s: State, m: Move, s': State, r: nat)
    requires Plays(s, m, s') && m.event.Advance? && !Drives(s, m, r) && r < |s'.regs|
    ensures r < |s.regs| && s'.regs[r].callbacks == s.regs[r].callbacks
  {
    hide Next;
    AdvanceIsOwn(s, m.thread, m.event.success);
    if s.threads[m.thread].op == Waiting(r) { StepShape(s, m, s', r); }
  }

  // ----- closing a handle -----

  /** Another thread does not change a handle whose mutex is held. */
  lemma LockedHandleStays(s: State, m: Move, s': State, t: nat, h: nat)
    requires Inv(s) && Plays(s, m, s') && t < |s.threads| && Holds(s, t, HandleLock(h)) && m.thread != t && h < |s.handles|
    ensures h < |s'.handles| && s'.handles[h] == s.handles[h]
  {
    if m.event.Advance? && s.threads[m.thread].op.Driving? {
      DriverLeavesLocked(s, m.thread, s.threads[m.thread].op.reg, m.event.success, t, h);
    } else if m.event.Advance? && s.threads[m.thread].op.Acting? {
      ActorLeavesLocked(s, m.thread, m.event.success, t, h);
    } else {
      hide Plan, Driven, Acted;
    }
  }

  lemma DriverLeavesLocked(s: State, a: nat, r: nat, success: bool, t: nat, h: nat)
    requires Inv(s) && a < |s.threads| && s.threads[a].op == Driving(r) && r < |s.regs| && Driven(s, a, r, success).Some?
    requires t < |s.threads| && t != a && Holds(s, t, HandleLock(h)) && h < |s.handles|
    ensures var s' := Driven(s, a, r, success).value; h < |s'.handles| && s'.handles[h] == s.handles[h]
  {
    var reg := s.regs[r];
    assert DriverOf(s, a) && RegIn(s, reg);
    assert !Holds(s, a, HandleLock(h));
    assert reg.drive.locked == |reg.plan| ==> reg.plan[..reg.drive.locked] == reg.plan;
    hide Moved, Wanted, Available, Returns, RegOk;
  }

  lemma ActorLeavesLocked(s: State, a: nat, success: bool, t: nat, h: nat)
    requires Inv(s) && a < |s.threads| && s.threads[a].op.Acting? && Acted(s, a, success).Some?
    requires t < |s.threads| && t != a && Holds(s, t, HandleLock(h)) && h < |s.handles|
    ensures var s' := Acted(s, a, success).value; h < |s'.handles| && s'.handles[h] == s.handles[h]
  {
    assert DriverOf(s, a);
    var op := s.threads[a].op;
    assert !Holds(s, a, HandleLock(h));
    assert op.locked == |op.plan| ==> op.plan[..op.locked] == op.plan;
    hide Available;
  }

  /** A thread closes handle `h`, and holds its mutex. */
  predicate ClosesHandle(s: State, t: nat, h: nat) {
    && t < |s.threads| && s.threads[t].op.Acting? && s.threads[t].op.closes && s.threads[t].op.plan == [h] && s.threads[t].op.locked == 1
    && h < |s.handles|
  }

  /** What a Close makes of a handle: released if it is open and no registration uses it. */
  function AfterClose(handle: Handle): Handle {
    if !handle.closed && handle.registrations == 0 then Handle(true, 0, handle.releases + 1) else handle
  }

  predicate Closing(s: State, t: nat, h: nat, before: Handle)
    requires ClosesHandle(s, t, h)
  {
    var phase := s.threads[t].op.phase;
    && (phase.WantHandles? ==> s.handles[h] == before) && (phase.Native? ==> s.handles[h] == before && !before.closed)
    && (phase.DropHandles? ==> s.handles[h] == AfterClose(before))
  }

  lemma ClosingStep(s: State, m: Move, s': State, t: nat, h: nat, before: Handle)
    requires Inv(s) && Plays(s, m, s') && ClosesHandle(s, t, h) && ClosesHandle(s', t, h) && Closing(s, t, h, before)
    ensures Closing(s', t, h, before)
  {
    assert DriverOf(s, t);
    if m.thread != t {
      assert [h][..1] == [h];
      LockedHandleStays(s, m, s', t, h);
      ThreadStays(s, m.thread, m.event, t);
      hide Next, Inv;
    } else if !m.event.Advance? {
      hide Plan, Driven, Acted;
    }
  }

  /** From the step on which a handle's Close has its mutex until it gives it back, the handle is changed by
      that Close only, which releases it if and only if it is open and no registration uses it. */
  lemma {:induction false} HandleCloseSettles(states: seq<State>, moves: seq<Move>, i: nat, j: nat, t: nat, h: nat)
    requires Played(states, moves) && i <= j < |states| && ClosesHandle(states[i], t, h)
    requires forall k :: i <= k <= j ==> ClosesHandle(states[k], t, h)
    requires states[i].threads[t].op.phase.WantHandles?
    ensures Closing(states[j], t, h, states[i].handles[h])
    decreases j
  {
    hide Inv, Next, Closing;
    if i < j {
      HandleCloseSettles(states, moves, i, j - 1, t, h);
      PlayedRuns(states, moves);
      RunInv(states, j - 1);
      assert Plays(states[j - 1], moves[j - 1], states[j - 1 + 1]) && ClosesHandle(states[j - 1], t, h) && ClosesHandle(states[j], t, h);
      ClosingStep(states[j - 1], moves[j - 1], states[j], t, h, states[i].handles[h]);
    } else {
      ClosingStarts(states[i], t, h);
    }
  }

  lemma ClosingStarts(s: State, t: nat, h: nat)
    requires ClosesHandle(s, t, h) && s.threads[t].op.phase.WantHandles?
    ensures Closing(s, t, h, s.handles[h])
  {
  }

  // ----- Registers that do not get to the native function -----

  lemma ObtainedStays(s: State, m: Move, s': State, r: nat)
    requires Plays(s, m, s') && r < |s.regs| && !s.regs[r].drive.phase.Preparing?
    ensures r < |s'.regs| && s'.regs[r].obtained == s.regs[r].obtained
  {
    StepShape(s, m, s', r);
    if Drives(s, m, r) { MovedKeepsInputs(s.regs[r], s.serialized, AllOpen(s, s.regs[r].plan), m.event.success); }
    hide Moved, Next;
  }

  lemma ExhaustsOnce(s: State, m: Move, s': State, r: nat, f: Fate)
    requires Inv(s) && Plays(s, m, s') && Exhausts(s, m, r) && MetOk(s.regs[r], SomeClosed(s, s.regs[r].plan), f)
    ensures After(s, m, r, f).NoMemory? && r < |s'.regs| && s'.regs[r].obtained == s.regs[r].obtained && s'.regs[r].drive.kind.Register?
  {
    hide SomeClosed, AllOpen;
    StepShape(s, m, s', r);
    assert RegIn(s, s.regs[r]) && DriverOf(s, m.thread);
    hide Next, Inv;
  }

  /** A Register whose allocation fails frees what it has allocated, each input once, creates no context
      and does not call the native function. */
  lemma AllocationFails(states: seq<State>, moves: seq<Move>, i: nat, j: nat, r: nat)
    requires Played(states, moves) && Spans(states, r, i, j) && Exhausts(states[i], moves[i], r)
    ensures var reg := states[j].regs[r];
            !reg.published && !reg.created && Failed(reg) && reg.obtained == states[i].regs[r].obtained
    ensures forall k, kind, success :: i <= k < j ==> !Answers(states[k], moves[k], r, kind, success)
  {
    hide Inv, Next, MetOk, SomeClosed, FateAt, Failed;
    FateHolds(states, moves, i, r);
    assert Plays(states[i], moves[i], states[i + 1]);
    ExhaustsOnce(states[i], moves[i], states[i + 1], r, FateAt(states, moves, i, r));
    ExhaustedAt(states, moves, i, j, j, r);
    forall k, kind, success | i <= k < j ensures !Answers(states[k], moves[k], r, kind, success) {
      if k > i { ExhaustedAt(states, moves, i, j, k, r); }
    }
  }

  lemma {:induction false} ExhaustedAt(states: seq<State>, moves: seq<Move>, i: nat, j: nat, k: nat, r: nat)
    requires Played(states, moves) && Spans(states, r, i, j) && i < k <= j && Exhausts(states[i], moves[i], r)
    ensures r < |states[k].regs| && states[k].regs[r].obtained == states[i].regs[r].obtained
    ensures var reg := states[k].regs[r];
            if k < j then reg.drive.phase.Freeing? else !reg.published && !reg.created && Failed(reg)
    decreases k
  {
    hide Inv, Next, MetOk, SomeClosed, FateAt, After;
    FateHolds(states, moves, i, r);
    assert Plays(states[i], moves[i], states[i + 1]);
    ExhaustsOnce(states[i], moves[i], states[i + 1], r, FateAt(states, moves, i, r));
    FateStays(states, moves, i, j, k, r);
    FateHolds(states, moves, k, r);
    NoMemoryMeans(states[k], r);
    if k < j { assert UnderWay(states[k], r); }
    if k > i + 1 {
      ExhaustedAt(states, moves, i, j, k - 1, r);
      assert Plays(states[k - 1], moves[k - 1], states[k - 1 + 1]);
      ObtainedStays(states[k - 1], moves[k - 1], states[k], r);
    }
  }

  lemma NoMemoryMeans(s: State, r: nat)
    requires Inv(s) && r < |s.regs| && s.regs[r].drive.kind.Register? && MetOk(s.regs[r], SomeClosed(s, s.regs[r].plan), NoMemory)
    ensures var reg := s.regs[r]; if reg.driver.Some? then reg.drive.phase.Freeing? else !reg.published && !reg.created && Failed(reg)
  {
    assert RegIn(s, s.regs[r]);
    hide SomeClosed, FreedTo;
  }

  // ----- and back: every outcome has its cause -----

  ghost predicate Answered(states: seq<State>, moves: seq<Move>, j: nat, r: nat, kind: Kind, success: bool)
    requires j <= |moves| < |states|
  {
    exists i :: 0 <= i < j && Answers(states[i], moves[i], r, kind, success)
  }

  /** Part of a published registration is gone: its leases, an input, its context, or all of it. */
  predicate Undone(reg: Registration) {
    reg.published && (reg.closed || reg.deleted || !Outstanding(reg) || exists k :: 0 <= k < |reg.frees| && reg.frees[k] > 0)
  }

  lemma {:induction false} StatusHasCall(states: seq<State>, moves: seq<Move>, j: nat, r: nat, success: bool)
    requires Played(states, moves) && j < |states| && FateAt(states, moves, j, r) == Status(success)
    ensures r < |states[j].regs| && Answered(states, moves, j, r, states[j].regs[r].drive.kind, success)
    decreases j
  {
    hide Inv, Next, MetOk, SomeClosed, After, Answers;
    FateHolds(states, moves, j, r);
    var s, m, s', before := states[j - 1], moves[j - 1], states[j - 1 + 1], FateAt(states, moves, j - 1, r);
    assert Plays(s, m, s');
    FateHolds(states, moves, j - 1, r);
    StatusStep(s, m, s', r, before, success);
    if before == Status(success) && s.regs[r].drive.kind == s'.regs[r].drive.kind {
      StatusHasCall(states, moves, j - 1, r, success);
      var i :| 0 <= i < j - 1 && Answers(states[i], moves[i], r, s.regs[r].drive.kind, success);
    }
  }

  /** A status was there before, or the step is the call. */
  lemma StatusStep(s: State, m: Move, s': State, r: nat, before: Fate, success: bool)
    requires Inv(s) && Plays(s, m, s') && After(s, m, r, before) == Status(success)
    requires if r < |s.regs| then MetOk(s.regs[r], SomeClosed(s, s.regs[r].plan), before) else before.Pending?
    ensures r < |s.regs| && r < |s'.regs|
    ensures (before == Status(success) && s.regs[r].drive.kind == s'.regs[r].drive.kind)
            || Answers(s, m, r, s'.regs[r].drive.kind, success)
  {
    hide Inv, MetOk, Moved, AllOpen, SomeClosed, Driven, Acted;
    StepShape(s, m, s', r);
    if Drives(s, m, r) { KindStays(s, m, s', r); }
    hide Next;
  }

  lemma {:induction false} ExhaustionHasCause(states: seq<State>, moves: seq<Move>, j: nat, r: nat)
    requires Played(states, moves) && j < |states| && FateAt(states, moves, j, r).NoMemory?
    ensures exists i :: 0 <= i < j && Exhausts(states[i], moves[i], r)
    decreases j
  {
    hide Inv, Next, AllOpen;
    assert Plays(states[j - 1], moves[j - 1], states[j - 1 + 1]);
    if FateAt(states, moves, j - 1, r).NoMemory? {
      ExhaustionHasCause(states, moves, j - 1, r);
    } else {
      assert Exhausts(states[j - 1], moves[j - 1], r);
    }
  }

  lemma CloseUndoes(reg: Registration, serialized: bool, open: bool, closed: bool, success: bool, f: Fate)
    requires RegOk(reg, serialized) && reg.driver.Some? && MetOk(reg, closed, f)
    requires !Undone(reg) && Undone(Moved(reg, serialized, open, success))
    ensures f == Status(true) && reg.drive.kind.Close?
  {
  }

  lemma UndoneStep(s: State, m: Move, s': State, r: nat, f: Fate)
    requires Inv(s) && Plays(s, m, s') && r < |s.regs| && r < |s'.regs| && MetOk(s.regs[r], SomeClosed(s, s.regs[r].plan), f)
    requires !Undone(s.regs[r]) && Undone(s'.regs[r])
    ensures f == Status(true) && s.regs[r].drive.kind.Close?
  {
    hide SomeClosed, AllOpen, Moved, MetOk, RegOk;
    StepShape(s, m, s', r);
    assert RegIn(s, s.regs[r]);
    if Drives(s, m, r) {
      assert DriverOf(s, m.thread);
      CloseUndoes(s.regs[r], s.serialized, AllOpen(s, s.regs[r].plan), SomeClosed(s, s.regs[r].plan), m.event.success, f);
    }
    hide Next;
  }

  /** A registration loses its leases, its inputs or its context only after the native function has
      accepted a Close. */
  lemma {:induction false} UndoneByClose(states: seq<State>, moves: seq<Move>, j: nat, r: nat)
    requires Played(states, moves) && j < |states| && r < |states[j].regs| && Undone(states[j].regs[r])
    ensures Answered(states, moves, j, r, Close, true)
    decreases j
  {
    hide Inv, Next, MetOk, SomeClosed, Undone, FateAt, Answers;
    var before := states[j - 1];
    assert Plays(before, moves[j - 1], states[j - 1 + 1]);
    FateHolds(states, moves, j - 1, r);
    NewIsWhole(before, moves[j - 1], states[j], r);
    if Undone(before.regs[r]) {
      UndoneByClose(states, moves, j - 1, r);
    } else {
      UndoneStep(before, moves[j - 1], states[j], r, FateAt(states, moves, j - 1, r));
      StatusHasCall(states, moves, j - 1, r, true);
    }
    var i :| 0 <= i < j - 1 && Answers(states[i], moves[i], r, Close, true);
  }

  lemma NewIsWhole(s: State, m: Move, s': State, r: nat)
    requires Inv(s) && Plays(s, m, s') && r < |s'.regs| && Undone(s'.regs[r])
    ensures r < |s.regs|
  {
    StepKeeps(s, m.thread, m.event);
    StepShape(s, m, s', r);
    assert RegIn(s', s'.regs[r]);
  }

  /** A Register that returns, or a Close that leaves its registration usable, has its cause. */
  lemma OutcomesHaveCauses(states: seq<State>, moves: seq<Move>, j: nat, r: nat)
    requires Played(states, moves) && j < |states| && r < |states[j].regs| && states[j].regs[r].driver.None?
    ensures var reg := states[j].regs[r];
            && (reg.registered ==> Answered(states, moves, j, r, Register, true))
            && (reg.drive.kind.Close? && !reg.closed ==> Answered(states, moves, j, r, Close, false))
            && (!reg.published && reg.created ==> Answered(states, moves, j, r, Register, false) || SomeClosed(states[j], reg.plan))
            && (!reg.created ==> exists i :: 0 <= i < j && Exhausts(states[i], moves[i], r))
  {
    hide Inv, Next, SomeClosed, Answers, Exhausts, FateAt, Answered;
    FateHolds(states, moves, j, r);
    var f := FateAt(states, moves, j, r);
    RestMeans(states[j], r, f);
    if f.Status? { StatusHasCall(states, moves, j, r, f.success); }
    if f.NoMemory? { ExhaustionHasCause(states, moves, j, r); }
    if states[j].regs[r].registered { RegisteredByCall(states, moves, j, r); }
  }

  lemma RestMeans(s: State, r: nat, f: Fate)
    requires Inv(s) && r < |s.regs| && s.regs[r].driver.None? && MetOk(s.regs[r], SomeClosed(s, s.regs[r].plan), f)
    ensures var reg := s.regs[r];
            && (reg.drive.kind.Close? && !reg.closed ==> f == Status(false))
            && (!reg.published && reg.created ==> reg.drive.kind.Register? && (f == Status(false) || SomeClosed(s, reg.plan)))
            && (!reg.created ==> f.NoMemory?)
  {
    hide SomeClosed;
    assert RegIn(s, s.regs[r]);
  }

  lemma {:induction false} RegisteredByCall(states: seq<State>, moves: seq<Move>, j: nat, r: nat)
    requires Played(states, moves) && j < |states| && r < |states[j].regs| && states[j].regs[r].registered
    ensures Answered(states, moves, j, r, Register, true)
    decreases j
  {
    hide Inv, Next;
    var s, m, s' := states[j - 1], moves[j - 1], states[j - 1 + 1];
    assert Plays(s, m, s');
    RegisteredStep(s, m, s', r);
    if r < |s.regs| && s.regs[r].registered {
      RegisteredByCall(states, moves, j - 1, r);
      var i :| 0 <= i < j - 1 && Answers(states[i], moves[i], r, Register, true);
    }
  }

  lemma RegisteredStep(s: State, m: Move, s': State, r: nat)
    requires Plays(s, m, s') && r < |s'.regs| && s'.regs[r].registered
    ensures (r < |s.regs| && s.regs[r].registered) || Answers(s, m, r, Register, true)
  {
    hide Next, Moved, AllOpen;
    StepShape(s, m, s', r);
    if Drives(s, m, r) {
      MovedKeepsInputs(s.regs[r], s.serialized, AllOpen(s, s.regs[r].plan), m.event.success);
      if s.regs[r].drive.phase.Native? { NativeRegisters(s.regs[r], s.serialized, AllOpen(s, s.regs[r].plan), m.event.success); }
    }
  }

  lemma NativeRegisters(reg: Registration, serialized: bool, open: bool, success: bool)
    requires reg.drive.phase.Native?
    ensures Moved(reg, serialized, open, success).registered ==> reg.registered || (reg.drive.kind.Register? && success)
  {
  }
}
