/** The ownership protocol of the generated C bindings, as a step machine: any number of threads,
    handles and callback registrations; one step is one lock operation, one native call, one free or
    one section under a callback state's own mutex. */
module CallbackProtocol {
  import opened Completions
  import opened LockPlan

  datatype Failure = Panicked(value: int) | BadInput(parameter: string, reason: string)

  /** Callback state of one registration: closing, failureKind and its detail, inFlight. */
  datatype Callbacks = Callbacks(closing: bool, failure: Option<Failure>, inFlight: nat)

  predicate Admits(c: Callbacks) {
    !c.closing && c.failure.None?
  }

  function Recorded(c: Callbacks, f: Failure): Callbacks {
    if c.failure.None? then c.(failure := Some(f)) else c
  }

  datatype Handle = Handle(closed: bool, registrations: nat, releases: nat)

  datatype Kind = Register | Close

  /** Points between two steps of a Register or Close. */
  datatype Phase =
    | Preparing | Checking
    | WantGlobal | WantHandles | Native | DropHandles | DropGlobal | Settled
    | Stopping | Resuming | Draining | Relocking | Redropping | Freeing | Deleting | Leaving

  datatype Drive = Drive(kind: Kind, phase: Phase, global: bool, locked: nat, ok: bool, cursor: nat)

  /** `plan` lists the handles once each by creation id; `frees[i]` counts the frees of input `i`. */
  datatype Registration = Registration(
    plan: seq<nat>, obtained: nat, frees: seq<nat>, callbacks: Callbacks,
    created: bool, registered: bool, published: bool, deleted: bool, closed: bool,
    driver: Option<nat>, drive: Drive)

  /** What a thread does inside a native callback. */
  datatype Callback = Outside | Entered(reg: nat) | Admitted(reg: nat) | Running(reg: nat) | Ending(reg: nat)

  /** What a thread does in a generated function: waiting for a registration's mutex, driving its
      Register or Close, or closing a handle or calling a plain function. */
  datatype Operation =
    | Free
    | Waiting(reg: nat)
    | Driving(reg: nat)
    | Acting(closes: bool, plan: seq<nat>, phase: Phase, global: bool, locked: nat)

  datatype Thread = Thread(callback: Callback, op: Operation)

  datatype State = State(serialized: bool, handles: seq<Handle>, regs: seq<Registration>, threads: seq<Thread>)

  datatype Event =
    | StartRegister(params: seq<nat>, inputs: nat)
    | StartClose(reg: nat)
    | StartAct(closes: bool, params: seq<nat>)
    | NewHandle
    | Arrive(reg: nat)
    | BeginCallback
    | RunUser
    | EndUser(failure: Option<Failure>)
    | EndCallback
    | Advance(success: bool)

  // ----- locks -----

  datatype Lock = RegistrationLock(reg: nat) | GlobalLock | HandleLock(handle: nat)

  predicate Holds(s: State, t: nat, l: Lock)
    requires t < |s.threads|
  {
    match s.threads[t].op
    case Driving(r) =>
      r < |s.regs| &&
      var reg := s.regs[r];
      (match l
       case RegistrationLock(r1) => r1 == r && reg.drive.kind.Close?
       case GlobalLock => reg.drive.global
       case HandleLock(h) => reg.drive.locked <= |reg.plan| && h in reg.plan[..reg.drive.locked])
    case Acting(_, plan, _, global, locked) =>
      (match l
       case RegistrationLock(_) => false
       case GlobalLock => global
       case HandleLock(h) => locked <= |plan| && h in plan[..locked])
    case _ => false
  }

  predicate Available(s: State, l: Lock) {
    forall t :: 0 <= t < |s.threads| ==> !Holds(s, t, l)
  }

  // ----- steps -----

  predicate AllOpen(s: State, plan: seq<nat>) {
    forall h :: h in plan ==> h < |s.handles| && !s.handles[h].closed
  }

  function WithThread(s: State, t: nat, th: Thread): State
    requires t < |s.threads|
  {
    s.(threads := s.threads[t := th])
  }

  function WithReg(s: State, r: nat, reg: Registration): State
    requires r < |s.regs|
  {
    s.(regs := s.regs[r := reg])
  }

  function Leased(s: State, plan: seq<nat>, delta: int): seq<Handle> {
    seq(|s.handles|, h requires 0 <= h < |s.handles| =>
      if h in plan && s.handles[h].registrations + delta >= 0 then s.handles[h].(registrations := s.handles[h].registrations + delta)
      else s.handles[h])
  }

  /** Generated functions are called from user code: outside native callbacks, or in the function that a
      callback runs. */
  predicate InUserCode(th: Thread) {
    th.op.Free? && (th.callback.Outside? || th.callback.Running?)
  }

  function Next(s: State, t: nat, e: Event): Option<State>
    requires t < |s.threads|
  {
    var th := s.threads[t];
    match e
    case StartRegister(params, inputs) =>
      if !InUserCode(th) || (exists h :: h in params && h >= |s.handles|) then None else
      var reg := Registration(Plan(params), 0, seq(inputs, _ => 0), Callbacks(false, None, 0), false, false, false, false, false,
                              Some(t), Drive(Register, Preparing, false, 0, false, 0));
      Some(WithThread(s.(regs := s.regs + [reg]), t, th.(op := Driving(|s.regs|))))
    case StartClose(r) =>
      if !InUserCode(th) || r >= |s.regs| || !s.regs[r].published then None
      else Some(WithThread(s, t, th.(op := Waiting(r))))
    case StartAct(closes, params) =>
      if !InUserCode(th) || (exists h :: h in params && h >= |s.handles|) || (closes && |params| != 1) then None
      else Some(WithThread(s, t, th.(op := Acting(closes, Plan(params), WantGlobal, false, 0))))
    case NewHandle => Some(s.(handles := s.handles + [Handle(false, 0, 0)]))
    case Arrive(r) =>
      if !th.callback.Outside? || !th.op.Free? || r >= |s.regs| || !s.regs[r].created || s.regs[r].deleted then None
      else Some(WithThread(s, t, th.(callback := Entered(r))))
    case BeginCallback =>
      if !th.callback.Entered? || th.callback.reg >= |s.regs| then None else
      var r := th.callback.reg;
      var c := s.regs[r].callbacks;
      if !Admits(c) then Some(WithThread(s, t, th.(callback := Outside)))
      else Some(WithThread(WithReg(s, r, s.regs[r].(callbacks := c.(inFlight := c.inFlight + 1))), t, th.(callback := Admitted(r))))
    case RunUser =>
      if !th.callback.Admitted? then None else Some(WithThread(s, t, th.(callback := Running(th.callback.reg))))
    case EndUser(failure) =>
      if !((th.callback.Running? && th.op.Free?) || (th.callback.Admitted? && failure.Some?)) || th.callback.reg >= |s.regs| then None else
      var r := th.callback.reg;
      var c := s.regs[r].callbacks;
      Some(WithThread(WithReg(s, r, s.regs[r].(callbacks := if failure.Some? then Recorded(c, failure.value) else c)),
                      t, th.(callback := Ending(r))))
    case EndCallback =>
      if !th.callback.Ending? || th.callback.reg >= |s.regs| || s.regs[th.callback.reg].callbacks.inFlight == 0 then None else
      var r := th.callback.reg;
      var c := s.regs[r].callbacks;
      Some(WithThread(WithReg(s, r, s.regs[r].(callbacks := c.(inFlight := c.inFlight - 1))), t, th.(callback := Outside)))
    case Advance(success) =>
      match th.op
      case Free => None
      case Waiting(r) =>
        if r >= |s.regs| || s.regs[r].driver.Some? then None
        else Some(WithThread(WithReg(s, r, s.regs[r].(driver := Some(t), drive := Drive(Close, Checking, false, 0, false, 0))),
                             t, th.(op := Driving(r))))
      case Driving(r) => if r >= |s.regs| then None else Driven(s, t, r, success)
      case Acting(_, _, _, _, _) => Acted(s, t, success)
  }

  /** One step of a plain call or of a handle's Close. */
  function Acted(s: State, t: nat, success: bool): Option<State>
    requires t < |s.threads| && s.threads[t].op.Acting?
  {
    var th := s.threads[t];
    var op := th.op;
    match op.phase
    case WantGlobal =>
      if s.serialized && !Available(s, GlobalLock) then None
      else Some(WithThread(s, t, th.(op := op.(phase := WantHandles, global := s.serialized))))
    case WantHandles =>
      if op.locked < |op.plan| then
        if !Available(s, HandleLock(op.plan[op.locked])) then None
        else Some(WithThread(s, t, th.(op := op.(locked := op.locked + 1))))
      else Some(WithThread(s, t, th.(op := op.(phase := if AllOpen(s, op.plan) then Native else DropHandles))))
    case Native =>
      var released :=
        if op.closes && op.plan != [] && op.plan[0] < |s.handles| && s.handles[op.plan[0]].registrations == 0 then
          var h := s.handles[op.plan[0]];
          s.(handles := s.handles[op.plan[0] := h.(closed := true, releases := h.releases + 1)])
        else s;
      Some(WithThread(released, t, th.(op := op.(phase := DropHandles))))
    case DropHandles =>
      if op.locked > 0 then Some(WithThread(s, t, th.(op := op.(locked := op.locked - 1))))
      else Some(WithThread(s, t, th.(op := op.(phase := DropGlobal))))
    case _ => Some(WithThread(s, t, th.(op := Free)))
  }

  /** The lock that the next step of a Register or Close has to take, if any. */
  function Wanted(reg: Registration, serialized: bool): Option<Lock> {
    var d := reg.drive;
    if d.phase.WantGlobal? && serialized then Some(GlobalLock)
    else if (d.phase.WantHandles? || d.phase.Relocking?) && d.locked < |reg.plan| then Some(HandleLock(reg.plan[d.locked]))
    else None
  }

  /** Leases taken or given back by the next step. */
  function LeaseChange(reg: Registration, success: bool): int {
    var d := reg.drive;
    if d.phase.Native? && d.kind.Register? && success then 1
    else if d.phase.Relocking? && d.locked >= |reg.plan| then -1
    else 0
  }

  /** Whether the next step returns to the caller. */
  predicate Returns(reg: Registration) {
    var d := reg.drive;
    d.phase.Leaving? || (d.kind.Register? && ((d.phase.Settled? && d.ok) || (d.phase.Freeing? && !FreesNext(reg))))
  }

  predicate FreesNext(reg: Registration) {
    reg.drive.cursor < reg.obtained && reg.drive.cursor < |reg.frees|
  }

  /** The registration after one step. `open` says whether its handles are; `success` is the native
      status, or whether an allocation worked. */
  function Moved(reg: Registration, serialized: bool, open: bool, success: bool): Registration {
    var d := reg.drive;
    var c := reg.callbacks;
    match d.phase
    case Preparing =>
      if reg.obtained >= |reg.frees| then reg.(created := true, drive := d.(phase := WantGlobal))
      else if success then reg.(obtained := reg.obtained + 1)
      else reg.(drive := d.(phase := Freeing))
    case Checking =>
      if reg.closed then reg.(drive := d.(phase := Leaving))
      else reg.(callbacks := c.(closing := true), drive := d.(phase := WantGlobal))
    case WantGlobal => reg.(drive := d.(phase := WantHandles, global := serialized))
    case WantHandles =>
      if d.locked < |reg.plan| then reg.(drive := d.(locked := d.locked + 1))
      // On a closed handle the emitted Close resumes callbacks before it unlocks, here it does after. No
      // Close gets there: the handles of a registration to be closed are open (LeasedHandlesAreOpen).
      else reg.(drive := d.(phase := if open then Native else DropHandles, ok := false))
    case Native =>
      reg.(registered := reg.registered || (d.kind.Register? && success), drive := d.(phase := DropHandles, ok := success))
    case DropHandles =>
      if d.locked > 0 then reg.(drive := d.(locked := d.locked - 1)) else reg.(drive := d.(phase := DropGlobal))
    case DropGlobal => reg.(drive := d.(phase := Settled, global := false))
    case Settled =>
      if d.kind.Register? then
        if d.ok then reg.(published := true, driver := None) else reg.(drive := d.(phase := Stopping))
      else reg.(drive := d.(phase := if d.ok then Draining else Resuming))
    case Stopping => reg.(callbacks := c.(closing := true), drive := d.(phase := Draining))
    case Resuming => reg.(callbacks := c.(closing := false), drive := d.(phase := Leaving))
    case Draining => reg.(drive := d.(phase := if d.kind.Register? then Deleting else Relocking))
    case Relocking =>
      if d.locked < |reg.plan| then reg.(drive := d.(locked := d.locked + 1)) else reg.(drive := d.(phase := Redropping))
    case Redropping =>
      if d.locked > 0 then reg.(drive := d.(locked := d.locked - 1)) else reg.(drive := d.(phase := Freeing))
    case Freeing =>
      if FreesNext(reg) then
        reg.(frees := reg.frees[d.cursor := reg.frees[d.cursor] + 1], drive := d.(cursor := d.cursor + 1))
      else if d.kind.Register? then reg.(driver := None)
      else reg.(drive := d.(phase := Deleting))
    case Deleting =>
      if d.kind.Register? then reg.(deleted := true, drive := d.(phase := Freeing))
      else reg.(deleted := true, closed := true, drive := d.(phase := Leaving))
    case Leaving => reg.(driver := None)
  }

  /** One step of a Register or Close: it waits for its lock, or for admitted callbacks to end. */
  function Driven(s: State, t: nat, r: nat, success: bool): Option<State>
    requires t < |s.threads| && r < |s.regs|
  {
    var reg := s.regs[r];
    var lock := Wanted(reg, s.serialized);
    if lock.Some? && !Available(s, lock.value) then None
    else if reg.drive.phase.Draining? && reg.callbacks.inFlight != 0 then None
    else
      var moved := WithReg(s, r, Moved(reg, s.serialized, AllOpen(s, reg.plan), success));
      var delta := LeaseChange(reg, success);
      var counted := if delta == 0 then moved else moved.(handles := Leased(s, reg.plan, delta));
      Some(if Returns(reg) then WithThread(counted, t, s.threads[t].(op := Free)) else counted)
  }

  // ----- runs -----

  ghost predicate Initial(s: State) {
    && s.regs == [] && (forall t :: 0 <= t < |s.threads| ==> s.threads[t] == Thread(Outside, Free))
    && (forall h :: 0 <= h < |s.handles| ==> s.handles[h] == Handle(false, 0, 0))
  }

  ghost predicate Step(s: State, s': State) {
    exists t, e :: 0 <= t < |s.threads| && Next(s, t, e) == Some(s')
  }

  ghost predicate Run(states: seq<State>) {
    && states != [] && Initial(states[0])
    && forall i :: 0 <= i < |states| - 1 ==> Step(states[i], states[i + 1])
  }
}
