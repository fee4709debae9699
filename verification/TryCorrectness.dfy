/** The panic-based Go form of a callable ends exactly as its source does. */
module TryCorrectness {
  import opened Completions
  import opened Returns
  import S = ExceptionSource
  import opened GoMachine
  import opened TryLowering
  import opened TryMachinery
  import opened TryFragments
  import opened IteratorFragments

  // ----- what the checker guarantees -----

  /** A bare throw names an enclosing catch, break and continue do not cross a try, nested tries
      have distinct offsets, and what is returned or thrown has the declared shape. */
  ghost predicate Scoped(s: S.Stmt, rt: ResultType, inLoop: bool, caught: set<nat>)
    decreases S.Size(s)
  {
    match s
    case Seq(a, b) => Scoped(a, rt, inLoop, caught) && Scoped(b, rt, inLoop, caught)
    case If(_, a, b) => Scoped(a, rt, inLoop, caught) && Scoped(b, rt, inLoop, caught)
    case While(_, body) => Scoped(body, rt, true, caught)
    case Break => inLoop
    case Continue => inLoop
    case Return(kind, eval) => forall x: Store :: eval(x).outcome.Done? ==> Typed(rt, kind, eval(x).values)
    case Throw(eval) => forall x: Store :: eval(x).outcome.Done? ==> |eval(x).values| == 1
    case Yield(eval, _) => forall x: Store :: eval(x).outcome.Done? ==> |eval(x).values| == 1
    case Rethrow(target) => target in caught
    case Try(k, body, catches, fin) =>
      && k !in caught && Scoped(body, rt, false, caught) && ScopedCatches(catches, rt, caught + {k})
      && (fin.Some? ==> Scoped(fin.value, rt, false, caught))
    case ForOf(_, iter, body) => Scoped(iter, Void, false, {}) && Scoped(body, rt, true, caught)
    case _ => true
  }

  ghost predicate ScopedCatches(cs: S.Catches, rt: ResultType, caught: set<nat>)
    decreases S.CatchesSize(cs)
  {
    cs.MoreCatch? ==> Scoped(cs.clause.body, rt, false, caught) && ScopedCatches(cs.others, rt, caught)
  }

  // ----- corresponding completions, states and contexts -----

  predicate Carries(rt: ResultType, c: S.Completion, v: PanicValue) {
    match c
    case Returning(rs) => v.PReturn? && ControlResults(rt, v.payload) == rs
    case Raising(p) => v == PRaised(p)
    case Unwinding(loop) => v == PIterator(loop)
    case _ => false
  }

  predicate Ends(rt: ResultType, crossing: bool, c: S.Completion, g: Completion) {
    match c
    case Normal => g.Normal?
    case Breaking => g.Breaking?
    case Continuing => g.Continuing?
    case OutOfFuel => g.OutOfFuel?
    case Returning(rs) => if crossing then g.Panicking? && Carries(rt, c, g.panic) else g == Returning(rs)
    case Raising(_) => g.Panicking? && Carries(rt, c, g.panic)
    case Unwinding(_) => g.Panicking? && Carries(rt, c, g.panic)
    case Exiting(q) =>
      g.Exiting? && if q.Normal? then g.pending.None? else g.pending.Some? && Carries(rt, q, g.pending.value)
  }

  predicate LoopSame(l: S.Loop, r: Range, control: Option<PanicValue>) {
    && l.exit == r.exit
    && (l.phase.Ready? <==> r.phase.Ready?) && (l.phase.Busy? <==> r.phase.Busy?)
    && (l.pending.Some? <==> control.Some?)
    && (l.pending.Some? ==> Carries(l.rt, l.pending.value, control.value) && S.Signals(l.pending.value))
    && (l.pending.Some? && l.pending.value.Returning? ==> l.crossing) && (l.exit.Some? ==> !l.crossing)
  }

  predicate Same(s: S.State, g: State) {
    && s.store == g.store
    && |s.loops| == |g.ranges| == |g.frames|
    && forall i :: 0 <= i < |s.loops| ==> LoopSame(s.loops[i], g.ranges[i], g.frames[i])
  }

  predicate LoopStays(l: S.Loop, m: S.Loop) {
    l.rt == m.rt && l.crossing == m.crossing && (l.pending.Some? ==> m.pending.Some?)
  }

  /** Loops are never forgotten, and what one owes stays owed. */
  predicate Grows(a: S.State, b: S.State) {
    |a.loops| <= |b.loops| &&
    forall i :: 0 <= i < |a.loops| ==> LoopStays(a.loops[i], b.loops[i])
  }

  predicate SameEnv(env: S.Env, scope: Scope, cells: seq<Cell>) {
    forall k :: k in env ==>
      env[k].Thrown? && ThrownOf(k) in scope && scope[ThrownOf(k)] < |cells| && cells[scope[ThrownOf(k)]] == Held(Some(PRaised(env[k])))
  }

  /** The yield function of the adapter, wrapping the native body of the same loop. */
  ghost predicate SameContext(ctx: S.Context, yld: YieldFunc, loops: seq<S.Loop>, cells: seq<Cell>)
    decreases ctx
  {
    match ctx
    case NoLoop => yld == NoYield
    case InLoop(id, bind, body, crossing, rt, env, outer) =>
      && id < |loops| && loops[id].rt == rt && loops[id].crossing == crossing && Scoped(body, rt, true, env.Keys)
      && yld.Literal? && yld.argument == InvokeArgument && yld.body == FrameInvoke()
      && FrameRef in yld.scope && yld.scope[FrameRef] < |cells| && cells[yld.scope[FrameRef]] == Ref(id)
      && yld.outer.RangeBody? && yld.outer.range == id && yld.outer.bind == bind
      && yld.outer.body == Lower(body, crossing, rt)
      && SameEnv(env, yld.outer.scope, cells)
      && SameContext(outer, yld.outer.outer, loops, cells)
  }

  lemma {:induction false} ContextStays(ctx: S.Context, yld: YieldFunc, a: S.State, b: S.State, before: seq<Cell>, after: seq<Cell>)
    requires SameContext(ctx, yld, a.loops, before) && Grows(a, b) && Keeps(before, after)
    ensures SameContext(ctx, yld, b.loops, after)
    decreases ctx
  {
    if ctx.InLoop? {
      EnvStays(ctx.env, yld.outer.scope, before, after);
      ContextStays(ctx.outer, yld.outer.outer, a, b, before, after);
    }
  }

  lemma EnvStays(env: S.Env, scope: Scope, before: seq<Cell>, after: seq<Cell>)
    requires SameEnv(env, scope, before) && Keeps(before, after)
    ensures SameEnv(env, scope, after)
  {
  }

  /** Everything the simulation maintains from one statement to the next. */
  ghost predicate Related(env: S.Env, ctx: S.Context, st: S.State, scope: Scope, yld: YieldFunc, g: State) {
    Same(st, g) && SameEnv(env, scope, g.cells) && SameContext(ctx, yld, st.loops, g.cells)
  }

  ghost predicate Agrees(rt: ResultType, crossing: bool, inLoop: bool, st: S.State, a: S.Result, act: Activation, g: State, b: Result) {
    && Ends(rt, crossing, a.c, b.c) && Same(a.st, b.st) && b.act == act
    && Keeps(g.cells, b.st.cells) && Grows(st, a.st)
    && (a.c.Unwinding? ==> a.c.loop < |a.st.loops| && a.st.loops[a.c.loop].pending.Some?)
    && (!inLoop ==> !a.c.Breaking? && !a.c.Continuing?)
    && (!crossing && a.c.Exiting? ==> a.c.pending.Normal?)
  }

  /** Agreement composes: the second part starts where the first one ended. */
  lemma Chain(rt: ResultType, crossing: bool, inLoop: bool, st: S.State, mid: S.State, a: S.Result, act: Activation,
              g: State, h: State, b: Result)
    requires Grows(st, mid) && Keeps(g.cells, h.cells) && Agrees(rt, crossing, inLoop, mid, a, act, h, b)
    ensures Agrees(rt, crossing, inLoop, st, a, act, g, b)
  {
  }

  lemma RelatedStays(env: S.Env, ctx: S.Context, a: S.State, b: S.State, scope: Scope, yld: YieldFunc, g: State, h: State)
    requires Related(env, ctx, a, scope, yld, g) && Same(b, h) && Grows(a, b) && Keeps(g.cells, h.cells)
    ensures Related(env, ctx, b, scope, yld, h)
  {
    ContextStays(ctx, yld, a, b, g.cells, h.cells);
    EnvStays(env, scope, g.cells, h.cells);
  }

  /** After agreeing runs the states still correspond. */
  lemma AgreedStays(rt: ResultType, crossing: bool, inLoop: bool, env: S.Env, ctx: S.Context, st: S.State, a: S.Result,
                    scope: Scope, yld: YieldFunc, act: Activation, g: State, b: Result)
    requires Related(env, ctx, st, scope, yld, g) && Agrees(rt, crossing, inLoop, st, a, act, g, b)
    ensures Related(env, ctx, a.st, scope, yld, b.st)
  {
    RelatedStays(env, ctx, st, a.st, scope, yld, g, b.st);
  }

  // ----- simple statements -----

  lemma ReturnEnds(rt: ResultType, kind: ReturnKind, eval: Store -> Evaluated, crossing: bool, scope: Scope, g: State)
    ensures var e := eval(g.store);
            var c := if e.outcome.Done? && Typed(rt, kind, e.values) then S.Returning(NativeResults(rt, kind, e.values)) else S.After(e.outcome);
            var r := Step(if crossing then PanicReturn(rt, kind, eval) else NativeReturn(rt, kind, eval), scope, g);
            Ends(rt, crossing, c, r.c) && r.st == g.(store := e.store)
  {
    var e := eval(g.store);
    if e.outcome.Done? && Typed(rt, kind, e.values) { PayloadRoundTrip(rt, kind, e.values); }
  }

  lemma PropagateEnds(rt: ResultType, eval: Store -> Evaluated, bind: (Value, Store) -> Store, crossing: bool,
                      env: S.Env, st: S.State, scope: Scope, g: State)
    requires st.store == g.store
    ensures var a := S.Simple(S.Propagate(eval, bind), rt, env, st);
            var r := Step(PropagateOr(rt, crossing, eval, bind), scope, g);
            Ends(rt, crossing, a.c, r.c) && r.st == g.(store := a.st.store)
            && !a.c.Breaking? && !a.c.Continuing? && !a.c.Unwinding? && (a.c.Exiting? ==> a.c.pending.Normal?)
  {
    var e := eval(g.store);
    if e.outcome.Done? && S.Propagates(rt, e.values) { PayloadRoundTrip(rt, ReturnFail, [e.values[|e.values| - 1]]); }
  }

  lemma SimpleEnds(s: S.Stmt, crossing: bool, rt: ResultType, inLoop: bool, env: S.Env, st: S.State, scope: Scope, g: State)
    requires s.Prim? || s.Break? || s.Continue? || s.Return? || s.Propagate? || s.Throw? || s.Rethrow?
    requires Scoped(s, rt, inLoop, env.Keys) && st.store == g.store && SameEnv(env, scope, g.cells)
    ensures var a := S.Simple(s, rt, env, st);
            var r := Step(Lower(s, crossing, rt).op, scope, g);
            Ends(rt, crossing, a.c, r.c) && r.st == g.(store := a.st.store)
            && (!inLoop ==> !a.c.Breaking? && !a.c.Continuing?) && !a.c.Unwinding? && (a.c.Exiting? ==> a.c.pending.Normal?)
  {
    if s.Return? {
      hide Step, Typed, NativeResults, SameEnv;
      ReturnEnds(rt, s.kind, s.eval, crossing, scope, g);
    } else if s.Propagate? {
      hide Step, S.Simple, SameEnv;
      PropagateEnds(rt, s.eval, s.bind, crossing, env, st, scope, g);
    }
  }

  /** A step that only touches the store keeps the simulation. */
  lemma StoreStep(rt: ResultType, crossing: bool, inLoop: bool, st: S.State, a: S.Result, act: Activation, g: State, r: Stepped)
    requires Same(st, g) && a.st.loops == st.loops && r.st == g.(store := a.st.store) && Ends(rt, crossing, a.c, r.c)
    requires (!inLoop ==> !a.c.Breaking? && !a.c.Continuing?) && !a.c.Unwinding? && (a.c.Exiting? ==> a.c.pending.Normal?)
    ensures Agrees(rt, crossing, inLoop, st, a, act, g, Result(r.c, act, r.st))
  {
  }

  lemma SimpleForms(s: S.Stmt, crossing: bool, rt: ResultType, env: S.Env, ctx: S.Context, st: S.State, fuel: nat)
    requires !s.Seq? && !s.If? && !s.While? && !s.Try? && !s.ForOf? && !s.Yield?
    ensures S.Exec(s, crossing, rt, env, ctx, st, fuel) == S.Simple(s, rt, env, st) && S.Simple(s, rt, env, st).st.loops == st.loops
    ensures if s.Skip? then Lower(s, crossing, rt) == Nop && S.Simple(s, rt, env, st) == S.Result(S.Normal, st) else Lower(s, crossing, rt).Do?
  {
  }

  lemma SimpleAgrees(s: S.Stmt, crossing: bool, rt: ResultType, inLoop: bool, env: S.Env, ctx: S.Context, st: S.State,
                     scope: Scope, yld: YieldFunc, act: Activation, g: State, fuel: nat)
    requires !s.Seq? && !s.If? && !s.While? && !s.Try? && !s.ForOf? && !s.Yield?
    requires Scoped(s, rt, inLoop, env.Keys) && Related(env, ctx, st, scope, yld, g)
    ensures Agrees(rt, crossing, inLoop, st, S.Exec(s, crossing, rt, env, ctx, st, fuel), act, g,
                   Exec(Lower(s, crossing, rt), scope, yld, act, g, fuel))
  {
    hide Exec, S.Exec, Lower, S.Simple, Step, Ends, Agrees, SameEnv, SameContext, Scoped;
    var a := S.Simple(s, rt, env, st);
    SimpleForms(s, crossing, rt, env, ctx, st, fuel);
    if s.Skip? {
      NopRuns(scope, yld, act, g, fuel);
      SkipAgrees(rt, crossing, inLoop, st, act, g);
    } else {
      var op := Lower(s, crossing, rt).op;
      SimpleEnds(s, crossing, rt, inLoop, env, st, scope, g);
      DoRuns(op, scope, yld, act, g, fuel);
      StoreStep(rt, crossing, inLoop, st, a, act, g, Step(op, scope, g));
    }
  }

  lemma SkipAgrees(rt: ResultType, crossing: bool, inLoop: bool, st: S.State, act: Activation, g: State)
    requires Same(st, g)
    ensures Agrees(rt, crossing, inLoop, st, S.Result(S.Normal, st), act, g, Result(Normal, act, g))
  {
  }

  // ----- composition: each case from the agreement of its parts -----

  lemma SeqAgrees(s: S.Stmt, crossing: bool, rt: ResultType, inLoop: bool, env: S.Env, ctx: S.Context, st: S.State,
                  scope: Scope, yld: YieldFunc, act: Activation, g: State, fuel: nat)
    requires s.Seq?
    requires var a := S.Exec(s.first, crossing, rt, env, ctx, st, fuel);
             var b := Exec(Lower(s.first, crossing, rt), scope, yld, act, g, fuel);
             && Agrees(rt, crossing, inLoop, st, a, act, g, b)
             && (a.c.Normal? ==> Agrees(rt, crossing, inLoop, a.st, S.Exec(s.rest, crossing, rt, env, ctx, a.st, fuel), act, b.st,
                                        Exec(Lower(s.rest, crossing, rt), scope, yld, act, b.st, fuel)))
    ensures Agrees(rt, crossing, inLoop, st, S.Exec(s, crossing, rt, env, ctx, st, fuel), act, g,
                   Exec(Lower(s, crossing, rt), scope, yld, act, g, fuel))
  {
    var a := S.Exec(s.first, crossing, rt, env, ctx, st, fuel);
    var b := Exec(Lower(s.first, crossing, rt), scope, yld, act, g, fuel);
    hide Exec;
    ThenRuns(Lower(s.first, crossing, rt), Lower(s.rest, crossing, rt), scope, yld, act, g, fuel);
    assert S.Exec(s, crossing, rt, env, ctx, st, fuel) == if a.c.Normal? then S.Exec(s.rest, crossing, rt, env, ctx, a.st, fuel) else a;
    hide S.Exec;
    if a.c.Normal? {
      Chain(rt, crossing, inLoop, st, a.st, S.Exec(s.rest, crossing, rt, env, ctx, a.st, fuel), act, g, b.st,
            Exec(Lower(s.rest, crossing, rt), scope, yld, act, b.st, fuel));
    }
  }

  lemma IfAgrees(s: S.Stmt, crossing: bool, rt: ResultType, inLoop: bool, env: S.Env, ctx: S.Context, st: S.State,
                 scope: Scope, yld: YieldFunc, act: Activation, g: State, fuel: nat)
    requires s.If? && Same(st, g)
    requires var t := s.test(st.store);
             var taken := if t.taken then s.thn else s.els;
             var st1, g1 := st.(store := t.store), g.(store := t.store);
             t.outcome.Done? ==> Agrees(rt, crossing, inLoop, st1, S.Exec(taken, crossing, rt, env, ctx, st1, fuel), act, g1,
                                        Exec(Lower(taken, crossing, rt), scope, yld, act, g1, fuel))
    ensures Agrees(rt, crossing, inLoop, st, S.Exec(s, crossing, rt, env, ctx, st, fuel), act, g,
                   Exec(Lower(s, crossing, rt), scope, yld, act, g, fuel))
  {
    var t := s.test(st.store);
    var taken := if t.taken then s.thn else s.els;
    var st1, g1 := st.(store := t.store), g.(store := t.store);
    hide Exec;
    BranchRuns(s.test, Lower(s.thn, crossing, rt), Lower(s.els, crossing, rt), scope, yld, act, g, fuel);
    assert S.Exec(s, crossing, rt, env, ctx, st, fuel)
        == if t.outcome.Done? then S.Exec(taken, crossing, rt, env, ctx, st1, fuel) else S.Result(S.After(t.outcome), st1);
    hide S.Exec;
    if t.outcome.Done? {
      hide Agrees;
      Chain(rt, crossing, inLoop, st, st1, S.Exec(taken, crossing, rt, env, ctx, st1, fuel), act, g, g1,
            Exec(Lower(taken, crossing, rt), scope, yld, act, g1, fuel));
    } else {
      StoreStep(rt, crossing, inLoop, st, S.Result(S.After(t.outcome), st1), act, g, Stepped(After(t.outcome), g1));
    }
  }

  lemma ChosenScoped(cs: S.Catches, err: Value, rt: ResultType, caught: set<nat>)
    requires ScopedCatches(cs, rt, caught)
    ensures S.Choose(cs, err).Chosen? ==> Scoped(S.Choose(cs, err).body, rt, false, caught)
  {
    if cs.MoreCatch? { ChosenScoped(cs.others, err, rt, caught); }
  }

  /** The parts of a lowered try. */
  function ProtectedBody(s: S.Stmt, rt: ResultType): Code
    requires s.Try?
  {
    if s.catches.NoCatch? then Lower(s.body, true, rt)
    else CatchingBody(s.offset, Lower(s.body, true, rt), LowerCatches(s.offset, s.catches, rt))
  }

  function TryCall(s: S.Stmt, rt: ResultType): Code
    requires s.Try?
  {
    Call(if s.fin.None? then ProtectedBody(s, rt) else Then(Defer(Lower(s.fin.value, true, rt)), ProtectedBody(s, rt)))
  }

  function HandledTry(s: S.Stmt, crossing: bool, rt: ResultType): Code
    requires s.Try?
  {
    if crossing then TryCall(s, rt) else ReturnBoundary(s.offset, rt, TryCall(s, rt))
  }

  /** Body and clauses, when nothing in the body was thrown to a clause. */
  lemma CatchingPasses(s: S.Stmt, rt: ResultType, env: S.Env, ctx: S.Context, st: S.State,
                       scope: Scope, yld: YieldFunc, act: Activation, g: State, fuel: nat)
    requires s.Try? && s.catches.MoreCatch?
    requires var k, sc, gt := s.offset, TryScope(s.offset, scope, g), TryState(g);
             var a := S.Exec(s.body, true, rt, env, ctx, st, fuel);
             var b := Exec(Lower(s.body, true, rt), sc, yld, Guard(Recovered(k), sc), gt, fuel);
             Agrees(rt, true, false, st, a, Guard(Recovered(k), sc), gt, b) && !(a.c.Raising? && a.c.p.Thrown?)
    ensures Agrees(rt, true, false, st, S.Guarded(s, rt, env, ctx, st, fuel), act, g,
                   Exec(ProtectedBody(s, rt), scope, yld, act, g, fuel))
  {
    hide Exec;
    var k := s.offset;
    var q := CatchingRuns(k, Lower(s.body, true, rt), s.catches, rt, scope, yld, act, g, fuel);
  }

  /** Body and clauses, when the body threw: the state in which the clauses are tried. */
  lemma CatchingDispatches(s: S.Stmt, rt: ResultType, env: S.Env, ctx: S.Context, st: S.State,
                           scope: Scope, yld: YieldFunc, act: Activation, g: State, fuel: nat) returns (q: State)
    requires s.Try? && s.catches.MoreCatch?
    requires var k, sc, gt := s.offset, TryScope(s.offset, scope, g), TryState(g);
             var a := S.Exec(s.body, true, rt, env, ctx, st, fuel);
             var b := Exec(Lower(s.body, true, rt), sc, yld, Guard(Recovered(k), sc), gt, fuel);
             Agrees(rt, true, false, st, a, Guard(Recovered(k), sc), gt, b) && a.c.Raising? && a.c.p.Thrown?
    ensures CaughtIn(s.offset, S.Exec(s.body, true, rt, env, ctx, st, fuel), st, g, q)
    ensures Exec(ProtectedBody(s, rt), scope, yld, act, g, fuel) ==
            Exec(Dispatch(s.offset, LowerCatches(s.offset, s.catches, rt)), CatchingScope(s.offset, scope, g), yld, act, q, fuel)
  {
    hide Exec, S.Exec, Lower, LowerCatches, LoopSame, LoopStays;
    q := CatchingRuns(s.offset, Lower(s.body, true, rt), s.catches, rt, scope, yld, act, g, fuel);
  }

  /** The state after a body that threw: its exception and error are held in the try's cells. */
  predicate CaughtIn(k: nat, a: S.Result, st: S.State, g: State, q: State) {
    && a.c.Raising? && a.c.p.Thrown? && Keeps(g.cells, q.cells) && |g.cells| + 2 < |q.cells| && Same(a.st, q) && Grows(st, a.st)
    && q.cells[|g.cells| + 1] == Data(a.c.p.err) && q.cells[|g.cells| + 2] == Held(Some(PRaised(a.c.p)))
  }

  /** A clause starts with the exception bound under the try's offset. */
  lemma ClauseStarts(k: nat, a: S.Result, env: S.Env, ctx: S.Context, st: S.State, scope: Scope, yld: YieldFunc, g: State, q: State)
    requires k !in env && Related(env, ctx, st, scope, yld, g) && CaughtIn(k, a, st, g, q)
    ensures var (sc, h) := DispatchEntry(k, CatchingScope(k, scope, g), q);
            Dispatching(k, a.c.p.err, sc, h) && Related(env[k := a.c.p], ctx, a.st, sc, yld, q)
  {
    EnvStays(env, scope, g.cells, q.cells);
    ContextStays(ctx, yld, st, a.st, g.cells, q.cells);
  }

  /** Body and clauses, once the chosen clause (if any) is known to agree. */
  lemma ClauseAgrees(s: S.Stmt, rt: ResultType, env: S.Env, ctx: S.Context, st: S.State, a: S.Result,
                     scope: Scope, yld: YieldFunc, act: Activation, g: State, fuel: nat, q: State)
    requires s.Try? && s.catches.MoreCatch? && a == S.Exec(s.body, true, rt, env, ctx, st, fuel) && CaughtIn(s.offset, a, st, g, q)
    requires Exec(ProtectedBody(s, rt), scope, yld, act, g, fuel) ==
             Exec(Dispatch(s.offset, LowerCatches(s.offset, s.catches, rt)), CatchingScope(s.offset, scope, g), yld, act, q, fuel)
    requires var (sc, h) := DispatchEntry(s.offset, CatchingScope(s.offset, scope, g), q);
             var ch := S.Choose(s.catches, a.c.p.err);
             ch.Chosen? ==>
             var h1 := HandlerEntry(s.offset, ch.bind, ch.value, sc, h);
             var st1 := a.st.(store := ch.bind(ch.value, a.st.store));
             Agrees(rt, true, false, st1, S.Exec(ch.body, true, rt, env[s.offset := a.c.p], ctx, st1, fuel), act, h1,
                    Exec(Lower(ch.body, true, rt), sc, yld, act, h1, fuel))
    ensures Agrees(rt, true, false, st, S.Guarded(s, rt, env, ctx, st, fuel), act, g,
                   Exec(ProtectedBody(s, rt), scope, yld, act, g, fuel))
  {
    hide Exec, S.Exec, Lower, LowerCatches, LoopSame, LoopStays, S.Choose;
    var k := s.offset;
    var (sc, h) := DispatchEntry(k, CatchingScope(k, scope, g), q);
    var ch := S.Choose(s.catches, a.c.p.err);
    if ch.Chosen? {
      HandlerKeeps(k, ch.bind, ch.value, sc, q, h);
      var st1 := a.st.(store := ch.bind(ch.value, a.st.store));
      var b := Exec(Lower(ch.body, true, rt), sc, yld, act, HandlerEntry(k, ch.bind, ch.value, sc, h), fuel);
      Chain(rt, true, false, st, st1, S.Exec(ch.body, true, rt, env[k := a.c.p], ctx, st1, fuel), act, g, HandlerEntry(k, ch.bind, ch.value, sc, h), b);
    }
    DispatchRuns(k, s.catches, rt, a.c.p.err, PRaised(a.c.p), CatchingScope(k, scope, g), yld, act, q, fuel);
  }

  /** Entering a handler keeps all cells, and marks the exception as handled. */
  lemma HandlerKeeps(k: nat, bind: (Value, Store) -> Store, v: Value, sc: Scope, q: State, h: State)
    requires Handled(k) in sc && sc[Handled(k)] == |q.cells| && h == q.(cells := q.cells + [Flag(false)])
    ensures var h1 := HandlerEntry(k, bind, v, sc, h);
            && Keeps(q.cells, h1.cells) && h1.store == bind(v, q.store) && h1.ranges == q.ranges && h1.frames == q.frames
            && Holds(sc, Handled(k), h1, Flag(true))
  {
  }

  /** Adding the finally. */
  lemma FinallyAgrees(s: S.Stmt, rt: ResultType, env: S.Env, ctx: S.Context, st: S.State,
                      scope: Scope, yld: YieldFunc, act: Activation, g: State, fuel: nat)
    requires s.Try? && s.fin.Some?
    requires var own := Activation(Push(Lower(s.fin.value, true, rt), scope, Bottom), None);
             var r := S.Guarded(s, rt, env, ctx, st, fuel);
             var b := Exec(ProtectedBody(s, rt), scope, yld, own, g, fuel);
             && Agrees(rt, true, false, st, r, own, g, b)
             && Agrees(rt, true, false, r.st, S.Exec(s.fin.value, true, rt, env, ctx, r.st, fuel), Activation(Bottom, PanicOf(b.c)), b.st,
                       Exec(Lower(s.fin.value, true, rt), scope, yld, Activation(Bottom, PanicOf(b.c)), b.st, fuel))
    ensures Agrees(rt, true, false, st, S.Exec(s, true, rt, env, ctx, st, fuel), act, g,
                   Exec(TryCall(s, rt), scope, yld, act, g, fuel))
  {
    hide Exec;
    FinallyRuns(Lower(s.fin.value, true, rt), ProtectedBody(s, rt), scope, yld, act, g, fuel);
  }

  lemma NoFinallyAgrees(s: S.Stmt, rt: ResultType, env: S.Env, ctx: S.Context, st: S.State,
                        scope: Scope, yld: YieldFunc, act: Activation, g: State, fuel: nat)
    requires s.Try? && s.fin.None?
    requires Agrees(rt, true, false, st, S.Guarded(s, rt, env, ctx, st, fuel), Activation(Bottom, None), g,
                    Exec(ProtectedBody(s, rt), scope, yld, Activation(Bottom, None), g, fuel))
    ensures Agrees(rt, true, false, st, S.Exec(s, true, rt, env, ctx, st, fuel), act, g,
                   Exec(TryCall(s, rt), scope, yld, act, g, fuel))
  {
    hide Exec;
    PlainCallRuns(ProtectedBody(s, rt), scope, yld, act, g, fuel);
  }

  /** Adding the return boundary of an outermost try. */
  lemma OutermostAgrees(s: S.Stmt, rt: ResultType, env: S.Env, ctx: S.Context, st: S.State,
                        scope: Scope, yld: YieldFunc, act: Activation, g: State, fuel: nat)
    requires s.Try?
    requires var sc, gt := OutermostScope(s.offset, scope, g), OutermostState(g);
             Agrees(rt, true, false, st, S.Exec(s, true, rt, env, ctx, st, fuel), Guard(ReturnRecovered(s.offset), sc), gt,
                    Exec(TryCall(s, rt), sc, yld, Guard(ReturnRecovered(s.offset), sc), gt, fuel))
    ensures Agrees(rt, false, false, st, S.Exec(s, false, rt, env, ctx, st, fuel), act, g,
                   Exec(ReturnBoundary(s.offset, rt, TryCall(s, rt)), scope, yld, act, g, fuel))
  {
    hide Exec;
    BoundaryRuns(s.offset, rt, TryCall(s, rt), scope, yld, act, g, fuel);
    var a := S.Exec(s, true, rt, env, ctx, st, fuel);
    assert S.Exec(s, false, rt, env, ctx, st, fuel) == S.Result(S.Absorb(a.c), a.st);
  }

  /** The panic after a terminal try is never reached. */
  lemma TerminalAgrees(s: S.Stmt, crossing: bool, rt: ResultType, inLoop: bool, env: S.Env, ctx: S.Context, st: S.State,
                       scope: Scope, yld: YieldFunc, act: Activation, g: State, fuel: nat)
    requires s.Try?
    requires Agrees(rt, crossing, false, st, S.Exec(s, crossing, rt, env, ctx, st, fuel), act, g,
                    Exec(HandledTry(s, crossing, rt), scope, yld, act, g, fuel))
    requires Stops(s) ==> !S.Exec(s, crossing, rt, env, ctx, st, fuel).c.Normal?
    ensures Agrees(rt, crossing, inLoop, st, S.Exec(s, crossing, rt, env, ctx, st, fuel), act, g,
                   Exec(Lower(s, crossing, rt), scope, yld, act, g, fuel))
  {
    hide Exec;
    ThenRuns(HandledTry(s, crossing, rt), Do(PanicWith(Unreachable)), scope, yld, act, g, fuel);
  }

  // ----- loops -----

  /** A body that ran one iteration, and the rest of the loop after it. */
  lemma WhileAgrees(s: S.Stmt, crossing: bool, rt: ResultType, inLoop: bool, env: S.Env, ctx: S.Context, st: S.State,
                    scope: Scope, yld: YieldFunc, act: Activation, g: State, fuel: nat)
    requires s.While? && Same(st, g)
    requires var t := s.test(st.store);
             var st1, g1 := st.(store := t.store), g.(store := t.store);
             fuel > 0 && t.outcome.Done? && t.taken ==>
             var a := S.Exec(s.body, crossing, rt, env, ctx, st1, fuel - 1);
             var b := Exec(Lower(s.body, crossing, rt), scope, yld, act, g1, fuel - 1);
             && Agrees(rt, crossing, true, st1, a, act, g1, b)
             && (a.c.Normal? || a.c.Continuing? ==>
                 Agrees(rt, crossing, inLoop, a.st, S.Exec(s, crossing, rt, env, ctx, a.st, fuel - 1), act, b.st,
                        Exec(Lower(s, crossing, rt), scope, yld, act, b.st, fuel - 1)))
    ensures Agrees(rt, crossing, inLoop, st, S.Exec(s, crossing, rt, env, ctx, st, fuel), act, g,
                   Exec(Lower(s, crossing, rt), scope, yld, act, g, fuel))
  {
    hide Exec;
    LoopRuns(s.test, Lower(s.body, crossing, rt), scope, yld, act, g, fuel);
    WhileUnfolds(s, crossing, rt, env, ctx, st, fuel);
    hide S.Exec;
    var t := s.test(st.store);
    var st1, g1 := st.(store := t.store), g.(store := t.store);
    if fuel > 0 && t.outcome.Done? && t.taken {
      var a := S.Exec(s.body, crossing, rt, env, ctx, st1, fuel - 1);
      var b := Exec(Lower(s.body, crossing, rt), scope, yld, act, g1, fuel - 1);
      if a.c.Normal? || a.c.Continuing? {
        Chain(rt, crossing, inLoop, st, a.st, S.Exec(s, crossing, rt, env, ctx, a.st, fuel - 1), act, g, b.st,
              Exec(Lower(s, crossing, rt), scope, yld, act, b.st, fuel - 1));
      }
    } else if fuel > 0 {
      StoreStep(rt, crossing, inLoop, st, S.Result(S.After(t.outcome), st1), act, g, Stepped(After(t.outcome), g1));
    }
  }

  lemma WhileUnfolds(s: S.Stmt, crossing: bool, rt: ResultType, env: S.Env, ctx: S.Context, st: S.State, fuel: nat)
    requires s.While?
    ensures var t := s.test(st.store);
            var st1 := st.(store := t.store);
            S.Exec(s, crossing, rt, env, ctx, st, fuel) ==
            if fuel == 0 then S.Result(S.OutOfFuel, st)
            else if !t.outcome.Done? then S.Result(S.After(t.outcome), st1)
            else if !t.taken then S.Result(S.Normal, st1)
            else
              var r := S.Exec(s.body, crossing, rt, env, ctx, st1, fuel - 1);
              if r.c.Normal? || r.c.Continuing? then S.Exec(s, crossing, rt, env, ctx, r.st, fuel - 1)
              else if r.c.Breaking? then S.Result(S.Normal, r.st)
              else r
  {
    if fuel > 0 { assert S.Exec(s, crossing, rt, env, ctx, st, fuel) == S.Iterate(s, crossing, rt, env, ctx, st, fuel); }
  }

  // ----- iterator loops -----

  function LoopContext(s: S.Stmt, crossing: bool, rt: ResultType, env: S.Env, ctx: S.Context, st: S.State): S.Context
    requires s.ForOf?
  {
    S.InLoop(|st.loops|, s.bind, s.body, crossing, rt, env, ctx)
  }

  function LoopState(crossing: bool, rt: ResultType, st: S.State): S.State {
    st.(loops := st.loops + [S.Loop(S.Ready, None, None, crossing, rt)])
  }

  /** The iterator starts in corresponding contexts and states. */
  lemma LoopStarts(s: S.Stmt, crossing: bool, rt: ResultType, inLoop: bool, env: S.Env, ctx: S.Context, st: S.State,
                   scope: Scope, yld: YieldFunc, g: State)
    requires s.ForOf? && Scoped(s, rt, inLoop, env.Keys) && Related(env, ctx, st, scope, yld, g)
    ensures Related(map[], LoopContext(s, crossing, rt, env, ctx, st), LoopState(crossing, rt, st), map[],
                  LoopYield(s.bind, Lower(s.body, crossing, rt), scope, yld, g), SourceState(g))
    ensures Grows(st, LoopState(crossing, rt, st)) && Keeps(g.cells, SourceState(g).cells)
  {
    hide Lower, FrameInvoke, ScopedCatches;
    LoopStateStarts(crossing, rt, st, g);
    ContextStays(ctx, yld, st, LoopState(crossing, rt, st), g.cells, SourceState(g).cells);
    EnvStays(env, scope, g.cells, SourceState(g).cells);
  }

  lemma LoopStateStarts(crossing: bool, rt: ResultType, st: S.State, g: State)
    requires Same(st, g)
    ensures Same(LoopState(crossing, rt, st), SourceState(g)) && Grows(st, LoopState(crossing, rt, st)) && Keeps(g.cells, SourceState(g).cells)
  {
  }

  /** The loop ends with what its body signalled, unless the iterator raised something of its own. */
  lemma LoopEnds(rt: ResultType, crossing: bool, id: nat, a: S.Result, c: Completion, h: State)
    requires Same(a.st, h) && id < |a.st.loops| && Ends(Void, false, a.c, c) && !a.c.Breaking? && !a.c.Continuing?
    requires a.st.loops[id].rt == rt && a.st.loops[id].crossing == crossing
    requires a.c.Unwinding? ==> a.c.loop < |a.st.loops| && a.st.loops[a.c.loop].pending.Some?
    ensures var q := S.AfterLoop(id, a);
            && Ends(rt, crossing, q.c, RangeEnd(id, RunEnd(id, c, h), h))
            && (q.c.Unwinding? ==> q.c.loop < |q.st.loops| && q.st.loops[q.c.loop].pending.Some?)
            && !q.c.Breaking? && !q.c.Continuing? && (q.c.Exiting? ==> q.c.pending.Normal?)
  {
    var l := a.st.loops[id];
    assert LoopSame(l, h.ranges[id], h.frames[id]);
    if l.pending.Some? { assert Raise(h.frames[id]) == Panicking(h.frames[id].value); }
  }

  lemma LoopAgrees(rt: ResultType, crossing: bool, inLoop: bool, st: S.State, a: S.Result, act: Activation,
                   g: State, b: Result, q: Result)
    requires Same(st, g) && Grows(LoopState(crossing, rt, st), a.st) && Same(a.st, b.st)
    requires Tame(act, g, q) && SameWorld(q.st, b.st)
    requires var r := S.AfterLoop(|st.loops|, a);
             && Ends(rt, crossing, r.c, q.c)
             && (r.c.Unwinding? ==> r.c.loop < |r.st.loops| && r.st.loops[r.c.loop].pending.Some?)
             && !r.c.Breaking? && !r.c.Continuing? && (r.c.Exiting? ==> r.c.pending.Normal?)
    ensures Agrees(rt, crossing, inLoop, st, S.AfterLoop(|st.loops|, a), act, g, q)
  {
    forall i | 0 <= i < |st.loops| ensures LoopStays(st.loops[i], a.st.loops[i]) {
      assert LoopStays(LoopState(crossing, rt, st).loops[i], a.st.loops[i]);
    }
  }

  lemma ForOfAgrees(s: S.Stmt, crossing: bool, rt: ResultType, inLoop: bool, env: S.Env, ctx: S.Context, st: S.State,
                    scope: Scope, yld: YieldFunc, act: Activation, g: State, fuel: nat)
    requires s.ForOf? && Scoped(s, rt, inLoop, env.Keys) && Related(env, ctx, st, scope, yld, g)
    requires Agrees(Void, false, false, LoopState(crossing, rt, st),
                    S.Exec(s.iter, false, Void, map[], LoopContext(s, crossing, rt, env, ctx, st), LoopState(crossing, rt, st), fuel),
                    Activation(Bottom, None), SourceState(g),
                    Exec(Lower(s.iter, false, Void), map[], LoopYield(s.bind, Lower(s.body, crossing, rt), scope, yld, g),
                         Activation(Bottom, None), SourceState(g), fuel))
    ensures Agrees(rt, crossing, inLoop, st, S.Exec(s, crossing, rt, env, ctx, st, fuel), act, g,
                   Exec(Lower(s, crossing, rt), scope, yld, act, g, fuel))
  {
    hide Exec;
    var id := |st.loops|;
    var st0 := LoopState(crossing, rt, st);
    var a := S.Exec(s.iter, false, Void, map[], LoopContext(s, crossing, rt, env, ctx, st), st0, fuel);
    assert S.Exec(s, crossing, rt, env, ctx, st, fuel) == S.AfterLoop(id, a);
    assert Lower(s, crossing, rt) == RangeFunc(Adapter(Lower(s.iter, false, Void)), s.bind, Lower(s.body, crossing, rt));
    hide S.Exec, Lower, SameEnv, SameContext, Scoped, RunEnd, RangeEnd, S.AfterLoop, LoopYield;
    var b := Exec(Lower(s.iter, false, Void), map[], LoopYield(s.bind, Lower(s.body, crossing, rt), scope, yld, g),
                  Activation(Bottom, None), SourceState(g), fuel);
    assert LoopStays(st0.loops[id], a.st.loops[id]);
    RangeRuns(Lower(s.iter, false, Void), s.bind, Lower(s.body, crossing, rt), scope, yld, act, g, fuel);
    LoopEnds(rt, crossing, id, a, b.c, b.st);
    LoopAgrees(rt, crossing, inLoop, st, a, act, g, b, Exec(Lower(s, crossing, rt), scope, yld, act, g, fuel));
  }

  // ----- yields -----

  function BusyState(id: nat, bind: (Value, Store) -> Store, v: Value, st: S.State): S.State
    requires id < |st.loops|
  {
    S.State(bind(v, st.store), st.loops[id := st.loops[id].(phase := S.Busy)])
  }

  function BusyRange(id: nat, bind: (Value, Store) -> Store, v: Value, g: State): State
    requires id < |g.ranges|
  {
    g.(store := bind(v, g.store), ranges := g.ranges[id := Range(GoMachine.Busy, g.ranges[id].exit)])
  }

  /** Whether the source and the machine refuse the yield for the same reason. */
  predicate Open(id: nat, st: S.State) {
    id < |st.loops| && st.loops[id].phase.Ready?
  }

  lemma BodyStarts(ctx: S.Context, yld: YieldFunc, v: Value, st: S.State, g: State)
    requires ctx.InLoop? && Same(st, g) && SameContext(ctx, yld, st.loops, g.cells) && Open(ctx.id, st)
    ensures Related(ctx.env, ctx.outer, BusyState(ctx.id, ctx.bind, v, st), yld.outer.scope, yld.outer.outer, BusyRange(ctx.id, ctx.bind, v, g))
    ensures Grows(st, BusyState(ctx.id, ctx.bind, v, st))
  {
    ContextStays(ctx.outer, yld.outer.outer, st, BusyState(ctx.id, ctx.bind, v, st), g.cells, g.cells);
  }

  /** What the wrapped yield gives back, against what the source yield does. */
  ghost predicate Answers(r: S.Result, put: (bool, Store) -> Store, g: State, z: Called) {
    && Keeps(g.cells, z.st.cells)
    && if r.c.Normal? then
         exists more: bool :: r.st.store == put(more, z.st.store) && z.c == Returning([Num(if more then 1 else 0)])
           && Same(r.st.(store := z.st.store), z.st)
       else !z.c.Returning? && Ends(Void, false, r.c, z.c) && Same(r.st, z.st)
  }

  /** The native body of the range, then invoke. */
  lemma InvokeAnswers(ctx: S.Context, put: (bool, Store) -> Store, r: S.Result, act: Activation, g: State, busy: State, b: Result, z: Called)
    requires ctx.InLoop? && ctx.id < |r.st.loops|
    requires r.st.loops[ctx.id].rt == ctx.rt && r.st.loops[ctx.id].crossing == ctx.crossing
    requires Ends(ctx.rt, ctx.crossing, r.c, b.c) && Same(r.st, b.st) && Keeps(g.cells, b.st.cells)
    requires var y := RangeAnswer(ctx.id, b.c, b.st);
             && Keeps(g.cells, z.st.cells) && z.c == InvokeEnd(ctx.id, y.c)
             && z.st.store == y.st.store && z.st.ranges == y.st.ranges
             && z.st.frames == InvokeFrames(ctx.id, y.c, y.st.frames)
    ensures Answers(S.AfterBody(ctx.id, ctx.crossing, put, r), put, g, z)
  {
    assert LoopSame(r.st.loops[ctx.id], b.st.ranges[ctx.id], b.st.frames[ctx.id]);
    var q := S.AfterBody(ctx.id, ctx.crossing, put, r);
    if q.c.Normal? {
      var more := r.c.Normal? || r.c.Continuing?;
      assert q.st.store == put(more, z.st.store);
    }
  }

  /** The state in which the native loop body is asked for, inside the adapter's yield. */
  function InsideInvoke(v: Value, g: State): State {
    InvokeState(g.(cells := g.cells + [Data(v)]))
  }

  /** The loop body agrees with its Go form, for the iteration that this yield starts, if it does. */
  ghost predicate BodyAgrees(ctx: S.Context, yld: YieldFunc, v: Value, st: S.State, g: State, fuel: nat)
    requires ctx.InLoop?
  {
    && Same(st, g) && yld.Literal? && yld.outer.RangeBody?
    && (Open(ctx.id, st) ==>
          var busy, gb := BusyState(ctx.id, ctx.bind, v, st), BusyRange(ctx.id, ctx.bind, v, InsideInvoke(v, g));
          Agrees(ctx.rt, ctx.crossing, true, busy, S.Exec(ctx.body, ctx.crossing, ctx.rt, ctx.env, ctx.outer, busy, fuel),
                 Activation(Bottom, None), gb,
                 Exec(Lower(ctx.body, ctx.crossing, ctx.rt), yld.outer.scope, yld.outer.outer, Activation(Bottom, None), gb, fuel)))
  }

  lemma WrappedYield(ctx: S.Context, yld: YieldFunc, put: (bool, Store) -> Store, v: Value, st: S.State, g: State, fuel: nat)
    requires ctx.InLoop? && SameContext(ctx, yld, st.loops, g.cells) && BodyAgrees(ctx, yld, v, st, g, fuel)
    ensures var q := if Open(ctx.id, st)
                     then S.AfterBody(ctx.id, ctx.crossing, put,
                            S.Exec(ctx.body, ctx.crossing, ctx.rt, ctx.env, ctx.outer, BusyState(ctx.id, ctx.bind, v, st), fuel))
                     else S.Result(S.Raising(ContinuedIteration), st);
            Answers(q, put, g, Yield(yld, v, g, fuel))
  {
    hide Exec, Yield, S.Exec, Answers;
    if Open(ctx.id, st) { OpenYield(ctx, yld, put, v, st, g, fuel); } else { ClosedYield(ctx, yld, put, v, st, g, fuel); }
  }

  lemma OpenYield(ctx: S.Context, yld: YieldFunc, put: (bool, Store) -> Store, v: Value, st: S.State, g: State, fuel: nat)
    requires ctx.InLoop? && SameContext(ctx, yld, st.loops, g.cells) && BodyAgrees(ctx, yld, v, st, g, fuel) && Open(ctx.id, st)
    ensures Answers(S.AfterBody(ctx.id, ctx.crossing, put,
                      S.Exec(ctx.body, ctx.crossing, ctx.rt, ctx.env, ctx.outer, BusyState(ctx.id, ctx.bind, v, st), fuel)),
                    put, g, Yield(yld, v, g, fuel))
  {
    hide Exec, Yield, S.Exec, SameEnv, Lower, Answers, S.AfterBody;
    var id := ctx.id;
    var g1, g2 := g.(cells := g.cells + [Data(v)]), InsideInvoke(v, g);
    var scope := yld.scope[InvokeArgument := |g.cells|];
    RangeYieldRuns(v, id, ctx.bind, yld.outer.body, yld.outer.scope, yld.outer.outer, g2, fuel);
    assert LoopSame(st.loops[id], g.ranges[id], g.frames[id]);
    var busy := BusyState(id, ctx.bind, v, st);
    var r := S.Exec(ctx.body, ctx.crossing, ctx.rt, ctx.env, ctx.outer, busy, fuel);
    var b := Exec(yld.outer.body, yld.outer.scope, yld.outer.outer, Activation(Bottom, None), BusyRange(id, ctx.bind, v, g2), fuel);
    assert LoopStays(busy.loops[id], r.st.loops[id]);
    FrameInvokeRuns(v, id, scope, yld.outer, g1, fuel);
    LiteralYieldRuns(v, yld.scope, yld.outer, g, fuel);
    InvokeAnswers(ctx, put, r, Activation(Bottom, None), g, BusyRange(id, ctx.bind, v, g2), b, Yield(yld, v, g, fuel));
  }

  lemma ClosedYield(ctx: S.Context, yld: YieldFunc, put: (bool, Store) -> Store, v: Value, st: S.State, g: State, fuel: nat)
    requires ctx.InLoop? && SameContext(ctx, yld, st.loops, g.cells) && Same(st, g) && !Open(ctx.id, st)
    ensures Answers(S.Result(S.Raising(ContinuedIteration), st), put, g, Yield(yld, v, g, fuel))
  {
    hide Exec, Yield, SameEnv, Lower;
    var g1 := g.(cells := g.cells + [Data(v)]);
    RangeYieldRuns(v, ctx.id, ctx.bind, yld.outer.body, yld.outer.scope, yld.outer.outer, InsideInvoke(v, g), fuel);
    assert LoopSame(st.loops[ctx.id], g.ranges[ctx.id], g.frames[ctx.id]);
    FrameInvokeRuns(v, ctx.id, yld.scope[InvokeArgument := |g.cells|], yld.outer, g1, fuel);
    LiteralYieldRuns(v, yld.scope, yld.outer, g, fuel);
  }

  lemma EvaluatedYieldRuns(eval: Store -> Evaluated, put: (bool, Store) -> Store, scope: Scope, yld: YieldFunc, act: Activation, g: State, fuel: nat)
    requires eval(g.store).outcome.Done? ==> |eval(g.store).values| == 1
    ensures var e := eval(g.store);
            var g1 := g.(store := e.store, cells := g.cells + [Flag(false)]);
            var sc := scope[YieldResult := |g.cells|];
            var q := Exec(Var(YieldResult, Flag(false), Then(CallYield(Evaluate(eval), YieldResult), Do(StoreFlag(put, YieldResult)))), scope, yld, act, g, fuel);
            if !e.outcome.Done? then q == Result(After(e.outcome), act, g1)
            else
              var z := Yield(yld, e.values[0], g1, fuel);
              if !z.c.Returning? then q == Result(z.c, act, z.st) || z.c.Normal?
              else |g.cells| < |z.st.cells| ==>
                q == Result(Normal, act, z.st.(cells := z.st.cells[|g.cells| := Flag(z.c.results == [Num(1)])],
                                               store := put(z.c.results == [Num(1)], z.st.store)))
  {
    hide Exec, Yield;
    var sc := scope[YieldResult := |g.cells|];
    var g0 := g.(cells := g.cells + [Flag(false)]);
    var call := CallYield(Evaluate(eval), YieldResult);
    var keep := StoreFlag(put, YieldResult);
    VarRuns(YieldResult, Flag(false), Then(call, Do(keep)), scope, yld, act, g, fuel);
    ThenRuns(call, Do(keep), sc, yld, act, g0, fuel);
    CallYieldUnfolds(eval, sc, yld, act, g0, fuel);
    var r := Exec(call, sc, yld, act, g0, fuel);
    DoRuns(keep, sc, yld, r.act, r.st, fuel);
  }

  lemma CallYieldUnfolds(eval: Store -> Evaluated, scope: Scope, yld: YieldFunc, act: Activation, g: State, fuel: nat)
    ensures var e := eval(g.store);
            var g1 := g.(store := e.store);
            Exec(CallYield(Evaluate(eval), YieldResult), scope, yld, act, g, fuel) ==
            if !e.outcome.Done? || |e.values| != 1 then Result(After(e.outcome), act, g1)
            else
              var z := Yield(yld, e.values[0], g1, fuel);
              Result(AfterCall(z.c), act, if z.c.Returning? then Write(scope, YieldResult, Flag(z.c.results == [Num(1)]), z.st) else z.st)
  {
    assert Exec(CallYield(Evaluate(eval), YieldResult), scope, yld, act, g, fuel).st
        == Calling(CallYield(Evaluate(eval), YieldResult), scope, yld, g, fuel).st;
  }

  /** The value and machine state with which a yield statement reaches its yield function. */
  function YieldEntry(e: Evaluated, g: State): State {
    g.(store := e.store, cells := g.cells + [Flag(false)])
  }

  lemma YieldUnfolds(s: S.Stmt, crossing: bool, rt: ResultType, env: S.Env, ctx: S.Context, st: S.State, fuel: nat)
    requires s.Yield?
    ensures var e := s.eval(st.store);
            var st1 := st.(store := e.store);
            S.Exec(s, crossing, rt, env, ctx, st, fuel) ==
            if !e.outcome.Done? || |e.values| != 1 then S.Result(S.After(e.outcome), st1)
            else if ctx.NoLoop? then S.Result(S.Raising(NilCall), st1)
            else if !Open(ctx.id, st1) then S.Result(S.Raising(ContinuedIteration), st1)
            else S.AfterBody(ctx.id, ctx.crossing, s.put,
                   S.Exec(ctx.body, ctx.crossing, ctx.rt, ctx.env, ctx.outer, BusyState(ctx.id, ctx.bind, e.values[0], st1), fuel))
  {
  }

  lemma YieldAgrees(s: S.Stmt, crossing: bool, rt: ResultType, inLoop: bool, env: S.Env, ctx: S.Context, st: S.State,
                    scope: Scope, yld: YieldFunc, act: Activation, g: State, fuel: nat)
    requires s.Yield? && Scoped(s, rt, inLoop, env.Keys) && Related(env, ctx, st, scope, yld, g)
    requires var e := s.eval(st.store);
             e.outcome.Done? && |e.values| == 1 && ctx.InLoop? ==>
             BodyAgrees(ctx, yld, e.values[0], st.(store := e.store), YieldEntry(e, g), fuel)
    ensures Agrees(rt, crossing, inLoop, st, S.Exec(s, crossing, rt, env, ctx, st, fuel), act, g,
                   Exec(Lower(s, crossing, rt), scope, yld, act, g, fuel))
  {
    hide Exec, Yield, S.Exec, BusyState, BodyAgrees, Agrees, Answers;
    var e := s.eval(st.store);
    var st1, g1 := st.(store := e.store), YieldEntry(e, g);
    YieldUnfolds(s, crossing, rt, env, ctx, st, fuel);
    EvaluatedYieldRuns(s.eval, s.put, scope, yld, act, g, fuel);
    if !e.outcome.Done? {
      EarlyAgrees(rt, crossing, inLoop, st, e.store, S.After(e.outcome), act, g, After(e.outcome));
    } else if ctx.NoLoop? {
      NoYieldRuns(e.values[0], g1, fuel);
      EarlyAgrees(rt, crossing, inLoop, st, e.store, S.Raising(NilCall), act, g, Panicking(PRaised(NilCall)));
    } else {
      var a := S.Exec(s, crossing, rt, env, ctx, st, fuel);
      var b := Exec(Lower(s, crossing, rt), scope, yld, act, g, fuel);
      ContextStays(ctx, yld, st, st1, g.cells, g1.cells);
      hide SameEnv, LoopSame;
      WrappedYield(ctx, yld, s.put, e.values[0], st1, g1, fuel);
      YieldLeaves(s, ctx, st1, e.values[0], a, yld, g1, fuel);
      hide SameContext, SameEnv, S.AfterBody, Lower;
      AnswerAgrees(rt, crossing, inLoop, st, a, s.put, act, g, g1, Yield(yld, e.values[0], g1, fuel), b);
    }
  }

  /** What the source's yield leaves, once it has reached its loop. */
  lemma YieldLeaves(s: S.Stmt, ctx: S.Context, st: S.State, v: Value, a: S.Result, yld: YieldFunc, g: State, fuel: nat)
    requires s.Yield? && ctx.InLoop? && BodyAgrees(ctx, yld, v, st, g, fuel)
    requires a == if !Open(ctx.id, st) then S.Result(S.Raising(ContinuedIteration), st)
                  else S.AfterBody(ctx.id, ctx.crossing, s.put,
                         S.Exec(ctx.body, ctx.crossing, ctx.rt, ctx.env, ctx.outer, BusyState(ctx.id, ctx.bind, v, st), fuel))
    ensures Grows(st, a.st) && (a.c.Unwinding? ==> a.c.loop < |a.st.loops| && a.st.loops[a.c.loop].pending.Some?)
    ensures !a.c.Breaking? && !a.c.Continuing? && !a.c.Returning? && (a.c.Exiting? ==> a.c.pending.Normal?)
  {
    hide Exec, S.Exec, S.AfterBody;
    if Open(ctx.id, st) {
      var busy := BusyState(ctx.id, ctx.bind, v, st);
      BodyLeaves(ctx.id, ctx.crossing, s.put, st, busy, S.Exec(ctx.body, ctx.crossing, ctx.rt, ctx.env, ctx.outer, busy, fuel));
    }
  }

  /** Once a body has signalled, its loop owes that signal; no other completion is left to it. */
  lemma BodyLeaves(id: nat, inTry: bool, put: (bool, Store) -> Store, st: S.State, busy: S.State, r: S.Result)
    requires Open(id, st) && Grows(busy, r.st) && busy.loops == st.loops[id := st.loops[id].(phase := S.Busy)]
    requires r.c.Unwinding? ==> r.c.loop < |r.st.loops| && r.st.loops[r.c.loop].pending.Some?
    ensures var q := S.AfterBody(id, inTry, put, r);
            && Grows(st, q.st) && (q.c.Unwinding? ==> q.c.loop < |q.st.loops| && q.st.loops[q.c.loop].pending.Some?)
            && !q.c.Breaking? && !q.c.Continuing? && !q.c.Returning? && (q.c.Exiting? ==> q.c.pending.Normal?)
  {
    var q := S.AfterBody(id, inTry, put, r);
    forall i | 0 <= i < |st.loops| ensures LoopStays(st.loops[i], q.st.loops[i]) {
      assert LoopStays(busy.loops[i], r.st.loops[i]);
    }
  }

  /** A yield that never reaches a loop. */
  lemma EarlyAgrees(rt: ResultType, crossing: bool, inLoop: bool, st: S.State, store: Store, c: S.Completion, act: Activation, g: State, d: Completion)
    requires Same(st, g) && Ends(rt, crossing, c, d) && !c.Breaking? && !c.Continuing? && !c.Unwinding? && (c.Exiting? ==> c.pending.Normal?)
    ensures Agrees(rt, crossing, inLoop, st, S.Result(c, st.(store := store)), act, g,
                   Result(d, act, g.(store := store, cells := g.cells + [Flag(false)])))
  {
  }

  lemma NoYieldRuns(v: Value, g: State, fuel: nat)
    ensures Yield(NoYield, v, g, fuel) == Called(Panicking(PRaised(NilCall)), false, g)
  {
  }

  lemma AnswerAgrees(rt: ResultType, crossing: bool, inLoop: bool, st: S.State, a: S.Result, put: (bool, Store) -> Store,
                     act: Activation, g: State, g1: State, z: Called, b: Result)
    requires Answers(a, put, g1, z) && Keeps(g.cells, g1.cells) && |g.cells| < |g1.cells| && Grows(st, a.st)
    requires if !z.c.Returning? then b == Result(z.c, act, z.st) || z.c.Normal?
             else |g.cells| < |z.st.cells| ==>
               b == Result(Normal, act, z.st.(cells := z.st.cells[|g.cells| := Flag(z.c.results == [Num(1)])],
                                              store := put(z.c.results == [Num(1)], z.st.store)))
    requires a.c.Unwinding? ==> a.c.loop < |a.st.loops| && a.st.loops[a.c.loop].pending.Some?
    requires !a.c.Breaking? && !a.c.Continuing? && !a.c.Returning? && (a.c.Exiting? ==> a.c.pending.Normal?)
    ensures Agrees(rt, crossing, inLoop, st, a, act, g, b)
  {
  }
}
