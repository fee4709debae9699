/** Main results: lowering a callable preserves its completion and its store. */
module TryTheorem {
  import opened Completions
  import opened Returns
  import S = ExceptionSource
  import opened GoMachine
  import opened TryLowering
  import opened TryMachinery
  import opened TryFragments
  import opened IteratorFragments
  import opened TryCorrectness

  lemma SeqUnfolds(s: S.Stmt, crossing: bool, rt: ResultType, env: S.Env, ctx: S.Context, st: S.State, fuel: nat)
    requires s.Seq?
    ensures var r := S.Exec(s.first, crossing, rt, env, ctx, st, fuel);
            S.Exec(s, crossing, rt, env, ctx, st, fuel) ==
            if r.c.Normal? then S.Exec(s.rest, crossing, rt, env, ctx, r.st, fuel) else r
  {
  }

  lemma IfUnfolds(s: S.Stmt, crossing: bool, rt: ResultType, env: S.Env, ctx: S.Context, st: S.State, fuel: nat)
    requires s.If?
    ensures var t := s.test(st.store);
            var st1 := st.(store := t.store);
            S.Exec(s, crossing, rt, env, ctx, st, fuel) ==
            if !t.outcome.Done? then S.Result(S.After(t.outcome), st1)
            else S.Exec(if t.taken then s.thn else s.els, crossing, rt, env, ctx, st1, fuel)
  {
  }

  lemma TryUnfolds(s: S.Stmt, crossing: bool, rt: ResultType, env: S.Env, ctx: S.Context, st: S.State, fuel: nat)
    requires s.Try?
    ensures var r := S.Guarded(s, rt, env, ctx, st, fuel);
            var c := if s.fin.None? || r.c.OutOfFuel? then r.c
                     else S.Finish(r.c, S.Exec(s.fin.value, true, rt, env, ctx, r.st, fuel).c);
            S.Exec(s, crossing, rt, env, ctx, st, fuel) ==
            S.Result(if crossing then c else S.Absorb(c),
                     if s.fin.None? || r.c.OutOfFuel? then r.st else S.Exec(s.fin.value, true, rt, env, ctx, r.st, fuel).st)
  {
  }

  // ----- the checker's stopping analysis is sound -----

  lemma {:induction false} ChosenStops(cs: S.Catches, err: Value)
    requires AllStop(cs)
    ensures S.Choose(cs, err).Chosen? ==> Stops(S.Choose(cs, err).body)
    decreases cs
  {
    if cs.MoreCatch? { ChosenStops(cs.others, err); }
  }

  /** A statement the checker calls terminal never completes normally. */
  lemma {:induction false} StopsNeverNormal(s: S.Stmt, crossing: bool, rt: ResultType, inLoop: bool, env: S.Env, ctx: S.Context, st: S.State, fuel: nat)
    requires Stops(s) && Scoped(s, rt, inLoop, env.Keys)
    ensures !S.Exec(s, crossing, rt, env, ctx, st, fuel).c.Normal?
    decreases fuel, S.Size(s) + S.ContextSize(ctx), 1
  {
    hide S.Exec, Stops, Scoped;
    if s.Seq? { SeqStops(s, crossing, rt, inLoop, env, ctx, st, fuel); }
    else if s.If? { IfStops(s, crossing, rt, inLoop, env, ctx, st, fuel); }
    else if s.Try? { TryStops(s, crossing, rt, inLoop, env, ctx, st, fuel); }
    else { LeafStops(s, crossing, rt, inLoop, env, ctx, st, fuel); }
  }

  lemma {:induction false} SeqStops(s: S.Stmt, crossing: bool, rt: ResultType, inLoop: bool, env: S.Env, ctx: S.Context, st: S.State, fuel: nat)
    requires s.Seq? && Stops(s) && Scoped(s, rt, inLoop, env.Keys)
    ensures !S.Exec(s, crossing, rt, env, ctx, st, fuel).c.Normal?
    decreases fuel, S.Size(s) + S.ContextSize(ctx), 0
  {
    hide S.Exec;
    SeqUnfolds(s, crossing, rt, env, ctx, st, fuel);
    if Stops(s.first) { StopsNeverNormal(s.first, crossing, rt, inLoop, env, ctx, st, fuel); }
    else { StopsNeverNormal(s.rest, crossing, rt, inLoop, env, ctx, S.Exec(s.first, crossing, rt, env, ctx, st, fuel).st, fuel); }
  }

  lemma {:induction false} IfStops(s: S.Stmt, crossing: bool, rt: ResultType, inLoop: bool, env: S.Env, ctx: S.Context, st: S.State, fuel: nat)
    requires s.If? && Stops(s) && Scoped(s, rt, inLoop, env.Keys)
    ensures !S.Exec(s, crossing, rt, env, ctx, st, fuel).c.Normal?
    decreases fuel, S.Size(s) + S.ContextSize(ctx), 0
  {
    hide S.Exec;
    var st1 := st.(store := s.test(st.store).store);
    IfUnfolds(s, crossing, rt, env, ctx, st, fuel);
    StopsNeverNormal(s.thn, crossing, rt, inLoop, env, ctx, st1, fuel);
    StopsNeverNormal(s.els, crossing, rt, inLoop, env, ctx, st1, fuel);
  }

  lemma {:induction false} TryStops(s: S.Stmt, crossing: bool, rt: ResultType, inLoop: bool, env: S.Env, ctx: S.Context, st: S.State, fuel: nat)
    requires s.Try? && Stops(s) && Scoped(s, rt, inLoop, env.Keys)
    ensures !S.Exec(s, crossing, rt, env, ctx, st, fuel).c.Normal?
    decreases fuel, S.Size(s) + S.ContextSize(ctx), 0
  {
    hide S.Exec, S.Guarded;
    var r := S.Guarded(s, rt, env, ctx, st, fuel);
    TryUnfolds(s, crossing, rt, env, ctx, st, fuel);
    if Stops(s.body) && AllStop(s.catches) { GuardedStops(s, rt, env, ctx, st, fuel); }
    if s.fin.Some? && Stops(s.fin.value) { StopsNeverNormal(s.fin.value, true, rt, false, env, ctx, r.st, fuel); }
  }

  lemma LeafStops(s: S.Stmt, crossing: bool, rt: ResultType, inLoop: bool, env: S.Env, ctx: S.Context, st: S.State, fuel: nat)
    requires Stops(s) && !s.Seq? && !s.If? && !s.Try? && Scoped(s, rt, inLoop, env.Keys)
    ensures !S.Exec(s, crossing, rt, env, ctx, st, fuel).c.Normal?
  {
    assert S.Exec(s, crossing, rt, env, ctx, st, fuel) == S.Simple(s, rt, env, st);
  }

  lemma {:induction false} GuardedStops(s: S.Stmt, rt: ResultType, env: S.Env, ctx: S.Context, st: S.State, fuel: nat)
    requires s.Try? && Stops(s.body) && AllStop(s.catches) && Scoped(s, rt, false, env.Keys)
    ensures !S.Guarded(s, rt, env, ctx, st, fuel).c.Normal?
    decreases fuel, S.Size(s) - 1 + S.ContextSize(ctx)
  {
    StopsNeverNormal(s.body, true, rt, false, env, ctx, st, fuel);
    var r := S.Exec(s.body, true, rt, env, ctx, st, fuel);
    if s.catches.MoreCatch? && r.c.Raising? && r.c.p.Thrown? {
      var ch := S.Choose(s.catches, r.c.p.err);
      if ch.Chosen? {
        var inner := env[s.offset := r.c.p];
        ChosenStops(s.catches, r.c.p.err);
        ChosenScoped(s.catches, r.c.p.err, rt, env.Keys + {s.offset});
        assert inner.Keys == env.Keys + {s.offset};
        StopsNeverNormal(ch.body, true, rt, false, inner, ctx, r.st.(store := ch.bind(ch.value, r.st.store)), fuel);
      }
    }
  }

  // ----- simulation -----

  /** Every statement and its lowered form run in step, in every corresponding pair of states. */
  lemma {:induction false} Simulates(s: S.Stmt, crossing: bool, rt: ResultType, inLoop: bool, env: S.Env, ctx: S.Context, st: S.State,
                                     scope: Scope, yld: YieldFunc, act: Activation, g: State, fuel: nat)
    requires Scoped(s, rt, inLoop, env.Keys) && Related(env, ctx, st, scope, yld, g)
    ensures Agrees(rt, crossing, inLoop, st, S.Exec(s, crossing, rt, env, ctx, st, fuel), act, g,
                   Exec(Lower(s, crossing, rt), scope, yld, act, g, fuel))
    decreases fuel, S.Size(s) + S.ContextSize(ctx), 3
  {
    hide Exec, S.Exec, Agrees, Related, Scoped, Lower;
    if s.Seq? { SimulatesSeq(s, crossing, rt, inLoop, env, ctx, st, scope, yld, act, g, fuel); }
    else if s.If? { SimulatesIf(s, crossing, rt, inLoop, env, ctx, st, scope, yld, act, g, fuel); }
    else if s.While? { SimulatesWhile(s, crossing, rt, inLoop, env, ctx, st, scope, yld, act, g, fuel); }
    else if s.Try? { SimulatesTry(s, crossing, rt, inLoop, env, ctx, st, scope, yld, act, g, fuel); }
    else if s.ForOf? { SimulatesForOf(s, crossing, rt, inLoop, env, ctx, st, scope, yld, act, g, fuel); }
    else if s.Yield? { SimulatesYield(s, crossing, rt, inLoop, env, ctx, st, scope, yld, act, g, fuel); }
    else { SimpleAgrees(s, crossing, rt, inLoop, env, ctx, st, scope, yld, act, g, fuel); }
  }

  lemma {:induction false} SimulatesForOf(s: S.Stmt, crossing: bool, rt: ResultType, inLoop: bool, env: S.Env, ctx: S.Context, st: S.State,
                                          scope: Scope, yld: YieldFunc, act: Activation, g: State, fuel: nat)
    requires s.ForOf? && Scoped(s, rt, inLoop, env.Keys) && Related(env, ctx, st, scope, yld, g)
    ensures Agrees(rt, crossing, inLoop, st, S.Exec(s, crossing, rt, env, ctx, st, fuel), act, g,
                   Exec(Lower(s, crossing, rt), scope, yld, act, g, fuel))
    decreases fuel, S.Size(s) + S.ContextSize(ctx), 2
  {
    hide Exec, S.Exec, Agrees, Related, Lower;
    var none: S.Env := map[];
    assert none.Keys == {};
    LoopStarts(s, crossing, rt, inLoop, env, ctx, st, scope, yld, g);
    Simulates(s.iter, false, Void, false, map[], LoopContext(s, crossing, rt, env, ctx, st), LoopState(crossing, rt, st),
              map[], LoopYield(s.bind, Lower(s.body, crossing, rt), scope, yld, g), Activation(Bottom, None), SourceState(g), fuel);
    ForOfAgrees(s, crossing, rt, inLoop, env, ctx, st, scope, yld, act, g, fuel);
  }

  lemma {:induction false} SimulatesSeq(s: S.Stmt, crossing: bool, rt: ResultType, inLoop: bool, env: S.Env, ctx: S.Context, st: S.State,
                                        scope: Scope, yld: YieldFunc, act: Activation, g: State, fuel: nat)
    requires s.Seq? && Scoped(s, rt, inLoop, env.Keys) && Related(env, ctx, st, scope, yld, g)
    ensures Agrees(rt, crossing, inLoop, st, S.Exec(s, crossing, rt, env, ctx, st, fuel), act, g,
                   Exec(Lower(s, crossing, rt), scope, yld, act, g, fuel))
    decreases fuel, S.Size(s) + S.ContextSize(ctx), 2
  {
    hide Exec, S.Exec, Agrees, Related, Lower;
    var a := S.Exec(s.first, crossing, rt, env, ctx, st, fuel);
    var b := Exec(Lower(s.first, crossing, rt), scope, yld, act, g, fuel);
    Simulates(s.first, crossing, rt, inLoop, env, ctx, st, scope, yld, act, g, fuel);
    if a.c.Normal? {
      AgreedStays(rt, crossing, inLoop, env, ctx, st, a, scope, yld, act, g, b);
      Simulates(s.rest, crossing, rt, inLoop, env, ctx, a.st, scope, yld, act, b.st, fuel);
    }
    SeqAgrees(s, crossing, rt, inLoop, env, ctx, st, scope, yld, act, g, fuel);
  }

  lemma {:induction false} SimulatesIf(s: S.Stmt, crossing: bool, rt: ResultType, inLoop: bool, env: S.Env, ctx: S.Context, st: S.State,
                                       scope: Scope, yld: YieldFunc, act: Activation, g: State, fuel: nat)
    requires s.If? && Scoped(s, rt, inLoop, env.Keys) && Related(env, ctx, st, scope, yld, g)
    ensures Agrees(rt, crossing, inLoop, st, S.Exec(s, crossing, rt, env, ctx, st, fuel), act, g,
                   Exec(Lower(s, crossing, rt), scope, yld, act, g, fuel))
    decreases fuel, S.Size(s) + S.ContextSize(ctx), 2
  {
    hide Exec, S.Exec, Lower, Agrees;
    var t := s.test(st.store);
    var st1, g1 := st.(store := t.store), g.(store := t.store);
    if t.outcome.Done? {
      RelatedStays(env, ctx, st, st1, scope, yld, g, g1);
      Simulates(if t.taken then s.thn else s.els, crossing, rt, inLoop, env, ctx, st1, scope, yld, act, g1, fuel);
    }
    IfAgrees(s, crossing, rt, inLoop, env, ctx, st, scope, yld, act, g, fuel);
  }

  lemma {:induction false} SimulatesWhile(s: S.Stmt, crossing: bool, rt: ResultType, inLoop: bool, env: S.Env, ctx: S.Context, st: S.State,
                                          scope: Scope, yld: YieldFunc, act: Activation, g: State, fuel: nat)
    requires s.While? && Scoped(s, rt, inLoop, env.Keys) && Related(env, ctx, st, scope, yld, g)
    ensures Agrees(rt, crossing, inLoop, st, S.Exec(s, crossing, rt, env, ctx, st, fuel), act, g,
                   Exec(Lower(s, crossing, rt), scope, yld, act, g, fuel))
    decreases fuel, S.Size(s) + S.ContextSize(ctx), 2
  {
    hide Exec, S.Exec;
    var t := s.test(st.store);
    var st1, g1 := st.(store := t.store), g.(store := t.store);
    if fuel > 0 && t.outcome.Done? && t.taken {
      RelatedStays(env, ctx, st, st1, scope, yld, g, g1);
      Simulates(s.body, crossing, rt, true, env, ctx, st1, scope, yld, act, g1, fuel - 1);
      var a := S.Exec(s.body, crossing, rt, env, ctx, st1, fuel - 1);
      var b := Exec(Lower(s.body, crossing, rt), scope, yld, act, g1, fuel - 1);
      if a.c.Normal? || a.c.Continuing? {
        RelatedStays(env, ctx, st1, a.st, scope, yld, g1, b.st);
        Simulates(s, crossing, rt, inLoop, env, ctx, a.st, scope, yld, act, b.st, fuel - 1);
      }
    }
    WhileAgrees(s, crossing, rt, inLoop, env, ctx, st, scope, yld, act, g, fuel);
  }

  lemma {:induction false} SimulatesYield(s: S.Stmt, crossing: bool, rt: ResultType, inLoop: bool, env: S.Env, ctx: S.Context, st: S.State,
                                          scope: Scope, yld: YieldFunc, act: Activation, g: State, fuel: nat)
    requires s.Yield? && Scoped(s, rt, inLoop, env.Keys) && Related(env, ctx, st, scope, yld, g)
    ensures Agrees(rt, crossing, inLoop, st, S.Exec(s, crossing, rt, env, ctx, st, fuel), act, g,
                   Exec(Lower(s, crossing, rt), scope, yld, act, g, fuel))
    decreases fuel, S.Size(s) + S.ContextSize(ctx), 2
  {
    hide Exec, S.Exec;
    var e := s.eval(st.store);
    var st1, g1 := st.(store := e.store), YieldEntry(e, g);
    if e.outcome.Done? && ctx.InLoop? && Open(ctx.id, st1) {
      var v := e.values[0];
      var g2 := InsideInvoke(v, g1);
      ContextStays(ctx, yld, st, st1, g.cells, g2.cells);
      BodyStarts(ctx, yld, v, st1, g2);
      Simulates(ctx.body, ctx.crossing, ctx.rt, true, ctx.env, ctx.outer, BusyState(ctx.id, ctx.bind, v, st1),
                yld.outer.scope, yld.outer.outer, Activation(Bottom, None), BusyRange(ctx.id, ctx.bind, v, g2), fuel);
    }
    YieldAgrees(s, crossing, rt, inLoop, env, ctx, st, scope, yld, act, g, fuel);
  }

  lemma {:induction false} SimulatesTry(s: S.Stmt, crossing: bool, rt: ResultType, inLoop: bool, env: S.Env, ctx: S.Context, st: S.State,
                                        scope: Scope, yld: YieldFunc, act: Activation, g: State, fuel: nat)
    requires s.Try? && Scoped(s, rt, inLoop, env.Keys) && Related(env, ctx, st, scope, yld, g)
    ensures Agrees(rt, crossing, inLoop, st, S.Exec(s, crossing, rt, env, ctx, st, fuel), act, g,
                   Exec(Lower(s, crossing, rt), scope, yld, act, g, fuel))
    decreases fuel, S.Size(s) + S.ContextSize(ctx), 2
  {
    hide Exec, S.Exec;
    if crossing {
      SimulatesTryCall(s, rt, env, ctx, st, scope, yld, act, g, fuel);
    } else {
      var sc, g1 := OutermostScope(s.offset, scope, g), OutermostState(g);
      EnvStays(env, scope, g.cells, g1.cells);
      ContextStays(ctx, yld, st, st, g.cells, g1.cells);
      SimulatesTryCall(s, rt, env, ctx, st, sc, yld, Guard(ReturnRecovered(s.offset), sc), g1, fuel);
      OutermostAgrees(s, rt, env, ctx, st, scope, yld, act, g, fuel);
    }
    if Stops(s) { StopsNeverNormal(s, crossing, rt, inLoop, env, ctx, st, fuel); }
    TerminalAgrees(s, crossing, rt, inLoop, env, ctx, st, scope, yld, act, g, fuel);
  }

  lemma {:induction false} SimulatesTryCall(s: S.Stmt, rt: ResultType, env: S.Env, ctx: S.Context, st: S.State,
                                            scope: Scope, yld: YieldFunc, act: Activation, g: State, fuel: nat)
    requires s.Try? && Scoped(s, rt, false, env.Keys) && Related(env, ctx, st, scope, yld, g)
    ensures Agrees(rt, true, false, st, S.Exec(s, true, rt, env, ctx, st, fuel), act, g, Exec(TryCall(s, rt), scope, yld, act, g, fuel))
    decreases fuel, S.Size(s) + S.ContextSize(ctx), 1
  {
    hide Exec, S.Exec;
    if s.fin.None? {
      SimulatesGuarded(s, rt, env, ctx, st, scope, yld, Activation(Bottom, None), g, fuel);
      NoFinallyAgrees(s, rt, env, ctx, st, scope, yld, act, g, fuel);
    } else {
      var own := Activation(Push(Lower(s.fin.value, true, rt), scope, Bottom), None);
      SimulatesGuarded(s, rt, env, ctx, st, scope, yld, own, g, fuel);
      var r := S.Guarded(s, rt, env, ctx, st, fuel);
      var b := Exec(ProtectedBody(s, rt), scope, yld, own, g, fuel);
      RelatedStays(env, ctx, st, r.st, scope, yld, g, b.st);
      Simulates(s.fin.value, true, rt, false, env, ctx, r.st, scope, yld, Activation(Bottom, PanicOf(b.c)), b.st, fuel);
      FinallyAgrees(s, rt, env, ctx, st, scope, yld, act, g, fuel);
    }
  }

  lemma {:induction false} SimulatesGuarded(s: S.Stmt, rt: ResultType, env: S.Env, ctx: S.Context, st: S.State,
                                            scope: Scope, yld: YieldFunc, act: Activation, g: State, fuel: nat)
    requires s.Try? && Scoped(s, rt, false, env.Keys) && Related(env, ctx, st, scope, yld, g)
    ensures Agrees(rt, true, false, st, S.Guarded(s, rt, env, ctx, st, fuel), act, g, Exec(ProtectedBody(s, rt), scope, yld, act, g, fuel))
    decreases fuel, S.Size(s) + S.ContextSize(ctx), 0
  {
    hide Exec, S.Exec, Agrees, Lower, LowerCatches;
    if s.catches.NoCatch? {
      NothingCaught(s, rt, env, ctx, st, fuel);
      Simulates(s.body, true, rt, false, env, ctx, st, scope, yld, act, g, fuel);
    } else {
      var k := s.offset;
      var sc, g1 := TryScope(k, scope, g), TryState(g);
      TryEnters(k, env, ctx, st, scope, yld, g);
      hide Related, TryScope, TryState;
      Simulates(s.body, true, rt, false, env, ctx, st, sc, yld, Guard(Recovered(k), sc), g1, fuel);
      var a := S.Exec(s.body, true, rt, env, ctx, st, fuel);
      if a.c.Raising? && a.c.p.Thrown? {
        SimulatesClause(s, a, rt, env, ctx, st, scope, yld, act, g, fuel);
      } else {
        CatchingPasses(s, rt, env, ctx, st, scope, yld, act, g, fuel);
      }
    }
  }

  lemma NothingCaught(s: S.Stmt, rt: ResultType, env: S.Env, ctx: S.Context, st: S.State, fuel: nat)
    requires s.Try? && s.catches.NoCatch?
    ensures S.Guarded(s, rt, env, ctx, st, fuel) == S.Exec(s.body, true, rt, env, ctx, st, fuel)
  {
    hide S.Exec;
  }

  /** The variables of a try with clauses disturb nothing. */
  lemma TryEnters(k: nat, env: S.Env, ctx: S.Context, st: S.State, scope: Scope, yld: YieldFunc, g: State)
    requires k !in env && Related(env, ctx, st, scope, yld, g)
    ensures Related(env, ctx, st, TryScope(k, scope, g), yld, TryState(g))
  {
    EnvStays(env, scope, g.cells, TryState(g).cells);
    ContextStays(ctx, yld, st, st, g.cells, TryState(g).cells);
  }

  lemma {:induction false} SimulatesClause(s: S.Stmt, a: S.Result, rt: ResultType, env: S.Env, ctx: S.Context, st: S.State,
                                           scope: Scope, yld: YieldFunc, act: Activation, g: State, fuel: nat)
    requires s.Try? && s.catches.MoreCatch? && Scoped(s, rt, false, env.Keys) && Related(env, ctx, st, scope, yld, g)
    requires a == S.Exec(s.body, true, rt, env, ctx, st, fuel) && a.c.Raising? && a.c.p.Thrown?
    requires var k, sc, gt := s.offset, TryScope(s.offset, scope, g), TryState(g);
             Agrees(rt, true, false, st, a, Guard(Recovered(k), sc), gt,
                    Exec(Lower(s.body, true, rt), sc, yld, Guard(Recovered(k), sc), gt, fuel))
    ensures Agrees(rt, true, false, st, S.Guarded(s, rt, env, ctx, st, fuel), act, g, Exec(ProtectedBody(s, rt), scope, yld, act, g, fuel))
    decreases fuel, S.Size(s) - 1 + S.ContextSize(ctx), 4
  {
    hide Exec, S.Exec, Agrees, Lower, LowerCatches;
    var k := s.offset;
    var q := CatchingDispatches(s, rt, env, ctx, st, scope, yld, act, g, fuel);
    ClauseStarts(k, a, env, ctx, st, scope, yld, g, q);
    var (sc, h) := DispatchEntry(k, CatchingScope(k, scope, g), q);
    var ch := S.Choose(s.catches, a.c.p.err);
    if ch.Chosen? {
      var inner := env[k := a.c.p];
      var st1 := a.st.(store := ch.bind(ch.value, a.st.store));
      ChosenScoped(s.catches, a.c.p.err, rt, env.Keys + {k});
      assert inner.Keys == env.Keys + {k};
      EntryReady(k, ch.bind, ch.value, inner, ctx, a.st, sc, yld, q, h);
      Simulates(ch.body, true, rt, false, inner, ctx, st1, sc, yld, act, HandlerEntry(k, ch.bind, ch.value, sc, h), fuel);
    }
    ClauseAgrees(s, rt, env, ctx, st, a, scope, yld, act, g, fuel, q);
  }

  /** Marking the exception as handled and binding it disturb nothing the handler relies on. */
  lemma EntryReady(k: nat, bind: (Value, Store) -> Store, v: Value, env: S.Env, ctx: S.Context, st: S.State, sc: Scope, yld: YieldFunc, q: State, h: State)
    requires Related(env, ctx, st, sc, yld, q) && Handled(k) in sc && sc[Handled(k)] == |q.cells| && h == q.(cells := q.cells + [Flag(false)])
    ensures Related(env, ctx, st.(store := bind(v, st.store)), sc, yld, HandlerEntry(k, bind, v, sc, h))
  {
    HandlerKeeps(k, bind, v, sc, q, h);
    hide HandlerEntry;
    RelatedStays(env, ctx, st, st.(store := bind(v, st.store)), sc, yld, q, HandlerEntry(k, bind, v, sc, h));
  }

  // ----- whole callables -----

  /** How a caller in Go sees the completion of a callable. */
  function GoView(c: S.Completion): Completion {
    match c
    case Normal => Normal
    case Breaking => Breaking
    case Continuing => Continuing
    case Returning(results) => Returning(results)
    case Raising(p) => Panicking(PRaised(p))
    case Unwinding(loop) => Panicking(PIterator(loop))
    case Exiting(_) => Exiting(None)
    case OutOfFuel => OutOfFuel
  }

  function SourceRun(s: S.Stmt, rt: ResultType, store: Store, fuel: nat): S.Result {
    S.Exec(s, false, rt, map[], S.NoLoop, S.State(store, []), fuel)
  }

  function GoRun(s: S.Stmt, rt: ResultType, store: Store, fuel: nat): Called {
    Invoke(Lower(s, false, rt), map[], NoYield, None, State(store, [], [], []), fuel)
  }

  /** The lowered callable ends with the completion and the store (hence the trace) of its source;
      it defers nothing of its own, recovers nothing of its caller's, and runs out of fuel exactly
      when the source does. */
  lemma LoweringPreservesMeaning(s: S.Stmt, rt: ResultType, store: Store, fuel: nat)
    requires Scoped(s, rt, false, {})
    ensures var a, b := SourceRun(s, rt, store, fuel), GoRun(s, rt, store, fuel);
            b.c == GoView(a.c) && b.st.store == a.st.store && !b.recovered
  {
    hide Exec, S.Exec;
    var st, g := S.State(store, []), State(store, [], [], []);
    var none: S.Env := map[];
    var act := Activation(Bottom, None);
    assert none.Keys == {};
    Simulates(s, false, rt, false, none, S.NoLoop, st, map[], NoYield, act, g, fuel);
    InvokeRuns(Lower(s, false, rt), map[], NoYield, g, fuel);
  }

  /** A function that ends with nothing deferred. */
  lemma InvokeRuns(body: Code, scope: Scope, yld: YieldFunc, g: State, fuel: nat)
    requires Exec(body, scope, yld, Activation(Bottom, None), g, fuel).act == Activation(Bottom, None)
    ensures var r := Exec(body, scope, yld, Activation(Bottom, None), g, fuel);
            Invoke(body, scope, yld, None, g, fuel) == Called(r.c, false, r.st)
  {
    var r := Exec(body, scope, yld, Activation(Bottom, None), g, fuel);
    assert RunDeferred(Bottom, Size(body), yld, r.c, r.st, fuel) == Stepped(r.c, r.st);
  }

  /** Loops that a statement's yields can still reach. */
  function Reachable(ctx: S.Context): set<nat> {
    match ctx
    case NoLoop => {}
    case InLoop(id, _, _, _, _, _, outer) => {id} + Reachable(outer)
  }

  predicate Owing(st: S.State) {
    forall i :: 0 <= i < |st.loops| && st.loops[i].pending.Some? ==> S.Signals(st.loops[i].pending.value)
  }

  predicate Unwinds(c: S.Completion, ids: set<nat>) {
    && (c.Unwinding? ==> c.loop in ids)
    && (c.Exiting? && c.pending.Unwinding? ==> c.pending.loop in ids)
  }

  ghost predicate Inside(st: S.State, r: S.Result, ids: set<nat>) {
    && Owing(r.st) && Grows(st, r.st) && Unwinds(r.c, ids)
    && (r.c.Unwinding? ==> r.c.loop < |r.st.loops| && r.st.loops[r.c.loop].pending.Some?)
  }

  /** The signal of a loop body reaches its own loop and goes no further: it only travels through
      the loops nested inside that one. */
  lemma {:induction false} SignalsStayInside(s: S.Stmt, crossing: bool, rt: ResultType, env: S.Env, ctx: S.Context, st: S.State, fuel: nat)
    requires Owing(st)
    ensures Inside(st, S.Exec(s, crossing, rt, env, ctx, st, fuel), Reachable(ctx))
    decreases fuel, S.Size(s) + S.ContextSize(ctx), 2
  {
    hide S.Exec, Inside;
    if s.Seq? || s.If? || s.While? { NestedStaysInside(s, crossing, rt, env, ctx, st, fuel); }
    else if s.Try? { TryStaysInside(s, crossing, rt, env, ctx, st, fuel); }
    else if s.ForOf? { LoopStaysInside(s, crossing, rt, env, ctx, st, fuel); }
    else if s.Yield? { YieldStaysInside(s, crossing, rt, env, ctx, st, fuel); }
    else { LeafStaysInside(s, crossing, rt, env, ctx, st, fuel); }
  }

  /** One statement after another, or after a test. */
  lemma InsideTogether(st: S.State, mid: S.State, r: S.Result, ids: set<nat>)
    requires Inside(mid, r, ids) && Grows(st, mid)
    ensures Inside(st, r, ids)
  {
  }

  lemma InsideMeans(st: S.State, r: S.Result, ids: set<nat>)
    requires Inside(st, r, ids)
    ensures Owing(r.st) && Grows(st, r.st)
  {
  }

  /** A test only touches the store. */
  lemma TestedInside(st: S.State, store: Store, outcome: Outcome, ids: set<nat>)
    requires Owing(st)
    ensures Owing(st.(store := store)) && Grows(st, st.(store := store))
    ensures Inside(st, S.Result(S.After(outcome), st.(store := store)), ids)
  {
  }

  lemma {:induction false} NestedStaysInside(s: S.Stmt, crossing: bool, rt: ResultType, env: S.Env, ctx: S.Context, st: S.State, fuel: nat)
    requires (s.Seq? || s.If? || s.While?) && Owing(st)
    ensures Inside(st, S.Exec(s, crossing, rt, env, ctx, st, fuel), Reachable(ctx))
    decreases fuel, S.Size(s) + S.ContextSize(ctx), 1
  {
    hide S.Exec, Inside, Owing, Grows;
    var ids := Reachable(ctx);
    if s.Seq? {
      SeqUnfolds(s, crossing, rt, env, ctx, st, fuel);
      var r := S.Exec(s.first, crossing, rt, env, ctx, st, fuel);
      SignalsStayInside(s.first, crossing, rt, env, ctx, st, fuel);
      InsideMeans(st, r, ids);
      if r.c.Normal? {
        SignalsStayInside(s.rest, crossing, rt, env, ctx, r.st, fuel);
        InsideTogether(st, r.st, S.Exec(s.rest, crossing, rt, env, ctx, r.st, fuel), ids);
      }
    } else if s.If? {
      IfUnfolds(s, crossing, rt, env, ctx, st, fuel);
      var t := s.test(st.store);
      TestedInside(st, t.store, t.outcome, ids);
      if t.outcome.Done? {
        var st1, taken := st.(store := t.store), if t.taken then s.thn else s.els;
        SignalsStayInside(taken, crossing, rt, env, ctx, st1, fuel);
        InsideTogether(st, st1, S.Exec(taken, crossing, rt, env, ctx, st1, fuel), ids);
      }
    } else {
      WhileStaysInside(s, crossing, rt, env, ctx, st, fuel);
    }
  }

  lemma {:induction false} WhileStaysInside(s: S.Stmt, crossing: bool, rt: ResultType, env: S.Env, ctx: S.Context, st: S.State, fuel: nat)
    requires s.While? && Owing(st)
    ensures Inside(st, S.Exec(s, crossing, rt, env, ctx, st, fuel), Reachable(ctx))
    decreases fuel, S.Size(s) + S.ContextSize(ctx), 0
  {
    hide S.Exec;
    WhileUnfolds(s, crossing, rt, env, ctx, st, fuel);
    if fuel > 0 {
      var st1 := st.(store := s.test(st.store).store);
      SignalsStayInside(s.body, crossing, rt, env, ctx, st1, fuel - 1);
      SignalsStayInside(s, crossing, rt, env, ctx, S.Exec(s.body, crossing, rt, env, ctx, st1, fuel - 1).st, fuel - 1);
    }
  }

  lemma LeafStaysInside(s: S.Stmt, crossing: bool, rt: ResultType, env: S.Env, ctx: S.Context, st: S.State, fuel: nat)
    requires !s.Seq? && !s.If? && !s.While? && !s.Try? && !s.ForOf? && !s.Yield? && Owing(st)
    ensures Inside(st, S.Exec(s, crossing, rt, env, ctx, st, fuel), Reachable(ctx))
  {
    assert S.Exec(s, crossing, rt, env, ctx, st, fuel) == S.Simple(s, rt, env, st);
  }

  lemma {:induction false} TryStaysInside(s: S.Stmt, crossing: bool, rt: ResultType, env: S.Env, ctx: S.Context, st: S.State, fuel: nat)
    requires s.Try? && Owing(st)
    ensures Inside(st, S.Exec(s, crossing, rt, env, ctx, st, fuel), Reachable(ctx))
    decreases fuel, S.Size(s) + S.ContextSize(ctx), 0
  {
    hide S.Exec;
    GuardedStaysInside(s, rt, env, ctx, st, fuel);
    var r := S.Guarded(s, rt, env, ctx, st, fuel);
    TryUnfolds(s, crossing, rt, env, ctx, st, fuel);
    if s.fin.Some? { SignalsStayInside(s.fin.value, true, rt, env, ctx, r.st, fuel); }
  }

  lemma {:induction false} GuardedStaysInside(s: S.Stmt, rt: ResultType, env: S.Env, ctx: S.Context, st: S.State, fuel: nat)
    requires s.Try? && Owing(st)
    ensures Inside(st, S.Guarded(s, rt, env, ctx, st, fuel), Reachable(ctx))
    decreases fuel, S.Size(s) - 1 + S.ContextSize(ctx), 2
  {
    hide S.Exec;
    SignalsStayInside(s.body, true, rt, env, ctx, st, fuel);
    var a := S.Exec(s.body, true, rt, env, ctx, st, fuel);
    if s.catches.MoreCatch? && a.c.Raising? && a.c.p.Thrown? {
      var ch := S.Choose(s.catches, a.c.p.err);
      if ch.Chosen? {
        SignalsStayInside(ch.body, true, rt, env[s.offset := a.c.p], ctx, a.st.(store := ch.bind(ch.value, a.st.store)), fuel);
      }
    }
  }

  lemma {:induction false} LoopStaysInside(s: S.Stmt, crossing: bool, rt: ResultType, env: S.Env, ctx: S.Context, st: S.State, fuel: nat)
    requires s.ForOf? && Owing(st)
    ensures Inside(st, S.Exec(s, crossing, rt, env, ctx, st, fuel), Reachable(ctx))
    decreases fuel, S.Size(s) + S.ContextSize(ctx), 0
  {
    var st0 := LoopState(crossing, rt, st);
    var inner := LoopContext(s, crossing, rt, env, ctx, st);
    SignalsStayInside(s.iter, false, Void, map[], inner, st0, fuel);
    var a := S.Exec(s.iter, false, Void, map[], inner, st0, fuel);
    forall i | 0 <= i < |st.loops| ensures LoopStays(st.loops[i], a.st.loops[i]) {
      assert LoopStays(st0.loops[i], a.st.loops[i]);
    }
  }

  lemma {:induction false} YieldStaysInside(s: S.Stmt, crossing: bool, rt: ResultType, env: S.Env, ctx: S.Context, st: S.State, fuel: nat)
    requires s.Yield? && Owing(st)
    ensures Inside(st, S.Exec(s, crossing, rt, env, ctx, st, fuel), Reachable(ctx))
    decreases fuel, S.Size(s) + S.ContextSize(ctx), 0
  {
    hide S.Exec;
    YieldUnfolds(s, crossing, rt, env, ctx, st, fuel);
    var e := s.eval(st.store);
    var st1 := st.(store := e.store);
    if e.outcome.Done? && |e.values| == 1 && ctx.InLoop? && Open(ctx.id, st1) {
      var busy := BusyState(ctx.id, ctx.bind, e.values[0], st1);
      SignalsStayInside(ctx.body, ctx.crossing, ctx.rt, ctx.env, ctx.outer, busy, fuel);
      BodyLeaves(ctx.id, ctx.crossing, s.put, st1, busy, S.Exec(ctx.body, ctx.crossing, ctx.rt, ctx.env, ctx.outer, busy, fuel));
    }
  }

  /** No private control value ever leaves a callable. */
  lemma CallableLeaksNoControl(s: S.Stmt, rt: ResultType, store: Store, fuel: nat)
    requires Scoped(s, rt, false, {})
    ensures var c := GoRun(s, rt, store, fuel).c;
            (c.Panicking? ==> c.panic.PRaised?) && (c.Exiting? ==> c.pending.None?)
  {
    LoweringPreservesMeaning(s, rt, store, fuel);
    SignalsStayInside(s, false, rt, map[], S.NoLoop, S.State(store, []), fuel);
  }

  // ----- the stopping analysis misses no path -----

  /** Two statements that differ at most in what their expressions and calls do. */
  predicate SameShape(s: S.Stmt, t: S.Stmt)
    decreases S.Size(s)
  {
    match s
    case Skip => t.Skip?
    case Prim(_) => t.Prim?
    case Seq(a, b) => t.Seq? && SameShape(a, t.first) && SameShape(b, t.rest)
    case If(_, a, b) => t.If? && SameShape(a, t.thn) && SameShape(b, t.els)
    case While(_, body) => t.While? && SameShape(body, t.body)
    case Break => t.Break?
    case Continue => t.Continue?
    case Return(kind, _) => t.Return? && t.kind == kind
    case Propagate(_, _) => t.Propagate?
    case Throw(_) => t.Throw?
    case Rethrow(target) => t.Rethrow? && t.target == target
    case Try(k, body, catches, fin) =>
      && t.Try? && t.offset == k && SameShape(body, t.body) && SameClauses(catches, t.catches)
      && (fin.Some? <==> t.fin.Some?) && (fin.Some? ==> SameShape(fin.value, t.fin.value))
    case ForOf(_, iter, body) => t.ForOf? && SameShape(iter, t.iter) && SameShape(body, t.body)
    case Yield(_, _) => t.Yield?
  }

  predicate SameClauses(cs: S.Catches, ds: S.Catches)
    decreases S.CatchesSize(cs)
  {
    match cs
    case NoCatch => ds.NoCatch?
    case MoreCatch(c, others) => ds.MoreCatch? && SameShape(c.body, ds.clause.body) && SameClauses(others, ds.others)
  }

  /** Statements outside iterators, in which a clause can end normally only where the body of its try can. */
  predicate Direct(s: S.Stmt)
    decreases S.Size(s)
  {
    match s
    case Seq(a, b) => Direct(a) && Direct(b)
    case If(_, a, b) => Direct(a) && Direct(b)
    case Try(_, body, catches, fin) => Direct(body) && (Stops(body) ==> AllStop(catches)) && (fin.Some? ==> Direct(fin.value))
    case ForOf(_, _, _) => false
    case Yield(_, _) => false
    case _ => true
  }

  /** The same statement with tests and calls that take the path past it. */
  function Passing(s: S.Stmt): S.Stmt
    decreases S.Size(s)
  {
    match s
    case Prim(_) => S.Prim(x => Effect(x, Done))
    case Seq(a, b) => S.Seq(Passing(a), Passing(b))
    case If(_, a, b) =>
      if Stops(a) then S.If(x => Choice(x, Done, false), a, Passing(b)) else S.If(x => Choice(x, Done, true), Passing(a), b)
    case While(_, body) => S.While(x => Choice(x, Done, false), body)
    case Propagate(_, bind) => S.Propagate(x => Evaluated(x, Done, [Nil]), bind)
    case Try(k, body, catches, fin) => S.Try(k, Passing(body), catches, if fin.Some? then Some(Passing(fin.value)) else None)
    case _ => s
  }

  lemma {:induction false} ShapeOfItself(s: S.Stmt)
    ensures SameShape(s, s)
    decreases S.Size(s)
  {
    match s
    case Seq(a, b) => ShapeOfItself(a); ShapeOfItself(b);
    case If(_, a, b) => ShapeOfItself(a); ShapeOfItself(b);
    case While(_, body) => ShapeOfItself(body);
    case Try(_, body, catches, fin) =>
      ShapeOfItself(body);
      ClausesOfThemselves(catches);
      if fin.Some? { ShapeOfItself(fin.value); }
    case ForOf(_, iter, body) => ShapeOfItself(iter); ShapeOfItself(body);
    case _ =>
  }

  lemma {:induction false} ClausesOfThemselves(cs: S.Catches)
    ensures SameClauses(cs, cs)
    decreases S.CatchesSize(cs)
  {
    if cs.MoreCatch? { ShapeOfItself(cs.clause.body); ClausesOfThemselves(cs.others); }
  }

  lemma {:induction false} PassingShape(s: S.Stmt, rt: ResultType, inLoop: bool, caught: set<nat>)
    requires Scoped(s, rt, inLoop, caught)
    ensures SameShape(s, Passing(s)) && Scoped(Passing(s), rt, inLoop, caught)
    decreases S.Size(s), 1
  {
    match s
    case Seq(a, b) => PassingShape(a, rt, inLoop, caught); PassingShape(b, rt, inLoop, caught);
    case If(_, a, b) =>
      PassingShape(a, rt, inLoop, caught);
      PassingShape(b, rt, inLoop, caught);
      ShapeOfItself(a);
      ShapeOfItself(b);
    case While(_, body) => ShapeOfItself(body);
    case Try(_, _, _, _) => PassingTryShape(s, rt, inLoop, caught);
    case _ => ShapeOfItself(s);
  }

  lemma {:induction false} PassingTryShape(s: S.Stmt, rt: ResultType, inLoop: bool, caught: set<nat>)
    requires s.Try? && Scoped(s, rt, inLoop, caught)
    ensures SameShape(s, Passing(s)) && Scoped(Passing(s), rt, inLoop, caught)
    decreases S.Size(s), 0
  {
    PassingShape(s.body, rt, false, caught);
    ClausesOfThemselves(s.catches);
    if s.fin.Some? { PassingShape(s.fin.value, rt, false, caught); }
  }

  lemma {:induction false} PassingPasses(s: S.Stmt, crossing: bool, rt: ResultType, env: S.Env, ctx: S.Context, st: S.State, fuel: nat)
    requires Direct(s) && !Stops(s) && fuel > 0
    ensures S.Exec(Passing(s), crossing, rt, env, ctx, st, fuel) == S.Result(S.Normal, st)
    decreases S.Size(s)
  {
    hide S.Exec;
    match s
    case Seq(a, b) =>
      PassingPasses(a, crossing, rt, env, ctx, st, fuel);
      PassingPasses(b, crossing, rt, env, ctx, st, fuel);
      SeqUnfolds(Passing(s), crossing, rt, env, ctx, st, fuel);
    case If(_, a, b) =>
      PassingPasses(if Stops(a) then b else a, crossing, rt, env, ctx, st, fuel);
      IfUnfolds(Passing(s), crossing, rt, env, ctx, st, fuel);
    case Try(_, body, _, fin) =>
      PassingPasses(body, true, rt, env, ctx, st, fuel);
      if fin.Some? { PassingPasses(fin.value, true, rt, env, ctx, st, fuel); }
      TryPasses(Passing(s), crossing, rt, env, ctx, st, fuel);
    case _ => SimplePasses(s, crossing, rt, env, ctx, st, fuel);
  }

  lemma TryPasses(s: S.Stmt, crossing: bool, rt: ResultType, env: S.Env, ctx: S.Context, st: S.State, fuel: nat)
    requires s.Try? && S.Exec(s.body, true, rt, env, ctx, st, fuel) == S.Result(S.Normal, st)
    requires s.fin.Some? ==> S.Exec(s.fin.value, true, rt, env, ctx, st, fuel) == S.Result(S.Normal, st)
    ensures S.Exec(s, crossing, rt, env, ctx, st, fuel) == S.Result(S.Normal, st)
  {
    hide S.Exec;
    TryUnfolds(s, crossing, rt, env, ctx, st, fuel);
  }

  lemma SimplePasses(s: S.Stmt, crossing: bool, rt: ResultType, env: S.Env, ctx: S.Context, st: S.State, fuel: nat)
    requires (s.Skip? || s.Prim? || s.While? || s.Propagate?) && fuel > 0
    ensures S.Exec(Passing(s), crossing, rt, env, ctx, st, fuel) == S.Result(S.Normal, st)
  {
  }

  lemma {:induction false} ShapeStops(s: S.Stmt, t: S.Stmt)
    requires SameShape(s, t)
    ensures Stops(s) <==> Stops(t)
    decreases S.Size(s)
  {
    match s
    case Seq(a, b) => ShapeStops(a, t.first); ShapeStops(b, t.rest);
    case If(_, a, b) => ShapeStops(a, t.thn); ShapeStops(b, t.els);
    case Try(_, body, catches, fin) =>
      ShapeStops(body, t.body);
      ClausesStop(catches, t.catches);
      if fin.Some? { ShapeStops(fin.value, t.fin.value); }
    case _ =>
  }

  lemma {:induction false} ClausesStop(cs: S.Catches, ds: S.Catches)
    requires SameClauses(cs, ds)
    ensures AllStop(cs) <==> AllStop(ds)
    decreases S.CatchesSize(cs)
  {
    if cs.MoreCatch? { ShapeStops(cs.clause.body, ds.clause.body); ClausesStop(cs.others, ds.others); }
  }

  /** A callable body is judged to stop if and only if no body of its shape, whatever its expressions and
      calls do, ever completes normally. */
  lemma StopsExactly(s: S.Stmt, rt: ResultType)
    requires Direct(s) && Scoped(s, rt, false, {})
    ensures Stops(s) <==>
      forall t, store, fuel :: SameShape(s, t) && Scoped(t, rt, false, {}) ==> !SourceRun(t, rt, store, fuel).c.Normal?
  {
    hide S.Exec, Stops, Scoped, SameShape, Direct;
    var none: S.Env := map[];
    assert none.Keys == {};
    if Stops(s) {
      forall t, store, fuel | SameShape(s, t) && Scoped(t, rt, false, {}) ensures !SourceRun(t, rt, store, fuel).c.Normal? {
        ShapeStops(s, t);
        StopsNeverNormal(t, false, rt, false, none, S.NoLoop, S.State(store, []), fuel);
      }
    } else {
      PassingShape(s, rt, false, {});
      var store := Store(map[], []);
      PassingPasses(s, false, rt, none, S.NoLoop, S.State(store, []), 1);
      assert SourceRun(Passing(s), rt, store, 1).c.Normal?;
    }
  }

  /** A return statement returns its values where a Go caller expects them: a Result's value first, its
      error last. */
  lemma ReturnRuns(kind: ReturnKind, eval: Store -> Evaluated, rt: ResultType, store: Store, fuel: nat)
    requires eval(store).outcome.Done?
    ensures var vs, c := eval(store).values, GoRun(S.Return(kind, eval), rt, store, fuel).c;
            && (rt.Void? && kind.ReturnVoid? && vs == [] ==> c == Returning([]))
            && (rt.Plain? && kind.ReturnValue? && |vs| == 1 && (vs[0] != Nil || rt.zero == Nil) ==> c == Returning(vs))
            && (rt.Many? && kind.ReturnMany? && |vs| == rt.arity ==> c == Returning(vs))
            && (rt.ResultVoid? && kind.ReturnOk? && vs == [] ==> c == Returning([Nil]))
            && (rt.ResultVoid? && (kind.ReturnFail? || kind.ReturnForward?) && |vs| == 1 ==> c == Returning(vs))
            && (rt.ResultOf? && kind.ReturnOk? && |vs| == 1 && (vs[0] != Nil || rt.zero == Nil) ==> c == Returning([vs[0], Nil]))
            && (rt.ResultOf? && kind.ReturnFail? && |vs| == 1 ==> c == Returning([rt.zero, vs[0]]))
            && (rt.ResultOf? && kind.ReturnForward? && |vs| == 2 && (vs[0] != Nil || rt.zero == Nil) ==> c == Returning(vs))
  {
    var g := State(store, [], [], []);
    InvokeRuns(Lower(S.Return(kind, eval), false, rt), map[], NoYield, g, fuel);
  }
}
