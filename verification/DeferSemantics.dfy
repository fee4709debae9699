/** Function-scoped deferred calls: the plain Go fold, and the chunked form as functions. */
module DeferSemantics {
  import opened Completions

  datatype Ending = Normal | Panicking(p: Raised) | Exiting(pending: Option<Raised>)

  datatype Called = Called(store: Store, recovers: bool, ending: Ending)

  /** A deferred call: what it does depends on the store and on the panic it could recover. */
  type Call = (Store, Option<Raised>) -> Called

  /** One call that ran: its place among the registered calls, the panic pending when it started, and what
      it did. */
  datatype Sight = Sight(index: nat, pending: Option<Raised>, did: Called)

  datatype Ran = Ran(store: Store, ending: Ending, seen: seq<Sight>)

  function PanicOf(e: Ending): Option<Raised> {
    match e
    case Normal => None
    case Panicking(p) => Some(p)
    case Exiting(pending) => pending
  }

  /** Completion of a function after one of its deferred calls. */
  function Unwound(pending: Ending, recovered: bool, d: Ending): Ending {
    var left :=
      if !recovered then pending
      else if pending.Exiting? then Exiting(None)
      else Normal;
    match d
    case Normal => left
    case Panicking(p) => if left.Exiting? then Exiting(Some(p)) else d
    case Exiting(_) => d
  }

  /** Go: the calls registered from `start` on, newest first, over the pending completion. */
  function PlainGo(calls: seq<Call>, start: nat, pending: Ending, st: Store): Ran
    decreases |calls|
  {
    if calls == [] then Ran(st, pending, []) else
    var n := |calls| - 1;
    var c := calls[n](st, PanicOf(pending));
    var rest := PlainGo(calls[..n], start, Unwound(pending, c.recovers, c.ending), c.store);
    Ran(rest.store, rest.ending, [Sight(start + n, PanicOf(pending), c)] + rest.seen)
  }

  /** Running all of a list is running its newest part and then the rest. */
  lemma {:induction false} PlainGoSplits(older: seq<Call>, newer: seq<Call>, start: nat, pending: Ending, st: Store)
    ensures var first := PlainGo(newer, start + |older|, pending, st);
            var rest := PlainGo(older, start, first.ending, first.store);
            PlainGo(older + newer, start, pending, st) == Ran(rest.store, rest.ending, first.seen + rest.seen)
    decreases |newer|
  {
    if newer == [] {
      assert older + newer == older;
      assert [] + PlainGo(older, start, pending, st).seen == PlainGo(older, start, pending, st).seen;
    } else {
      var n := |newer| - 1;
      var c := newer[n](st, PanicOf(pending));
      var p := Unwound(pending, c.recovers, c.ending);
      assert (older + newer)[..|older + newer| - 1] == older + newer[..n];
      PlainGoSplits(older, newer[..n], start, p, c.store);
      var sight := Sight(start + |older| + n, PanicOf(pending), c);
      var first := PlainGo(newer[..n], start + |older|, p, c.store);
      var rest := PlainGo(older, start, first.ending, first.store);
      assert [sight] + (first.seen + rest.seen) == ([sight] + first.seen) + rest.seen;
    }
  }

  // ----- the frame -----

  /** What recover() answers, and what panic() raises again for it. */
  function Answer(p: Raised): Option<Raised> {
    if p.NilPanic? then None else Some(p)
  }

  function Again(value: Option<Raised>): Raised {
    if value.Some? then value.value else NilPanic
  }

  datatype Frame = Frame(panicked: bool, value: Option<Raised>)

  function Carried(f: Frame): Ending {
    if f.panicked then Panicking(Again(f.value)) else Normal
  }

  datatype Nesting = Nesting(store: Store, ending: Ending, seen: seq<Sight>, depth: nat)

  /** next(index): every call defers the user's call around the ones registered after it. */
  function Next(calls: seq<Call>, index: nat, end: nat, f: Frame, st: Store): Nesting
    requires index <= end <= |calls|
    decreases end - index
  {
    if index == end then Nesting(st, Carried(f), [], 1) else
    var inner := Next(calls, index + 1, end, f, st);
    var c := calls[index](inner.store, PanicOf(inner.ending));
    Nesting(c.store, Unwound(inner.ending, c.recovers, c.ending), inner.seen + [Sight(index, PanicOf(inner.ending), c)], inner.depth + 1)
  }

  datatype Chunk = Chunk(store: Store, frame: Frame, exits: bool, seen: seq<Sight>, depth: nat)

  /** runChunk: recover what the chunk ended with; if it exits, forget it. */
  function ChunkRun(calls: seq<Call>, start: nat, end: nat, f: Frame, st: Store): Chunk
    requires start <= end <= |calls|
  {
    var r := Next(calls, start, end, f, st);
    match r.ending
    case Normal => Chunk(r.store, Frame(false, None), false, r.seen, r.depth)
    case Panicking(p) => Chunk(r.store, Frame(true, Answer(p)), false, r.seen, r.depth)
    case Exiting(pending) =>
      Chunk(r.store, Frame(false, if pending.Some? then Answer(pending.value) else None), true, r.seen, r.depth)
  }

  const SIZE: nat := 64

  /** Where the newest chunk of the first `n` calls starts. */
  function NewestStart(n: nat): (start: nat)
    requires n > 0
    ensures start < n <= start + SIZE && start % SIZE == 0
  {
    (n - 1) / SIZE * SIZE
  }

  /** The deferred chunks of the first `n` calls, newest first; `exits` when a chunk called Goexit. */
  function ChunksRun(calls: seq<Call>, n: nat, f: Frame, exits: bool, st: Store): Chunk
    requires n <= |calls|
    decreases n
  {
    if n == 0 then Chunk(st, f, exits, [], 0) else
    var first := ChunkRun(calls, NewestStart(n), n, f, st);
    var rest := ChunksRun(calls, NewestStart(n), first.frame, exits || first.exits, first.store);
    Chunk(rest.store, rest.frame, rest.exits, first.seen + rest.seen, if first.depth > rest.depth then first.depth else rest.depth)
  }

  /** The end of a function whose own completion is an exit or not. */
  function Lift(exits: bool, c: Ending): Ending {
    if exits && !c.Exiting? then Exiting(PanicOf(c)) else c
  }

  /** run: all chunks, then the frame's panic is raised again. */
  function FrameRun(calls: seq<Call>, f: Frame, exits: bool, st: Store): Ran {
    var r := ChunksRun(calls, |calls|, f, exits, st);
    Ran(r.store, Lift(r.exits, Carried(r.frame)), r.seen)
  }
}

/** The chunked form against the plain fold. */
module DeferTheorems {
  import opened Completions
  import opened DeferSemantics

  // ----- one chunk -----

  /** The nested form of a chunk runs its calls as Go would. */
  lemma {:induction false} NextIsPlainGo(calls: seq<Call>, index: nat, end: nat, f: Frame, st: Store)
    requires index <= end <= |calls|
    ensures var r := Next(calls, index, end, f, st);
            PlainGo(calls[index..end], index, Carried(f), st) == Ran(r.store, r.ending, r.seen)
    decreases end - index
  {
    if index < end {
      NextIsPlainGo(calls, index + 1, end, f, st);
      var older, newer := calls[index..index + 1], calls[index + 1..end];
      assert calls[index..end] == older + newer;
      PlainGoSplits(older, newer, index, Carried(f), st);
      assert older[..0] == [];
    }
  }

  lemma {:induction false} NextDepth(calls: seq<Call>, index: nat, end: nat, f: Frame, st: Store)
    requires index <= end <= |calls|
    ensures Next(calls, index, end, f, st).depth == end - index + 1
    decreases end - index
  {
    if index < end { NextDepth(calls, index + 1, end, f, st); }
  }

  lemma LiftUnwinds(exits: bool, c: Ending, recovered: bool, d: Ending)
    ensures Lift(exits, Unwound(c, recovered, d)) == Unwound(Lift(exits, c), recovered, d)
    ensures PanicOf(Lift(exits, c)) == PanicOf(c)
  {
  }

  /** Calls do not notice that the function around them is exiting. */
  lemma {:induction false} LiftRuns(calls: seq<Call>, start: nat, c: Ending, exits: bool, st: Store)
    ensures var r := PlainGo(calls, start, c, st);
            PlainGo(calls, start, Lift(exits, c), st) == Ran(r.store, Lift(exits, r.ending), r.seen)
    decreases |calls|
  {
    if calls != [] {
      var n := |calls| - 1;
      var e := calls[n](st, PanicOf(c));
      LiftUnwinds(exits, c, e.recovers, e.ending);
      LiftRuns(calls[..n], start, Unwound(c, e.recovers, e.ending), exits, e.store);
    }
  }

  /** A chunk loses a panic that is pending while it exits, and nothing else. */
  predicate Loses(calls: seq<Call>, start: nat, end: nat, f: Frame, st: Store)
    requires start <= end <= |calls|
  {
    var e := Next(calls, start, end, f, st).ending;
    e.Exiting? && e.pending.Some?
  }

  lemma ChunkIsPlainGo(calls: seq<Call>, start: nat, end: nat, f: Frame, exits: bool, st: Store)
    requires start <= end <= |calls|
    ensures var r := ChunkRun(calls, start, end, f, st);
            var plain := PlainGo(calls[start..end], start, Lift(exits, Carried(f)), st);
            && plain.store == r.store && plain.seen == r.seen
            && plain.ending.Exiting? == (exits || r.exits)
            && (plain.ending == Lift(exits || r.exits, Carried(r.frame)) <==> !Loses(calls, start, end, f, st))
            && (Loses(calls, start, end, f, st) ==> PanicOf(plain.ending).Some? && !r.frame.panicked)
  {
    NextIsPlainGo(calls, start, end, f, st);
    LiftRuns(calls[start..end], start, Carried(f), exits, st);
  }

  // ----- all chunks -----

  /** Some chunk loses a panic. */
  predicate SomeChunkLoses(calls: seq<Call>, n: nat, f: Frame, st: Store)
    requires n <= |calls|
    decreases n
  {
    n > 0 &&
    var r := ChunkRun(calls, NewestStart(n), n, f, st);
    Loses(calls, NewestStart(n), n, f, st) || SomeChunkLoses(calls, NewestStart(n), r.frame, r.store)
  }

  function Finished(r: Chunk): Ran {
    Ran(r.store, Lift(r.exits, Carried(r.frame)), r.seen)
  }

  lemma SplitNewest(calls: seq<Call>, n: nat, pending: Ending, st: Store)
    requires 0 < n <= |calls|
    ensures var k := NewestStart(n);
            var first := PlainGo(calls[k..n], k, pending, st);
            var rest := PlainGo(calls[..k], 0, first.ending, first.store);
            PlainGo(calls[..n], 0, pending, st) == Ran(rest.store, rest.ending, first.seen + rest.seen)
  {
    var k := NewestStart(n);
    assert calls[..n] == calls[..k] + calls[k..n];
    PlainGoSplits(calls[..k], calls[k..n], 0, pending, st);
  }

  /** Running in chunks gives every call the panic it would see in Go, and the same store and
      completion, exactly when no chunk ends exiting with a panic still pending. */
  lemma {:induction false} ChunksArePlainGo(calls: seq<Call>, n: nat, f: Frame, exits: bool, st: Store)
    requires n <= |calls|
    ensures Finished(ChunksRun(calls, n, f, exits, st)) == PlainGo(calls[..n], 0, Lift(exits, Carried(f)), st)
            <==> !SomeChunkLoses(calls, n, f, st)
    decreases n
  {
    if n > 0 {
      var k := NewestStart(n);
      SplitNewest(calls, n, Lift(exits, Carried(f)), st);
      ChunkIsPlainGo(calls, k, n, f, exits, st);
      var r := ChunkRun(calls, k, n, f, st);
      var plain := PlainGo(calls[k..n], k, Lift(exits, Carried(f)), st);
      var rest := ChunksRun(calls, k, r.frame, exits || r.exits, r.store);
      var plainRest := PlainGo(calls[..k], 0, plain.ending, plain.store);
      SameTail(r.seen, rest.seen, plainRest.seen);
      if Loses(calls, k, n, f, st) {
        LossShows(calls, k, r.frame, exits || r.exits, r.store, plain.ending);
      } else {
        ChunksArePlainGo(calls, k, r.frame, exits || r.exits, r.store);
      }
    }
  }

  lemma SameTail(first: seq<Sight>, a: seq<Sight>, b: seq<Sight>)
    ensures first + a == first + b <==> a == b
  {
    if first + a == first + b {
      assert a == (first + a)[|first|..] && b == (first + b)[|first|..];
    }
  }

  /** A lost panic is missed by the next older call, or by the caller when there is none. */
  lemma LossShows(calls: seq<Call>, n: nat, f: Frame, exits: bool, st: Store, pending: Ending)
    requires n <= |calls| && !f.panicked && PanicOf(pending).Some?
    ensures Finished(ChunksRun(calls, n, f, exits, st)) != PlainGo(calls[..n], 0, pending, st)
  {
    if n > 0 {
      var k := NewestStart(n);
      var r := ChunkRun(calls, k, n, f, st);
      FirstSight(calls, k, n, f, st);
      var seen := PlainGo(calls[..n], 0, pending, st).seen;
      assert seen[0].pending == PanicOf(pending);
      assert ChunksRun(calls, n, f, exits, st).seen[0] == r.seen[0];
    }
  }

  lemma {:induction false} FirstSight(calls: seq<Call>, index: nat, end: nat, f: Frame, st: Store)
    requires index < end <= |calls|
    ensures var seen := Next(calls, index, end, f, st).seen;
            seen != [] && seen[0].index == end - 1 && seen[0].pending == PanicOf(Carried(f))
    decreases end - index
  {
    if index + 1 < end { FirstSight(calls, index + 1, end, f, st); }
  }

  /** Whatever the calls do, each runs exactly once, newest first, and nesting never exceeds a chunk. */
  lemma {:induction false} EachCallRunsOnce(calls: seq<Call>, n: nat, f: Frame, exits: bool, st: Store)
    requires n <= |calls|
    ensures var r := ChunksRun(calls, n, f, exits, st);
            |r.seen| == n && (forall i :: 0 <= i < n ==> r.seen[i].index == n - 1 - i) && r.depth <= 65
    decreases n
  {
    if n > 0 {
      var k := NewestStart(n);
      var r := ChunkRun(calls, k, n, f, st);
      NextRunsOnce(calls, k, n, f, st);
      NextDepth(calls, k, n, f, st);
      EachCallRunsOnce(calls, k, r.frame, exits || r.exits, r.store);
    }
  }

  lemma {:induction false} NextRunsOnce(calls: seq<Call>, index: nat, end: nat, f: Frame, st: Store)
    requires index <= end <= |calls|
    ensures var seen := Next(calls, index, end, f, st).seen;
            |seen| == end - index && forall i :: 0 <= i < |seen| ==> seen[i].index == end - 1 - i
    decreases end - index
  {
    if index < end { NextRunsOnce(calls, index + 1, end, f, st); }
  }

  /** No panic is lost unless a deferred call itself exits. */
  lemma {:induction false} NoExitNoLoss(calls: seq<Call>, n: nat, f: Frame, st: Store)
    requires n <= |calls|
    requires forall i, s, p :: 0 <= i < n ==> !calls[i](s, p).ending.Exiting?
    ensures !SomeChunkLoses(calls, n, f, st)
    decreases n
  {
    if n > 0 {
      var k := NewestStart(n);
      NoExitNext(calls, k, n, f, st);
      NoExitNoLoss(calls, k, ChunkRun(calls, k, n, f, st).frame, ChunkRun(calls, k, n, f, st).store);
    }
  }

  lemma {:induction false} NoExitNext(calls: seq<Call>, index: nat, end: nat, f: Frame, st: Store)
    requires index <= end <= |calls|
    requires forall i, s, p :: 0 <= i < end ==> !calls[i](s, p).ending.Exiting?
    ensures !Next(calls, index, end, f, st).ending.Exiting?
    decreases end - index
  {
    if index < end { NoExitNext(calls, index + 1, end, f, st); }
  }

  // ----- how a function ends, by what its calls did -----

  /** The panic that an ending leaves pending. */
  predicate Leaves(e: Ending, p: Option<Raised>) {
    match p
    case None => e == Normal || e == Exiting(None)
    case Some(q) => e == Panicking(q) || e == Exiting(p)
  }

  /** A call that neither recovers nor raises nor exits. */
  predicate Passes(d: Called) {
    d.ending.Normal? && !d.recovers
  }

  /** What the last call left that did not merely pass, or else what was there at first. A call that
      recovers and ends normally leaves a normal end. */
  function LastToAct(start: Ending, seen: seq<Sight>): Ending {
    if seen == [] then start
    else if Passes(seen[|seen| - 1].did) then LastToAct(start, seen[..|seen| - 1])
    else seen[|seen| - 1].did.ending
  }

  predicate SomeExits(seen: seq<Sight>) {
    exists i :: 0 <= i < |seen| && seen[i].did.ending.Exiting?
  }

  /** The completion of a function whose body ended as `start`: an exit if there was any, with the panic
      that is pending at last. */
  ghost predicate EndsAs(start: Ending, seen: seq<Sight>, e: Ending) {
    && (e.Exiting? <==> start.Exiting? || SomeExits(seen))
    && (forall p :: Leaves(e, p) ==> Leaves(LastToAct(start, seen), p))
  }

  /** Each call saw the panic pending when it started. */
  predicate SawPending(start: Ending, seen: seq<Sight>) {
    forall i :: 0 <= i < |seen| ==> Leaves(LastToAct(start, seen[..i]), seen[i].pending)
  }

  lemma UnwoundLeaves(start: Ending, d: Called, p: Option<Raised>)
    requires Leaves(Unwound(start, d.recovers, d.ending), p)
    ensures Leaves(if Passes(d) then start else d.ending, p)
  {
  }

  lemma {:induction false} LastFromFront(start: Ending, first: Sight, rest: seq<Sight>)
    ensures LastToAct(start, [first] + rest) == LastToAct(if Passes(first.did) then start else first.did.ending, rest)
  {
    var all, n := [first] + rest, |rest|;
    if n == 0 {
      assert all[..n] == [];
    } else {
      assert all[..n] == [first] + rest[..n - 1] && all[n] == rest[n - 1];
      LastFromFront(start, first, rest[..n - 1]);
    }
  }

  lemma {:induction false} LastLeaves(a: Ending, b: Ending, seen: seq<Sight>, p: Option<Raised>)
    requires Leaves(a, p) ==> Leaves(b, p)
    ensures Leaves(LastToAct(a, seen), p) ==> Leaves(LastToAct(b, seen), p)
  {
    if seen != [] { LastLeaves(a, b, seen[..|seen| - 1], p); }
  }

  lemma OneEarlier(start: Ending, first: Sight, rest: seq<Sight>, p: Option<Raised>)
    requires Leaves(LastToAct(Unwound(start, first.did.recovers, first.did.ending), rest), p)
    ensures Leaves(LastToAct(start, [first] + rest), p)
  {
    hide Leaves, Unwound, LastToAct;
    var left := Unwound(start, first.did.recovers, first.did.ending);
    LastFromFront(start, first, rest);
    if Leaves(left, p) { UnwoundLeaves(start, first.did, p); }
    LastLeaves(left, if Passes(first.did) then start else first.did.ending, rest, p);
  }

  /** Plain Go ends, and shows its calls, the panics they leave. */
  lemma {:induction false} PlainGoEnds(calls: seq<Call>, start: nat, pending: Ending, st: Store)
    ensures var r := PlainGo(calls, start, pending, st);
            EndsAs(pending, r.seen, r.ending) && SawPending(pending, r.seen)
    decreases |calls|
  {
    hide EndsAs, SawPending, Unwound;
    if calls == [] {
      NothingEnds(pending);
    } else {
      var n := |calls| - 1;
      var c := calls[n](st, PanicOf(pending));
      var next := Unwound(pending, c.recovers, c.ending);
      PlainGoEnds(calls[..n], start, next, c.store);
      OneMoreEnds(Sight(start + n, PanicOf(pending), c), PlainGo(calls[..n], start, next, c.store), pending);
    }
  }

  lemma NothingEnds(pending: Ending)
    ensures EndsAs(pending, [], pending) && SawPending(pending, [])
  {
  }

  lemma OneMoreEnds(first: Sight, rest: Ran, pending: Ending)
    requires first.pending == PanicOf(pending)
    requires EndsAs(Unwound(pending, first.did.recovers, first.did.ending), rest.seen, rest.ending)
    requires SawPending(Unwound(pending, first.did.recovers, first.did.ending), rest.seen)
    ensures EndsAs(pending, [first] + rest.seen, rest.ending) && SawPending(pending, [first] + rest.seen)
  {
    ExitsEarlier(pending, first, rest.seen);
    hide Leaves, LastToAct, Unwound, SomeExits;
    var all := [first] + rest.seen;
    forall p | Leaves(rest.ending, p) ensures Leaves(LastToAct(pending, all), p) { OneEarlier(pending, first, rest.seen, p); }
    forall i | 0 <= i < |all| ensures Leaves(LastToAct(pending, all[..i]), all[i].pending) {
      if i > 0 {
        assert all[..i] == [first] + rest.seen[..i - 1] && all[i] == rest.seen[i - 1];
        OneEarlier(pending, first, rest.seen[..i - 1], all[i].pending);
      } else {
        FirstSees(pending);
        assert all[..0] == [];
      }
    }
  }

  lemma ExitsEarlier(start: Ending, first: Sight, rest: seq<Sight>)
    ensures start.Exiting? || SomeExits([first] + rest) <==> Unwound(start, first.did.recovers, first.did.ending).Exiting? || SomeExits(rest)
  {
    var all := [first] + rest;
    if SomeExits(rest) {
      var i :| 0 <= i < |rest| && rest[i].did.ending.Exiting?;
      assert all[i + 1] == rest[i];
    }
    if first.did.ending.Exiting? { assert all[0] == first; }
    if SomeExits(all) {
      var i :| 0 <= i < |all| && all[i].did.ending.Exiting?;
      if i > 0 { assert all[i] == rest[i - 1]; }
    }
  }

  lemma FirstSees(pending: Ending)
    ensures Leaves(LastToAct(pending, []), PanicOf(pending))
  {
  }

  /** What is shown is what the calls did, newest first, each on the store that the one before it left. */
  predicate Shows(calls: seq<Call>, st: Store, seen: seq<Sight>, end: Store) {
    && |seen| == |calls| && end == StoreAfter(st, seen)
    && forall i :: 0 <= i < |calls| ==> seen[i].did == calls[|calls| - 1 - i](StoreAfter(st, seen[..i]), seen[i].pending)
  }

  function StoreAfter(st: Store, seen: seq<Sight>): Store {
    if seen == [] then st else seen[|seen| - 1].did.store
  }

  lemma StoresJoin(st: Store, first: seq<Sight>, rest: seq<Sight>)
    ensures StoreAfter(st, first + rest) == StoreAfter(StoreAfter(st, first), rest)
  {
    if rest == [] { assert first + rest == first; }
  }

  lemma ShowsTogether(older: seq<Call>, newer: seq<Call>, st: Store, first: seq<Sight>, mid: Store, rest: seq<Sight>, end: Store)
    requires Shows(newer, st, first, mid) && Shows(older, mid, rest, end)
    ensures Shows(older + newer, st, first + rest, end)
  {
    hide StoreAfter;
    var all, seen := older + newer, first + rest;
    StoresJoin(st, first, rest);
    forall i | 0 <= i < |all| ensures seen[i].did == all[|all| - 1 - i](StoreAfter(st, seen[..i]), seen[i].pending) {
      if i < |newer| {
        assert seen[..i] == first[..i] && all[|all| - 1 - i] == newer[|newer| - 1 - i];
      } else {
        var j := i - |newer|;
        assert seen[..i] == first + rest[..j] && all[|all| - 1 - i] == older[|older| - 1 - j];
        StoresJoin(st, first, rest[..j]);
      }
    }
  }

  lemma ShowsNone(st: Store)
    ensures Shows([], st, [], st)
  {
  }

  lemma ShowsOne(call: Call, st: Store, sight: Sight)
    requires sight.did == call(st, sight.pending)
    ensures Shows([call], st, [sight], sight.did.store)
  {
    assert [sight][..0] == [];
  }

  lemma {:induction false} PlainGoShows(calls: seq<Call>, start: nat, pending: Ending, st: Store)
    ensures var r := PlainGo(calls, start, pending, st); Shows(calls, st, r.seen, r.store)
    decreases |calls|
  {
    hide Shows, Unwound;
    if calls == [] {
      ShowsNone(st);
    } else {
      var n := |calls| - 1;
      var c := calls[n](st, PanicOf(pending));
      PlainGoShows(calls[..n], start, Unwound(pending, c.recovers, c.ending), c.store);
      var sight := Sight(start + n, PanicOf(pending), c);
      assert calls[..n] + [calls[n]] == calls;
      ShowsOne(calls[n], st, sight);
      var rest := PlainGo(calls[..n], start, Unwound(pending, c.recovers, c.ending), c.store);
      ShowsTogether(calls[..n], [calls[n]], st, [sight], c.store, rest.seen, rest.store);
    }
  }

  // ----- the same for the chunked form -----

  lemma SomeExitsTogether(a: seq<Sight>, b: seq<Sight>)
    ensures SomeExits(a + b) <==> SomeExits(a) || SomeExits(b)
  {
    if SomeExits(a) {
      var i :| 0 <= i < |a| && a[i].did.ending.Exiting?;
      assert (a + b)[i] == a[i];
    }
    if SomeExits(b) {
      var i :| 0 <= i < |b| && b[i].did.ending.Exiting?;
      assert (a + b)[|a| + i] == b[i];
    }
  }

  lemma NoneExit()
    ensures !SomeExits([])
  {
  }

  lemma ChunkEnds(calls: seq<Call>, start: nat, end: nat, f: Frame, st: Store)
    requires start <= end <= |calls|
    ensures var r := ChunkRun(calls, start, end, f, st);
            && (r.exits <==> SomeExits(r.seen)) && (Loses(calls, start, end, f, st) ==> r.exits)
            && Shows(calls[start..end], st, r.seen, r.store)
  {
    NextIsPlainGo(calls, start, end, f, st);
    PlainGoEnds(calls[start..end], start, Carried(f), st);
    PlainGoShows(calls[start..end], start, Carried(f), st);
    hide LastToAct, SomeExits, Shows, PlainGo, Next;
  }

  lemma {:induction false} ChunksEnd(calls: seq<Call>, n: nat, f: Frame, exits: bool, st: Store)
    requires n <= |calls|
    ensures var r := ChunksRun(calls, n, f, exits, st);
            && (r.exits <==> exits || SomeExits(r.seen)) && (SomeChunkLoses(calls, n, f, st) ==> SomeExits(r.seen))
            && Shows(calls[..n], st, r.seen, r.store)
    decreases n
  {
    hide ChunkRun, SomeExits, Shows, Loses, NewestStart;
    if n == 0 {
      NoneExit();
      assert calls[..0] == [];
      ShowsNone(st);
    } else {
      var k := NewestStart(n);
      var first := ChunkRun(calls, k, n, f, st);
      var rest := ChunksRun(calls, k, first.frame, exits || first.exits, first.store);
      ChunkEnds(calls, k, n, f, st);
      ChunksEnd(calls, k, first.frame, exits || first.exits, first.store);
      SomeExitsTogether(first.seen, rest.seen);
      assert calls[..k] + calls[k..n] == calls[..n];
      ShowsTogether(calls[..k], calls[k..n], st, first.seen, first.store, rest.seen, rest.store);
    }
  }

  /** A frame shows what its calls did, and exits exactly when a call does. Unless a chunk loses a panic, and
      so whenever no call exits, it ends with the panic that its calls leave, and each call sees its own. */
  lemma FrameEnds(calls: seq<Call>, f: Frame, exits: bool, st: Store)
    ensures var r := FrameRun(calls, f, exits, st);
            && Shows(calls, st, r.seen, r.store) && (r.ending.Exiting? <==> exits || SomeExits(r.seen))
            && (!SomeChunkLoses(calls, |calls|, f, st) || !SomeExits(r.seen) ==>
                  EndsAs(Lift(exits, Carried(f)), r.seen, r.ending) && SawPending(Lift(exits, Carried(f)), r.seen))
  {
    hide SomeExits, Shows, EndsAs, SawPending;
    assert calls[..|calls|] == calls;
    ChunksEnd(calls, |calls|, f, exits, st);
    ChunksArePlainGo(calls, |calls|, f, exits, st);
    PlainGoEnds(calls, 0, Lift(exits, Carried(f)), st);
  }

  /** Two calls are enough to lose a panic: the newer exits, the older panics. Go ends the process
      with that panic; the chunked form ends the goroutine quietly. */
  lemma ExitLosesPanic(st: Store)
    ensures var panics: Call := (s, _) => Called(s, false, Panicking(Foreign(Num(1))));
            var exits: Call := (s, _) => Called(s, false, Exiting(None));
            && PlainGo([panics, exits], 0, Normal, st).ending == Exiting(Some(Foreign(Num(1))))
            && FrameRun([panics, exits], Frame(false, None), false, st).ending == Exiting(None)
  {
    var panics: Call := (s, _) => Called(s, false, Panicking(Foreign(Num(1))));
    var exits: Call := (s, _) => Called(s, false, Exiting(None));
    var calls := [panics, exits];
    assert calls[..1] == [panics];
    assert [panics][..0] == [];
    assert PlainGo([panics], 0, Exiting(None), st).ending == Exiting(Some(Foreign(Num(1))));
    assert NewestStart(2) == 0;
    assert Next(calls, 2, 2, Frame(false, None), st).ending == Normal;
    assert Next(calls, 1, 2, Frame(false, None), st).ending == Exiting(None);
    assert Next(calls, 0, 2, Frame(false, None), st).ending == Exiting(Some(Foreign(Num(1))));
  }
}
