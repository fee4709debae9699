/** The emitted frame object and the wrapper put around a callable whose defers cross a closure. */
module DeferRuntime {
  import opened Completions
  import opened DeferSemantics
  import opened DeferTheorems

  /** Pending chunks, oldest first, that together hold the first `n` calls. */
  predicate Stacked(chunks: seq<(nat, nat)>, n: nat) {
    && |chunks| == (n + SIZE - 1) / SIZE
    && forall i :: 0 <= i < |chunks| ==> chunks[i] == (SIZE * i, if SIZE * (i + 1) < n then SIZE * (i + 1) else n)
  }

  lemma TopOfStack(chunks: seq<(nat, nat)>, n: nat)
    requires Stacked(chunks, n) && n > 0
    ensures chunks != [] && chunks[|chunks| - 1] == (NewestStart(n), n) && Stacked(chunks[..|chunks| - 1], NewestStart(n))
  {
    assert |chunks| - 1 == (n - 1) / SIZE;
    var rest := chunks[..|chunks| - 1];
    assert NewestStart(n) == SIZE * |rest|;
    assert (NewestStart(n) + SIZE - 1) / SIZE == |rest|;
    forall i | 0 <= i < |rest| ensures rest[i] == (SIZE * i, if SIZE * (i + 1) < NewestStart(n) then SIZE * (i + 1) else NewestStart(n)) {
      assert SIZE * (i + 1) <= NewestStart(n);
      assert chunks[i] == (SIZE * i, if SIZE * (i + 1) < n then SIZE * (i + 1) else n);
    }
  }

  class DeferFrame {
    var calls: seq<Call>
    var panicked: bool
    var value: Option<Raised>

    function View(): Frame
      reads this`panicked, this`value
    {
      Frame(panicked, value)
    }

    constructor ()
      ensures calls == [] && View() == Frame(false, None)
    {
      calls, panicked, value := [], false, None;
    }

    method Append(call: Call)
      modifies this`calls
      ensures calls == old(calls) + [call]
    {
      calls := calls + [call];
    }

    /** The local closure of runChunk, with the thunk of each call: defer it, then go on to the next. */
    method Next(index: nat, end: nat, st: Store) returns (store: Store, ending: Ending, seen: seq<Sight>)
      requires index <= end <= |calls|
      ensures Ran(store, ending, seen) == PlainGo(calls[index..end], index, Carried(View()), st)
      decreases end - index
    {
      NextIsPlainGo(calls, index, end, View(), st);
      if index == end {
        return st, if panicked then Panicking(Again(value)) else Normal, [];
      }
      store, ending, seen := Next(index + 1, end, st);
      NextIsPlainGo(calls, index + 1, end, View(), st);
      var pending := PanicOf(ending);
      var call := calls[index](store, pending);
      store, ending, seen := call.store, Unwound(ending, call.recovers, call.ending), seen + [Sight(index, pending, call)];
    }

    method RunChunk(start: nat, end: nat, st: Store) returns (store: Store, exits: bool, seen: seq<Sight>)
      requires start <= end <= |calls|
      modifies this`panicked, this`value
      ensures var r := ChunkRun(calls, start, end, old(View()), st);
              store == r.store && exits == r.exits && seen == r.seen && View() == r.frame
    {
      NextIsPlainGo(calls, start, end, View(), st);
      var resumed, ending := false, Normal;
      store, ending, seen := Next(start, end, st);
      var completed := ending.Normal?;
      var pending := PanicOf(ending);
      value := if pending.Some? then Answer(pending.value) else None;
      panicked := !completed;
      resumed := !ending.Exiting?;
      if !resumed { panicked := false; }
      exits := !resumed;
    }

    method Run(st: Store) returns (r: Ran)
      modifies this`panicked, this`value
      ensures r == FrameRun(calls, old(View()), false, st)
    {
      var chunks: seq<(nat, nat)>, start := [], 0;
      while start < |calls|
        invariant start == SIZE * |chunks| && (|chunks| > 0 ==> start - SIZE < |calls|)
        invariant forall i :: 0 <= i < |chunks| ==> chunks[i] == (SIZE * i, if SIZE * (i + 1) < |calls| then SIZE * (i + 1) else |calls|)
      {
        var end := start + SIZE;
        if end > |calls| { end := |calls|; }
        chunks := chunks + [(start, end)];
        start := start + SIZE;
      }
      var store, exits, seen := Unwind(chunks, st);
      var ending := if panicked then Panicking(Again(value)) else Normal;
      r := Ran(store, Lift(exits, ending), seen);
    }

    /** Go runs the deferred chunks newest first, whether or not one of them exits. */
    method Unwind(deferred: seq<(nat, nat)>, st: Store) returns (store: Store, exits: bool, seen: seq<Sight>)
      requires Stacked(deferred, |calls|)
      modifies this`panicked, this`value
      ensures var r := ChunksRun(calls, |calls|, old(View()), false, st);
              store == r.store && exits == r.exits && seen == r.seen && View() == r.frame
    {
      var chunks := deferred;
      ghost var n: nat := |calls|;
      ghost var total := ChunksRun(calls, n, View(), false, st);
      store, exits, seen := st, false, [];
      while chunks != []
        invariant n <= |calls| && Stacked(chunks, n)
        invariant Onto(seen, ChunksRun(calls, n, View(), exits, store)) == Onto([], total)
        decreases |chunks|
      {
        TopOfStack(chunks, n);
        var (first, end) := chunks[|chunks| - 1];
        chunks := chunks[..|chunks| - 1];
        OntoNewest(calls, n, View(), exits, store, seen);
        var chunkExits, saw;
        store, chunkExits, saw := RunChunk(first, end, store);
        exits, seen := exits || chunkExits, seen + saw;
        n := first;
      }
      assert n == 0 && seen + [] == seen && [] + total.seen == total.seen;
    }
  }

  /** What has run so far, followed by what is still to run. */
  function Onto(seen: seq<Sight>, rest: Chunk): Chunk {
    rest.(seen := seen + rest.seen, depth := 0)
  }

  lemma OntoNewest(calls: seq<Call>, n: nat, f: Frame, exits: bool, st: Store, seen: seq<Sight>)
    requires 0 < n <= |calls|
    ensures var r := ChunkRun(calls, NewestStart(n), n, f, st);
            Onto(seen, ChunksRun(calls, n, f, exits, st)) == Onto(seen + r.seen, ChunksRun(calls, NewestStart(n), r.frame, exits || r.exits, r.store))
  {
    var r := ChunkRun(calls, NewestStart(n), n, f, st);
    var rest := ChunksRun(calls, NewestStart(n), r.frame, exits || r.exits, r.store);
    assert seen + (r.seen + rest.seen) == seen + r.seen + rest.seen;
  }

  // ----- the wrapper -----

  /** What the body of a callable did: the calls it registered, how it ended, and its results. */
  datatype BodyEnd = BodyEnd(store: Store, calls: seq<Call>, ending: Ending, results: seq<Value>)

  datatype Returned = Returned(ran: Ran, results: seq<Value>)

  /** Native Go: the calls run over the body's completion; a recovered function returns zero values. */
  function NativeReturn(b: BodyEnd, zeros: seq<Value>): Returned {
    var r := PlainGo(b.calls, 0, b.ending, b.store);
    Returned(r, if !r.ending.Normal? then [] else if b.ending.Normal? then b.results else zeros)
  }

  /** The frame as the supervisor leaves it for run. */
  function Supervised(e: Ending): Frame {
    if e.Panicking? then Frame(true, Answer(e.p)) else Frame(false, if PanicOf(e).Some? then Answer(PanicOf(e).value) else None)
  }

  /** A body that exits while a panic is pending: the supervisor's recover takes the panic away. */
  predicate BodyLoses(e: Ending) {
    e.Exiting? && e.pending.Some?
  }

  /** What a callable owes its caller: how its deferred calls leave it, and its own results if its body
      completed, or zero values if a deferred call recovered. */
  ghost predicate Settles(b: BodyEnd, zeros: seq<Value>, r: Returned) {
    && Shows(b.calls, b.store, r.ran.seen, r.ran.store) && EndsAs(b.ending, r.ran.seen, r.ran.ending) && SawPending(b.ending, r.ran.seen)
    && r.results == if !r.ran.ending.Normal? then [] else if b.ending.Normal? then b.results else zeros
  }

  /** The wrapper's flags and its two calls of run. */
  method Wrapper(body: Store -> BodyEnd, zeros: seq<Value>, st: Store) returns (r: Returned)
    ensures var b := body(st);
            r == NativeReturn(b, zeros) <==> !BodyLoses(b.ending) && !SomeChunkLoses(b.calls, |b.calls|, Supervised(b.ending), b.store)
    ensures var seen := r.ran.seen;
            |seen| == |body(st).calls| && forall i :: 0 <= i < |seen| ==> seen[i].index == |seen| - 1 - i
    ensures var b := body(st);
            && (r.ran.ending.Exiting? <==> b.ending.Exiting? || SomeExits(r.ran.seen))
            && (!r.ran.ending.Exiting? || (!BodyLoses(b.ending) && !SomeChunkLoses(b.calls, |b.calls|, Supervised(b.ending), b.store)) ==>
                  Settles(b, zeros, r))
  {
    var results := zeros;
    var frame := new DeferFrame();
    var resumed := false;
    var b := body(st);
    frame.calls := b.calls;
    var completed := b.ending.Normal?;
    if completed { results := b.results; }
    frame.value := if PanicOf(b.ending).Some? then Answer(PanicOf(b.ending).value) else None;
    frame.panicked := !completed;
    var ran;
    if !b.ending.Exiting? {
      resumed := true;
      ran := frame.Run(b.store);
    }
    if !resumed {
      frame.panicked := false;
      ran := frame.Run(b.store);
      ran := ran.(ending := Lift(true, ran.ending));
    }
    r := Returned(ran, if ran.ending.Normal? then results else []);
    assert ran == FrameRun(b.calls, Supervised(b.ending), b.ending.Exiting?, b.store) by {
      ExitsThrough(b.calls, |b.calls|, Supervised(b.ending), b.store);
    }
    EachCallRunsOnce(b.calls, |b.calls|, Supervised(b.ending), b.ending.Exiting?, b.store);
    WrapperIsNative(b);
    WrapperSettles(b);
  }

  lemma WrapperSettles(b: BodyEnd)
    ensures var r := FrameRun(b.calls, Supervised(b.ending), b.ending.Exiting?, b.store);
            && Shows(b.calls, b.store, r.seen, r.store) && (r.ending.Exiting? <==> b.ending.Exiting? || SomeExits(r.seen))
            && (!r.ending.Exiting? || (!BodyLoses(b.ending) && !SomeChunkLoses(b.calls, |b.calls|, Supervised(b.ending), b.store)) ==>
                  EndsAs(b.ending, r.seen, r.ending) && SawPending(b.ending, r.seen))
  {
    hide SomeExits, Shows, EndsAs, SawPending, FrameRun;
    FrameEnds(b.calls, Supervised(b.ending), b.ending.Exiting?, b.store);
    assert !BodyLoses(b.ending) ==> Lift(b.ending.Exiting?, Carried(Supervised(b.ending))) == b.ending;
  }

  /** The surrounding exit changes nothing for the calls. */
  lemma {:induction false} ExitsThrough(calls: seq<Call>, n: nat, f: Frame, st: Store)
    requires n <= |calls|
    ensures ChunksRun(calls, n, f, true, st) == ChunksRun(calls, n, f, false, st).(exits := true)
    decreases n
  {
    if n > 0 {
      var r := ChunkRun(calls, NewestStart(n), n, f, st);
      ExitsThrough(calls, NewestStart(n), r.frame, r.store);
    }
  }

  /** The supervisor's own recover loses a panic only when the body exits with one pending. */
  lemma WrapperIsNative(b: BodyEnd)
    ensures FrameRun(b.calls, Supervised(b.ending), b.ending.Exiting?, b.store) == PlainGo(b.calls, 0, b.ending, b.store)
            <==> !BodyLoses(b.ending) && !SomeChunkLoses(b.calls, |b.calls|, Supervised(b.ending), b.store)
  {
    var n := |b.calls|;
    assert b.calls[..n] == b.calls;
    if BodyLoses(b.ending) {
      LossShows(b.calls, n, Supervised(b.ending), true, b.store, b.ending);
    } else {
      ChunksArePlainGo(b.calls, n, Supervised(b.ending), b.ending.Exiting?, b.store);
    }
  }
}
