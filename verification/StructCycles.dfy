/** By-value fields of C structs: a manifest is rejected exactly when they form a cycle. */
module StructCycles {

  /** The field types of each struct; types that are no structs have no entry. */
  type Structs = map<string, seq<string>>

  predicate Field(g: Structs, a: string, b: string) {
    a in g && b in g && b in g[a]
  }

  predicate Path(g: Structs, p: seq<string>) {
    && (forall i :: 0 <= i < |p| ==> p[i] in g)
    && (forall i :: 0 < i < |p| ==> Field(g, p[i - 1], p[i]))
  }

  predicate Cycle(g: Structs, p: seq<string>) {
    |p| >= 2 && p[0] == p[|p| - 1] && Path(g, p)
  }

  /** Each struct comes after the structs it holds, and only once. */
  ghost predicate Finished(g: Structs, done: seq<string>) {
    && (forall i :: 0 <= i < |done| ==> done[i] in g)
    && (forall i, f :: 0 <= i < |done| && Field(g, done[i], f) ==> f in done[..i])
    && (forall i, j :: 0 <= i < j < |done| ==> done[i] != done[j])
  }

  lemma {:induction false} PathDescends(g: Structs, done: seq<string>, p: seq<string>, i: nat)
    requires Finished(g, done) && i < |done| && |p| >= 2 && Path(g, p) && p[0] == done[i]
    ensures p[|p| - 1] in done[..i]
    decreases |p|
  {
    assert Field(g, p[0], p[1]);
    if |p| > 2 {
      var j: nat :| j < i && done[..i][j] == p[1];
      assert Path(g, p[1..]);
      PathDescends(g, done, p[1..], j);
    }
  }

  lemma NoCycleLeft(g: Structs, done: seq<string>, p: seq<string>)
    requires Finished(g, done) && (forall n :: n in g ==> n in done)
    ensures !Cycle(g, p)
  {
    if Cycle(g, p) {
      var i: nat :| i < |done| && done[i] == p[0];
      PathDescends(g, done, p, i);
      assert false;
    }
  }

  lemma StackCycle(g: Structs, stack: seq<string>, name: string) returns (p: seq<string>)
    requires Path(g, stack) && name in stack && Field(g, stack[|stack| - 1], name)
    ensures Cycle(g, p)
  {
    var i: nat :| i < |stack| && stack[i] == name;
    p := stack[i..] + [name];
    forall k | 0 < k < |p| ensures Field(g, p[k - 1], p[k]) {
      if k < |p| - 1 { assert Field(g, stack[i + k - 1], stack[i + k]); }
    }
  }

  lemma FinishOne(g: Structs, done: seq<string>, name: string)
    requires Finished(g, done) && name in g && name !in done && forall f :: f in g[name] && f in g ==> f in done
    ensures Finished(g, done + [name])
  {
    var next := done + [name];
    forall i, f | 0 <= i < |next| && Field(g, next[i], f) ensures f in next[..i] {
      if i < |done| {
        assert Field(g, done[i], f) && next[..i] == done[..i];
      } else {
        assert next[..i] == done;
      }
    }
  }

  const VISITING: nat := 1
  const VISITED: nat := 2

  function Colour(state: map<string, nat>, name: string): nat {
    if name in state then state[name] else 0
  }

  /** The structs being visited are the stack of calls, the visited ones are finished. */
  ghost predicate Coloured(g: Structs, state: map<string, nat>, done: seq<string>, stack: seq<string>) {
    && state.Keys <= g.Keys && Path(g, stack) && Finished(g, done)
    && (forall n :: n in state ==> state[n] == VISITING || state[n] == VISITED)
    && (forall n :: Colour(state, n) == VISITING <==> n in stack)
    && (forall n :: Colour(state, n) == VISITED <==> n in done)
  }

  lemma Enter(g: Structs, state: map<string, nat>, done: seq<string>, stack: seq<string>, name: string)
    requires Coloured(g, state, done, stack) && name in g && (stack != [] ==> Field(g, stack[|stack| - 1], name))
    requires Colour(state, name) != VISITING && Colour(state, name) != VISITED
    ensures name !in state && Coloured(g, state[name := VISITING], done, stack + [name])
  {
  }

  lemma Leave(g: Structs, state: map<string, nat>, done: seq<string>, stack: seq<string>, name: string)
    requires Coloured(g, state, done, stack + [name]) && name in g && name !in stack
    requires forall f :: f in g[name] && f in g ==> f in done
    ensures Coloured(g, state[name := VISITED], done + [name], stack)
  {
    var inner := stack + [name];
    assert inner[|inner| - 1] == name;
    assert Colour(state, name) == VISITING && name !in done;
    FinishOne(g, done, name);
    assert Path(g, stack) by {
      assert forall k :: 0 <= k < |stack| ==> stack[k] == inner[k];
    }
    assert forall n :: n in inner <==> n in stack || n == name;
    assert forall n :: n in done + [name] <==> n in done || n == name;
    hide Path, Finished;
  }

  class CycleCheck {
    const structs: Structs
    var state: map<string, nat>
    ghost var done: seq<string>

    constructor (structs: Structs)
      ensures this.structs == structs && Valid([]) && state == map[]
    {
      this.structs, state, done := structs, map[], [];
    }

    ghost predicate Valid(stack: seq<string>)
      reads this
    {
      Coloured(structs, state, done, stack)
    }

    method Visit(name: string, ghost stack: seq<string>) returns (cyclic: bool)
      requires Valid(stack) && name in structs && (stack != [] ==> Field(structs, stack[|stack| - 1], name))
      modifies this
      ensures cyclic ==> exists p :: Cycle(structs, p)
      ensures !cyclic ==> Valid(stack) && name in done && old(done) <= done && old(state.Keys) <= state.Keys
      decreases structs.Keys - state.Keys
    {
      if Colour(state, name) == VISITING {
        ghost var p := StackCycle(structs, stack, name);
        return true;
      }
      if Colour(state, name) == VISITED { return false; }
      Enter(structs, state, done, stack, name);
      hide Coloured;
      state := state[name := VISITING];
      ghost var inner := stack + [name];
      var fields := structs[name];
      for i := 0 to |fields|
        invariant Valid(inner) && old(done) <= done && old(state.Keys) + {name} <= state.Keys
        invariant forall k :: 0 <= k < i && fields[k] in structs ==> fields[k] in done
      {
        if fields[i] in structs {
          ghost var before := done;
          var failed := Visit(fields[i], inner);
          if failed { return true; }
          assert forall n :: n in before ==> n in done;
        }
      }
      Leave(structs, state, done, stack, name);
      state, done := state[name := VISITED], done + [name];
      return false;
    }
  }

  /** validateCFFIStructCycles: visit every struct, in whatever order the map gives them. */
  method Validate(structs: Structs) returns (rejected: bool)
    ensures rejected <==> exists p :: Cycle(structs, p)
  {
    var check := new CycleCheck(structs);
    var left := structs.Keys;
    while left != {}
      invariant check.structs == structs && check.Valid([]) && left <= structs.Keys
      invariant forall n :: n in structs && n !in left ==> n in check.done
      decreases |left|
    {
      var name :| name in left;
      left := left - {name};
      ghost var before := check.done;
      var cyclic := check.Visit(name, []);
      if cyclic { return true; }
      assert forall n :: n in before ==> n in check.done;
    }
    forall p ensures !Cycle(structs, p) { NoCycleLeft(structs, check.done, p); }
    return false;
  }
}
