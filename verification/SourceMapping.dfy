/** Source-map extraction: marker lines are taken out of generated text, and every token keeps its
    innermost mark. Positions are token numbers of the clean text. */
module SourceMapping {
  import opened Completions

  /** A token, or a marker line; `Malformed` is a marker that does not decode or does not stand alone. */
  datatype Item = Real(token: int) | Start(span: nat) | End(span: nat) | Malformed

  datatype Token = Token(token: int, origin: Option<nat>)

  /** A half-open range of tokens and the source it comes from. */
  datatype Mapping = Mapping(first: nat, end: nat, source: nat)

  // ----- marked statement trees -----

  datatype Node = Leaf(token: int) | Marked(span: nat, body: Nodes)
  datatype Nodes = Empty | Cons(head: Node, tail: Nodes)

  /** markSourceStatements around each marked node. */
  function Render(ns: Nodes): seq<Item> {
    match ns
    case Empty => []
    case Cons(Leaf(t), rest) => [Real(t)] + Render(rest)
    case Cons(Marked(span, body), rest) => [Start(span)] + Render(body) + [End(span)] + Render(rest)
  }

  /** The tokens of a tree without its marks. */
  function Plain(ns: Nodes): seq<int> {
    match ns
    case Empty => []
    case Cons(Leaf(t), rest) => [t] + Plain(rest)
    case Cons(Marked(_, body), rest) => Plain(body) + Plain(rest)
  }

  /** Each token with the innermost mark around it. */
  function Innermost(ns: Nodes, outer: Option<nat>): seq<Token> {
    match ns
    case Empty => []
    case Cons(Leaf(t), rest) => [Token(t, outer)] + Innermost(rest, outer)
    case Cons(Marked(span, body), rest) => Innermost(body, Some(span)) + Innermost(rest, outer)
  }

  lemma {:induction false} InnermostIsPlain(ns: Nodes, outer: Option<nat>)
    ensures |Innermost(ns, outer)| == |Plain(ns)|
    ensures forall i :: 0 <= i < |Plain(ns)| ==> Innermost(ns, outer)[i].token == Plain(ns)[i]
  {
    match ns
    case Empty =>
    case Cons(Leaf(t), rest) => InnermostIsPlain(rest, outer);
    case Cons(Marked(span, body), rest) => InnermostIsPlain(body, Some(span)); InnermostIsPlain(rest, outer);
  }

  // ----- the marker stack -----

  function Top(stack: seq<nat>): Option<nat> {
    if stack == [] then None else Some(stack[|stack| - 1])
  }

  function Prepend(t: seq<Token>, rest: Option<seq<Token>>): Option<seq<Token>> {
    if rest.None? then None else Some(t + rest.value)
  }

  /** The tokens left by the markers, or nothing when these are not balanced. */
  function Scan(items: seq<Item>, stack: seq<nat>): Option<seq<Token>>
    decreases |items|
  {
    if items == [] then (if stack == [] then Some([]) else None) else
    match items[0]
    case Real(t) => Prepend([Token(t, Top(stack))], Scan(items[1..], stack))
    case Start(span) => Scan(items[1..], stack + [span])
    case End(span) => if Top(stack) == Some(span) then Scan(items[1..], stack[..|stack| - 1]) else None
    case Malformed => None
  }

  lemma PrependTwice(a: seq<Token>, b: seq<Token>, rest: Option<seq<Token>>)
    ensures Prepend(a, Prepend(b, rest)) == Prepend(a + b, rest)
  {
    if rest.Some? { assert a + (b + rest.value) == a + b + rest.value; }
  }

  /** Scanning a rendered tree gives its tokens their innermost marks. */
  lemma {:induction false} ScanRendered(ns: Nodes, rest: seq<Item>, stack: seq<nat>)
    ensures Scan(Render(ns) + rest, stack) == Prepend(Innermost(ns, Top(stack)), Scan(rest, stack))
    decreases ns
  {
    match ns
    case Empty =>
      assert [] + rest == rest;
      if Scan(rest, stack).Some? { assert [] + Scan(rest, stack).value == Scan(rest, stack).value; }
    case Cons(Leaf(t), tail) =>
      var items := Render(ns) + rest;
      assert items[0] == Real(t) && items[1..] == Render(tail) + rest;
      ScanRendered(tail, rest, stack);
      PrependTwice([Token(t, Top(stack))], Innermost(tail, Top(stack)), Scan(rest, stack));
    case Cons(Marked(span, body), tail) =>
      var after := [End(span)] + (Render(tail) + rest);
      var items := Render(ns) + rest;
      assert items == [Start(span)] + (Render(body) + after);
      assert items[0] == Start(span) && items[1..] == Render(body) + after;
      ScanRendered(body, after, stack + [span]);
      assert after[0] == End(span) && after[1..] == Render(tail) + rest;
      assert (stack + [span])[..|stack|] == stack;
      ScanRendered(tail, rest, stack);
      PrependTwice(Innermost(body, Some(span)), Innermost(tail, Top(stack)), Scan(rest, stack));
  }

  method ScanMarkers(items: seq<Item>) returns (tokens: Option<seq<Token>>)
    ensures tokens == Scan(items, [])
  {
    var stack: seq<nat>, out: seq<Token> := [], [];
    assert items[0..] == items;
    if Scan(items, []).Some? { assert [] + Scan(items, []).value == Scan(items, []).value; }
    for i := 0 to |items|
      invariant Scan(items, []) == Prepend(out, Scan(items[i..], stack))
    {
      assert items[i..][1..] == items[i + 1..];
      match items[i]
      case Real(t) =>
        PrependTwice(out, [Token(t, Top(stack))], Scan(items[i + 1..], stack));
        out := out + [Token(t, Top(stack))];
      case Start(span) => stack := stack + [span];
      case End(span) =>
        if |stack| == 0 || stack[|stack| - 1] != span { return None; }
        stack := stack[..|stack| - 1];
      case Malformed => return None;
    }
    assert out + [] == out;
    return if |stack| == 0 then Some(out) else None;
  }

  // ----- ranges -----

  predicate Covers(m: Mapping, i: nat) {
    m.first <= i < m.end
  }

  /** Ranges ascend, hold tokens of their source only, and are as long as they can be. */
  predicate Ranges(tokens: seq<Token>, n: nat, ms: seq<Mapping>)
    requires n <= |tokens|
  {
    && (forall k :: 0 <= k < |ms| ==> ms[k].first < ms[k].end <= n)
    && (forall k, i :: 0 <= k < |ms| && 0 <= i < n && Covers(ms[k], i) ==> tokens[i].origin == Some(ms[k].source))
    && (forall k :: 0 < k < |ms| ==> ms[k - 1].end <= ms[k].first && (ms[k - 1].end == ms[k].first ==> ms[k - 1].source != ms[k].source))
    && (forall i :: 0 <= i < n && tokens[i].origin.Some? ==> exists k :: 0 <= k < |ms| && Covers(ms[k], i))
  }

  /** What the next mapped token does to the ranges. */
  function Grown(tokens: seq<Token>, n: nat, ms: seq<Mapping>): seq<Mapping>
    requires n < |tokens| && tokens[n].origin.Some?
  {
    var last := |ms| - 1;
    if ms != [] && ms[last].end == n && ms[last].source == tokens[n].origin.value
    then ms[last := ms[last].(end := n + 1)]
    else ms + [Mapping(n, n + 1, tokens[n].origin.value)]
  }

  lemma GrownCovers(tokens: seq<Token>, n: nat, ms: seq<Mapping>, i: nat)
    requires n < |tokens| && Ranges(tokens, n, ms) && tokens[n].origin.Some? && i < n + 1 && tokens[i].origin.Some?
    ensures exists k :: 0 <= k < |Grown(tokens, n, ms)| && Covers(Grown(tokens, n, ms)[k], i)
  {
    var next := Grown(tokens, n, ms);
    if i == n {
      assert Covers(next[|next| - 1], i);
    } else {
      var k :| 0 <= k < |ms| && Covers(ms[k], i);
      assert Covers(next[k], i);
    }
  }

  lemma GrownHolds(tokens: seq<Token>, n: nat, ms: seq<Mapping>, k: nat, i: nat)
    requires n < |tokens| && Ranges(tokens, n, ms) && tokens[n].origin.Some?
    requires k < |Grown(tokens, n, ms)| && i < n + 1 && Covers(Grown(tokens, n, ms)[k], i)
    ensures tokens[i].origin == Some(Grown(tokens, n, ms)[k].source)
  {
    if i < n {
      assert k < |ms|;
      assert Covers(ms[k], i);
    }
  }

  lemma GrownApart(tokens: seq<Token>, n: nat, ms: seq<Mapping>, k: nat)
    requires n < |tokens| && Ranges(tokens, n, ms) && tokens[n].origin.Some? && k < |Grown(tokens, n, ms)|
    ensures var next := Grown(tokens, n, ms);
            && next[k].first < next[k].end <= n + 1
            && (k > 0 ==> next[k - 1].end <= next[k].first && (next[k - 1].end == next[k].first ==> next[k - 1].source != next[k].source))
  {
    if 0 < k < |ms| { assert ms[k - 1].end <= ms[k].first; }
    hide Covers;
  }

  lemma RangesGrow(tokens: seq<Token>, n: nat, ms: seq<Mapping>)
    requires n < |tokens| && Ranges(tokens, n, ms) && tokens[n].origin.Some?
    ensures Ranges(tokens, n + 1, Grown(tokens, n, ms))
  {
    var next := Grown(tokens, n, ms);
    forall i | 0 <= i < n + 1 && tokens[i].origin.Some? ensures exists k :: 0 <= k < |next| && Covers(next[k], i) {
      GrownCovers(tokens, n, ms, i);
    }
    forall k, i | 0 <= k < |next| && 0 <= i < n + 1 && Covers(next[k], i) ensures tokens[i].origin == Some(next[k].source) {
      GrownHolds(tokens, n, ms, k, i);
    }
    forall k | 0 <= k < |next|
      ensures next[k].first < next[k].end <= n + 1
      ensures k > 0 ==> next[k - 1].end <= next[k].first && (next[k - 1].end == next[k].first ==> next[k - 1].source != next[k].source)
    {
      GrownApart(tokens, n, ms, k);
    }
    hide Covers, Grown;
  }

  lemma RangesSkip(tokens: seq<Token>, n: nat, ms: seq<Mapping>)
    requires n < |tokens| && Ranges(tokens, n, ms) && tokens[n].origin.None?
    ensures Ranges(tokens, n + 1, ms)
  {
  }

  lemma RangesBound(tokens: seq<Token>, n: nat, ms: seq<Mapping>)
    requires n <= |tokens| && Ranges(tokens, n, ms) && ms != []
    ensures ms[|ms| - 1].end <= n
  {
  }

  method MergeRanges(tokens: seq<Token>) returns (ms: seq<Mapping>)
    ensures Ranges(tokens, |tokens|, ms)
  {
    hide Ranges;
    ms := [];
    var previousMapped := false;
    NoRanges(tokens);
    for n := 0 to |tokens|
      invariant Ranges(tokens, n, ms)
      invariant previousMapped ==> ms != []
      invariant ms != [] ==> (ms[|ms| - 1].end == n <==> previousMapped && n > 0)
    {
      var origin := tokens[n].origin;
      if ms != [] { RangesBound(tokens, n, ms); }
      if origin.None? {
        RangesSkip(tokens, n, ms);
        previousMapped := false;
      } else {
        RangesGrow(tokens, n, ms);
        if previousMapped && ms[|ms| - 1].source == origin.value {
          ms := ms[|ms| - 1 := ms[|ms| - 1].(end := n + 1)];
        } else {
          ms := ms + [Mapping(n, n + 1, origin.value)];
        }
        previousMapped := true;
      }
    }
  }

  lemma NoRanges(tokens: seq<Token>)
    ensures Ranges(tokens, 0, [])
  {
  }

  /** extractSourceMappings: the clean tokens and their mappings. */
  method Extract(items: seq<Item>) returns (r: Option<(seq<Token>, seq<Mapping>)>)
    ensures r.Some? <==> Scan(items, []).Some?
    ensures r.Some? ==> r.value.0 == Scan(items, []).value && Ranges(r.value.0, |r.value.0|, r.value.1)
  {
    var tokens := ScanMarkers(items);
    if tokens.None? { return None; }
    var ms := MergeRanges(tokens.value);
    return Some((tokens.value, ms));
  }

  /** Extraction succeeds on every properly nested marking and returns exactly the unmarked tokens,
      each with its innermost mark. */
  lemma ExtractsNested(ns: Nodes)
    ensures Scan(Render(ns), []) == Some(Innermost(ns, None))
    ensures |Innermost(ns, None)| == |Plain(ns)| && forall i :: 0 <= i < |Plain(ns)| ==> Innermost(ns, None)[i].token == Plain(ns)[i]
  {
    ScanRendered(ns, [], []);
    assert Render(ns) + [] == Render(ns);
    assert Innermost(ns, None) + [] == Innermost(ns, None);
    InnermostIsPlain(ns, None);
  }

  /** The tree that balanced markers stand for. */
  lemma {:induction false} Parses(items: seq<Item>, stack: seq<nat>) returns (ns: Nodes, rest: seq<Item>)
    requires Scan(items, stack).Some?
    ensures stack == [] ==> items == Render(ns)
    ensures stack != [] ==> items == Render(ns) + [End(stack[|stack| - 1])] + rest && Scan(rest, stack[..|stack| - 1]).Some?
    decreases |items|
  {
    if items == [] {
      ns, rest := Empty, [];
    } else {
      assert items == [items[0]] + items[1..];
      match items[0]
      case Real(t) =>
        ns, rest := Parses(items[1..], stack);
        ns := Cons(Leaf(t), ns);
      case End(span) =>
        ns, rest := Empty, items[1..];
        assert items == [] + [End(span)] + rest;
      case Start(span) =>
        var body, after := Parses(items[1..], stack + [span]);
        assert (stack + [span])[..|stack|] == stack;
        var tail;
        tail, rest := Parses(after, stack);
        ns := Cons(Marked(span, body), tail);
        assert items == [Start(span)] + Render(body) + [End(span)] + after;
    }
  }

  /** Extraction succeeds on nothing else. */
  lemma ExtractsOnlyNested(items: seq<Item>)
    ensures Scan(items, []).Some? <==> exists ns :: Render(ns) == items
  {
    if Scan(items, []).Some? {
      var ns, rest := Parses(items, []);
    }
    forall ns | Render(ns) == items ensures Scan(items, []).Some? { ExtractsNested(ns); }
  }
}
