/** The text edits of a rename: splicing from the last occurrence to the first, and where the new
    names then stand. */
module RenameEdits {
  import opened Completions

  datatype Span = Span(start: int, end: int)

  /** Occurrences sorted by start that do not overlap. */
  predicate Apart(spans: seq<Span>) {
    && (forall i :: 0 <= i < |spans| ==> spans[i].start <= spans[i].end)
    && (forall i, j :: 0 <= i < j < |spans| ==> spans[i].end <= spans[j].start)
  }

  predicate Inside(spans: seq<Span>, from: nat, text: string) {
    Apart(spans) && forall i :: 0 <= i < |spans| ==> from <= spans[i].start && spans[i].end <= |text|
  }

  /** All occurrences replaced at once, from offset `from` of the text on. */
  function Replaced(text: string, spans: seq<Span>, name: string, from: nat): string
    requires Inside(spans, from, text) && from <= |text|
  {
    if spans == [] then text[from..]
    else text[from..spans[0].start] + name + Replaced(text, spans[1..], name, spans[0].end)
  }

  /** The text before the first occurrence stays as it is. */
  lemma ReplacedFrom(text: string, spans: seq<Span>, name: string, from: nat)
    requires Inside(spans, from, text) && from <= |text|
    ensures Inside(spans, 0, text) && Replaced(text, spans, name, 0) == text[..from] + Replaced(text, spans, name, from)
  {
    assert forall i :: 0 <= i < |spans| ==> 0 <= spans[i].start;
    if spans == [] {
      assert text[0..] == text[..from] + text[from..];
    } else {
      Regroup(text, from, spans[0].start, name, Replaced(text, spans[1..], name, spans[0].end));
    }
  }

  lemma Regroup(text: string, from: nat, to: nat, name: string, rest: string)
    requires from <= to <= |text|
    ensures text[0..to] + name + rest == text[..from] + (text[from..to] + name + rest)
  {
    assert text[0..to] == text[..from] + text[from..to];
    assert text[..from] + text[from..to] + name + rest == text[..from] + (text[from..to] + name + rest);
  }

  lemma SpliceOne(text: string, spans: seq<Span>, name: string)
    requires Apart(spans) && spans != [] && Inside(spans[1..], 0, text) && 0 <= spans[0].start && spans[0].end <= |Replaced(text, spans[1..], name, 0)|
    ensures Inside(spans, 0, text)
    ensures var later := Replaced(text, spans[1..], name, 0);
            Replaced(text, spans, name, 0) == later[..spans[0].start] + name + later[spans[0].end..]
  {
    var s := spans[0];
    if |spans| > 1 { assert spans[1..][0] == spans[1]; }
    ReplacedFrom(text, spans[1..], name, s.end);
    var rest := Replaced(text, spans[1..], name, s.end);
    assert (text[..s.end] + rest)[..s.start] == text[0..s.start];
    assert (text[..s.end] + rest)[s.end..] == rest;
  }

  /** The descending loop. It fails exactly when some occurrence does not lie in the text; otherwise
      its result is that of replacing all occurrences at once. */
  method Splice(text: string, spans: seq<Span>, name: string) returns (edited: Option<string>)
    requires Apart(spans)
    ensures edited.Some? <==> Inside(spans, 0, text)
    ensures edited.Some? ==> edited.value == Replaced(text, spans, name, 0)
  {
    var current := text;
    var i := |spans|;
    assert spans[i..] == [] && text[0..] == text;
    while i > 0
      invariant 0 <= i <= |spans| && Inside(spans[i..], 0, text) && current == Replaced(text, spans[i..], name, 0)
    {
      i := i - 1;
      var s := spans[i];
      assert spans[i..][1..] == spans[i + 1..];
      if s.start < 0 || s.end > |current| || s.start > s.end {
        assert spans[i] == s;
        if i + 1 < |spans| { ShorterThanText(text, spans, i, name); }
        return None;
      }
      SpliceOne(text, spans[i..], name);
      current := current[..s.start] + name + current[s.end..];
    }
    assert spans[0..] == spans;
    return Some(current);
  }

  /** With later occurrences inside the text, an earlier one cannot reach past the edited text. */
  lemma ShorterThanText(text: string, spans: seq<Span>, i: nat, name: string)
    requires Apart(spans) && i + 1 < |spans| && Inside(spans[i + 1..], 0, text)
    ensures spans[i].end <= spans[i + 1].start <= |Replaced(text, spans[i + 1..], name, 0)|
  {
    assert spans[i + 1..][0] == spans[i + 1];
  }

  // ----- where the names stand -----

  /** How far the i-th occurrence has moved. */
  function Shift(spans: seq<Span>, i: nat, n: nat): int
    requires i <= |spans|
  {
    if i == 0 then 0 else Shift(spans, i - 1, n) + n - (spans[i - 1].end - spans[i - 1].start)
  }

  /** The ascending loop with its running delta. */
  method Transformed(spans: seq<Span>, n: nat) returns (moved: seq<Span>)
    ensures |moved| == |spans|
    ensures forall i :: 0 <= i < |spans| ==> moved[i].start == spans[i].start + Shift(spans, i, n) && moved[i].end == moved[i].start + n
  {
    var delta := 0;
    moved := [];
    for i := 0 to |spans|
      invariant |moved| == i && delta == Shift(spans, i, n)
      invariant forall k :: 0 <= k < i ==> moved[k].start == spans[k].start + Shift(spans, k, n) && moved[k].end == moved[k].start + n
    {
      moved := moved + [Span(spans[i].start + delta, spans[i].start + delta + n)];
      delta := delta + n - (spans[i].end - spans[i].start);
    }
  }

  lemma {:induction false} ShiftOfRest(spans: seq<Span>, i: nat, n: nat)
    requires 1 <= i <= |spans|
    ensures Shift(spans, i, n) == n - (spans[0].end - spans[0].start) + Shift(spans[1..], i - 1, n)
  {
    if i > 1 {
      ShiftOfRest(spans, i - 1, n);
      assert spans[1..][i - 2] == spans[i - 1];
    }
  }

  /** End of the text before the i-th occurrence. */
  function GapStart(spans: seq<Span>, i: nat, from: nat): int
    requires i <= |spans|
  {
    if i == 0 then from else spans[i - 1].end
  }

  /** `name` is at offset `p` of `r`, right after `gap`. */
  predicate At(r: string, p: int, name: string, gap: string) {
    |gap| <= p && p + |name| <= |r| && r[p..p + |name|] == name && r[p - |gap|..p] == gap
  }

  lemma AtAfter(head: string, rest: string, q: int, name: string, gap: string)
    requires At(rest, q, name, gap)
    ensures At(head + rest, |head| + q, name, gap)
  {
  }

  lemma AtFirst(gap: string, name: string, rest: string)
    ensures At(gap + name + rest, |gap|, name, gap)
  {
    assert gap + name + rest == gap + (name + rest);
  }

  function Gap(text: string, spans: seq<Span>, from: nat, i: nat): string
    requires Inside(spans, from, text) && from <= |text| && i < |spans|
  {
    text[GapStart(spans, i, from)..spans[i].start]
  }

  function Moved(spans: seq<Span>, from: nat, i: nat, n: nat): int
    requires i < |spans|
  {
    spans[i].start - from + Shift(spans, i, n)
  }

  lemma MovedOfRest(spans: seq<Span>, from: nat, i: nat, n: nat)
    requires 0 < i < |spans| && 0 <= spans[0].end
    ensures Moved(spans, from, i, n) == spans[0].start - from + n + Moved(spans[1..], spans[0].end, i - 1, n)
    ensures GapStart(spans, i, from) == GapStart(spans[1..], i - 1, spans[0].end)
  {
    ShiftOfRest(spans, i, n);
    assert spans[1..][i - 1] == spans[i];
    if i > 1 { assert spans[1..][i - 2] == spans[i - 1]; }
  }

  /** The moved spans delimit exactly the new names, and the text between them is unchanged. */
  lemma {:induction false} NamesStand(text: string, spans: seq<Span>, name: string, from: nat, i: nat)
    requires Inside(spans, from, text) && from <= |text| && i < |spans|
    ensures At(Replaced(text, spans, name, from), Moved(spans, from, i, |name|), name, Gap(text, spans, from, i))
    decreases i
  {
    hide At;
    var first := text[from..spans[0].start];
    var rest := Replaced(text, spans[1..], name, spans[0].end);
    if i == 0 {
      AtFirst(first, name, rest);
    } else {
      NamesStand(text, spans[1..], name, spans[0].end, i - 1);
      MovedOfRest(spans, from, i, |name|);
      AtAfter(first + name, rest, Moved(spans[1..], spans[0].end, i - 1, |name|), name, Gap(text, spans, from, i));
    }
  }
}
