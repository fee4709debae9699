/** The order in which an operation takes the mutexes of its handles: sorted by creation id, each
    object once however often it is passed. */
module LockPlan {

  predicate Increasing(s: seq<nat>) {
    forall i, j :: 0 <= i < j < |s| ==> s[i] < s[j]
  }

  predicate Ascending(s: seq<nat>) {
    forall i, j :: 0 <= i < j < |s| ==> s[i] <= s[j]
  }

  function Elements(s: seq<nat>): set<nat> {
    set x | x in s
  }

  lemma ElementsOfConcat(a: seq<nat>, b: seq<nat>)
    ensures Elements(a + b) == Elements(a) + Elements(b)
  {
  }

  lemma Prepended(x: nat, s: seq<nat>, r: seq<nat>)
    requires s != [] && Elements(r) == Elements(s[1..]) + {x}
    ensures Elements([s[0]] + r) == Elements(s) + {x}
    ensures forall y :: y in r ==> y == x || y in s[1..]
  {
    ElementsOfConcat([s[0]], r);
    ElementsOfConcat([s[0]], s[1..]);
    assert s == [s[0]] + s[1..];
    assert forall y :: y in r ==> y in Elements(r);
  }

  lemma ConsOrdered(x: nat, r: seq<nat>)
    ensures Increasing(r) && (forall y :: y in r ==> x < y) ==> Increasing([x] + r)
    ensures Ascending(r) && (forall y :: y in r ==> x <= y) ==> Ascending([x] + r)
  {
    var s := [x] + r;
    forall i, j | 0 <= i < j < |s|
      ensures Increasing(r) && (forall y :: y in r ==> x < y) ==> s[i] < s[j]
      ensures Ascending(r) && (forall y :: y in r ==> x <= y) ==> s[i] <= s[j]
    {
      assert s[j] == r[j - 1] && r[j - 1] in r;
      if i > 0 { assert s[i] == r[i - 1]; }
    }
  }

  lemma SnocIncreasing(s: seq<nat>, x: nat)
    requires Increasing(s) && (s != [] ==> s[|s| - 1] < x)
    ensures Increasing(s + [x])
  {
  }

  /** The plan as a function: the strictly increasing listing of a finite set. */
  function Plan(ids: seq<nat>): (r: seq<nat>)
    ensures Increasing(r) && Elements(r) == Elements(ids)
  {
    if ids == [] then [] else
      var r := Inserted(ids[|ids| - 1], Plan(ids[..|ids| - 1]));
      assert ids == ids[..|ids| - 1] + [ids[|ids| - 1]];
      r
  }

  function Inserted(x: nat, s: seq<nat>): (r: seq<nat>)
    requires Increasing(s)
    ensures Increasing(r) && Elements(r) == Elements(s) + {x}
  {
    if s == [] then [x]
    else if x < s[0] then [x] + s
    else if x == s[0] then assert s == [s[0]] + s[1..]; s
    else
      var r := Inserted(x, s[1..]);
      Prepended(x, s, r);
      ConsOrdered(s[0], r);
      [s[0]] + r
  }

  /** Only one strictly increasing sequence lists a given set, so neither the argument order nor a
      repeated argument can change the order of acquisition. */
  lemma {:induction false} IncreasingUnique(a: seq<nat>, b: seq<nat>)
    requires Increasing(a) && Increasing(b) && Elements(a) == Elements(b)
    ensures a == b
    decreases |a|
  {
    assert b != [] ==> b[0] in Elements(b);
    if a != [] {
      assert a[0] in Elements(b);
      assert b[0] in Elements(a);
      assert a[0] == b[0];
      forall x ensures x in Elements(a[1..]) <==> x in Elements(b[1..]) {
        if x in a[1..] { assert x in Elements(b); }
        if x in b[1..] { assert x in Elements(a); }
      }
      IncreasingUnique(a[1..], b[1..]);
    }
  }

  /** sort.Slice by id, a library function: any ascending permutation will do. */
  function SortedById(ids: seq<nat>): (r: seq<nat>)
    ensures Ascending(r) && Elements(r) == Elements(ids) && |r| == |ids|
  {
    if ids == [] then [] else
      var last := ids[|ids| - 1];
      assert ids == ids[..|ids| - 1] + [last];
      Placed(last, SortedById(ids[..|ids| - 1]))
  }

  function Placed(x: nat, s: seq<nat>): (r: seq<nat>)
    requires Ascending(s)
    ensures Ascending(r) && Elements(r) == Elements(s) + {x} && |r| == |s| + 1
  {
    if s == [] || x <= s[0] then [x] + s
    else
      var r := Placed(x, s[1..]);
      Prepended(x, s, r);
      ConsOrdered(s[0], r);
      [s[0]] + r
  }

  /** What the loop has collected from the first `n` items. */
  predicate Collected(items: seq<nat>, n: nat, locked: seq<nat>)
    requires n <= |items|
  {
    && Increasing(locked) && Elements(locked) == Elements(items[..n])
    && if n == 0 then locked == [] else |locked| > 0 && locked[|locked| - 1] == items[n - 1]
  }

  lemma CollectsOne(items: seq<nat>, n: nat, locked: seq<nat>)
    requires n < |items| && Ascending(items) && Collected(items, n, locked)
    ensures Collected(items, n + 1, if |locked| == 0 || locked[|locked| - 1] != items[n] then locked + [items[n]] else locked)
  {
    var x := items[n];
    assert items[..n + 1] == items[..n] + [x];
    ElementsOfConcat(items[..n], [x]);
    if |locked| == 0 || locked[|locked| - 1] != x {
      if n > 0 { assert items[n - 1] <= x; }
      SnocIncreasing(locked, x);
      ElementsOfConcat(locked, [x]);
    } else {
      assert x in Elements(locked);
    }
  }

  /** The emitted loop: skip an item whose mutex is the one taken last. */
  method LockOrder(ids: seq<nat>) returns (locked: seq<nat>)
    ensures locked == Plan(ids)
  {
    var items := SortedById(ids);
    locked := [];
    for n := 0 to |items|
      invariant Collected(items, n, locked)
    {
      CollectsOne(items, n, locked);
      if |locked| == 0 || locked[|locked| - 1] != items[n] {
        locked := locked + [items[n]];
      }
    }
    assert items[..|items|] == items;
    IncreasingUnique(locked, Plan(ids));
  }
}
