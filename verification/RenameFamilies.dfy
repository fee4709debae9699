/** Declarations that a rename has to change together. */
module RenameFamilies {

  /** The families of one program, by name span: methods of an interface and its bases that share a
      name, and for each class the methods of its chain and its contracts that do. */
  type Families = seq<seq<nat>>

  predicate Related(fs: Families, a: nat, b: nat) {
    exists k :: 0 <= k < |fs| && a in fs[k] && b in fs[k]
  }

  /** A chain of declarations, each in a family with the next. */
  predicate Chain(fs: Families, p: seq<nat>) {
    p != [] && forall i :: 0 < i < |p| ==> Related(fs, p[i - 1], p[i])
  }

  ghost predicate Connected(fs: Families, a: nat, b: nat) {
    exists p :: Chain(fs, p) && p[0] == a && p[|p| - 1] == b
  }

  lemma Extends(fs: Families, a: nat, b: nat, c: nat)
    requires Connected(fs, a, b) && Related(fs, b, c)
    ensures Connected(fs, a, c)
  {
    var p :| Chain(fs, p) && p[0] == a && p[|p| - 1] == b;
    var q := p + [c];
    forall i | 0 < i < |q| ensures Related(fs, q[i - 1], q[i]) {
      if i < |p| { assert Related(fs, p[i - 1], p[i]); }
    }
    assert Chain(fs, q) && q[0] == a && q[|q| - 1] == c;
  }

  /** Two declarations are related symmetrically. */
  lemma ConnectedIsSymmetric(fs: Families, a: nat, b: nat)
    requires Connected(fs, a, b)
    ensures Connected(fs, b, a)
  {
    var p :| Chain(fs, p) && p[0] == a && p[|p| - 1] == b;
    var q := seq(|p|, i requires 0 <= i < |p| => p[|p| - 1 - i]);
    forall i | 0 < i < |q| ensures Related(fs, q[i - 1], q[i]) {
      assert Related(fs, p[|p| - 1 - i], p[|p| - i]);
    }
    assert Chain(fs, q) && q[0] == b && q[|q| - 1] == a;
  }

  /** Nothing outside a set closed under families is reached from inside it. */
  lemma {:induction false} ClosedHoldsChains(fs: Families, found: set<nat>, p: seq<nat>)
    requires Chain(fs, p) && p[0] in found
    requires forall a, b :: a in found && Related(fs, a, b) ==> b in found
    ensures p[|p| - 1] in found
    decreases |p|
  {
    if |p| > 1 {
      var n := |p| - 1;
      ClosedHoldsChains(fs, found, p[..n]);
      assert Related(fs, p[n - 1], p[n]);
    }
  }

  function Members(fs: Families): set<nat> {
    set k, x | 0 <= k < |fs| && x in fs[k] :: x
  }

  function Below(n: nat): (r: set<nat>)
    ensures forall k :: k in r <==> 0 <= k < n
  {
    if n == 0 then {} else Below(n - 1) + {n - 1}
  }

  predicate Settled(family: seq<nat>, found: set<nat>) {
    (exists x :: x in family && x in found) ==> forall x :: x in family ==> x in found
  }

  class Search {
    var result: set<nat>
    var changed: bool

    constructor (target: nat)
      ensures result == {target} && changed
    {
      result, changed := {target}, true;
    }

    /** connect: a family with one member in the result joins it. */
    method Connect(family: seq<nat>)
      modifies this
      ensures Settled(family, result)
      ensures result == old(result) || ((exists x :: x in family && x in old(result)) && result == old(result) + set x | x in family)
      ensures changed == (old(changed) || result != old(result))
    {
      for i := 0 to |family|
        invariant result == old(result) && changed == old(changed)
        invariant forall k :: 0 <= k < i ==> family[k] !in result
      {
        if family[i] in result {
          for j := 0 to |family|
            invariant result == old(result) + set x | x in family[..j]
            invariant changed == (old(changed) || result != old(result))
          {
            assert family[..j + 1] == family[..j] + [family[j]];
            if family[j] !in result {
              result := result + {family[j]};
              changed := true;
            }
          }
          assert family[..|family|] == family;
          return;
        }
      }
    }
  }

  /** relatedDeclarations: connect every family, in any order, until a round changes nothing. What is
      found is the connected component of the target. */
  method RelatedDeclarations(fs: Families, target: nat) returns (found: set<nat>)
    ensures forall x :: x in found <==> Connected(fs, target, x)
  {
    var search := new Search(target);
    assert Chain(fs, [target]);
    ghost var all := Members(fs) + {target};
    while search.changed
      invariant target in search.result && search.result <= all
      invariant forall x :: x in search.result ==> Connected(fs, target, x)
      invariant !search.changed ==> forall k :: 0 <= k < |fs| ==> Settled(fs[k], search.result)
      decreases |all - search.result|, search.changed
    {
      search.changed := false;
      ghost var before := search.result;
      var left := Below(|fs|);
      while left != {}
        invariant left <= Below(|fs|)
        invariant before <= search.result <= all && (search.changed <==> search.result != before)
        invariant forall x :: x in search.result ==> Connected(fs, target, x)
        invariant !search.changed ==> forall k :: 0 <= k < |fs| && k !in left ==> Settled(fs[k], search.result)
        decreases |left|
      {
        var k :| k in left;
        left := left - {k};
        ghost var known := search.result;
        search.Connect(fs[k]);
        Joins(fs, target, known, k, search.result);
      }
      if search.changed { Shrinks(all, before, search.result); }
    }
    found := search.result;
    forall x | Connected(fs, target, x) ensures x in found {
      var p :| Chain(fs, p) && p[0] == target && p[|p| - 1] == x;
      ClosedHoldsChains(fs, found, p);
    }
  }

  lemma Joins(fs: Families, target: nat, known: set<nat>, k: nat, found: set<nat>)
    requires k < |fs| && forall x :: x in known ==> Connected(fs, target, x)
    requires found == known || ((exists x :: x in fs[k] && x in known) && found == known + set x | x in fs[k])
    ensures forall x :: x in found ==> Connected(fs, target, x)
    ensures found <= known + Members(fs)
  {
    if found != known {
      var y :| y in fs[k] && y in known;
      forall x | x in fs[k] ensures Connected(fs, target, x) {
        assert Related(fs, y, x);
        Extends(fs, target, y, x);
      }
    }
  }

  lemma Shrinks(all: set<nat>, before: set<nat>, after: set<nat>)
    requires before <= after <= all && before != after
    ensures |all - after| < |all - before|
  {
    var x :| x in after && x !in before;
    assert all - after <= all - before - {x};
    Smaller(all - after, all - before - {x});
  }

  lemma Smaller(a: set<nat>, b: set<nat>)
    requires a <= b
    ensures |a| <= |b|
  {
    assert b == a + (b - a);
  }
}
