/** How the families of a program are collected from its interfaces and classes. */
module RenameProgram {
  import opened Completions
  import opened RenameFamilies

  datatype Method = Method(name: string, accessor: bool, span: nat)

  datatype Interface = Interface(methods: seq<Method>, bases: seq<nat>)

  datatype Class = Class(methods: seq<Method>, base: Option<nat>, implements: seq<nat>)

  /** Declarations by name span; a reference may point to nothing declared. */
  datatype Program = Program(interfaces: map<nat, Interface>, classes: map<nat, Class>)

  // ----- inheritance -----

  /** Successors of each declaration: bases of an interface, the base of a class. */
  type Graph = map<nat, seq<nat>>

  predicate Edge(g: Graph, a: nat, b: nat) {
    a in g && b in g && b in g[a]
  }

  predicate Route(g: Graph, p: seq<nat>) {
    p != [] && p[0] in g && forall i :: 0 < i < |p| ==> Edge(g, p[i - 1], p[i])
  }

  ghost predicate Reaches(g: Graph, a: nat, b: nat) {
    exists p :: Route(g, p) && p[0] == a && p[|p| - 1] == b
  }

  lemma ReachesSelf(g: Graph, a: nat)
    requires a in g
    ensures Reaches(g, a, a)
  {
    assert Route(g, [a]);
  }

  lemma ReachesNext(g: Graph, a: nat, b: nat, c: nat)
    requires Reaches(g, a, b) && Edge(g, b, c)
    ensures Reaches(g, a, c)
  {
    var p :| Route(g, p) && p[0] == a && p[|p| - 1] == b;
    var q := p + [c];
    forall i | 0 < i < |q| ensures Edge(g, q[i - 1], q[i]) {
      if i < |p| { assert Edge(g, p[i - 1], p[i]); }
    }
    assert Route(g, q) && q[0] == a && q[|q| - 1] == c;
  }

  lemma {:induction false} RouteStays(g: Graph, seen: set<nat>, p: seq<nat>)
    requires Route(g, p) && p[0] in seen && forall a, b :: a in seen && Edge(g, a, b) ==> b in seen
    ensures p[|p| - 1] in seen
    decreases |p|
  {
    if |p| > 1 {
      var n := |p| - 1;
      RouteStays(g, seen, p[..n]);
      assert Edge(g, p[n - 1], p[n]);
    }
  }

  /** A closed set of reached declarations around the root is all that it reaches. */
  lemma ClosedIsReached(g: Graph, root: nat, seen: set<nat>)
    requires root in seen && (forall n :: n in seen ==> Reaches(g, root, n))
    requires forall a, b :: a in seen && Edge(g, a, b) ==> b in seen
    ensures forall n :: n in seen <==> Reaches(g, root, n)
  {
    forall n | Reaches(g, root, n) ensures n in seen {
      var p :| Route(g, p) && p[0] == root && p[|p| - 1] == n;
      RouteStays(g, seen, p);
    }
  }

  function Bases(p: Program): Graph {
    map i | i in p.interfaces :: p.interfaces[i].bases
  }

  function Parents(p: Program): Graph {
    map c | c in p.classes :: if p.classes[c].base.Some? then [p.classes[c].base.value] else []
  }

  // ----- the methods of an interface: a depth-first walk -----

  /** The walk so far: `open` are the declarations whose bases are still being visited. */
  ghost predicate Walked(g: Graph, root: nat, seen: set<nat>, open: set<nat>) {
    && seen <= g.Keys && (forall n :: n in seen ==> Reaches(g, root, n))
    && (forall a, b :: a in seen && a !in open && Edge(g, a, b) ==> b in seen)
  }

  predicate Collected(p: Program, seen: set<nat>, methods: seq<Method>) {
    && (forall n :: n in seen ==> n in p.interfaces)
    && (forall m :: m in methods ==> exists n :: n in seen && m in p.interfaces[n].methods)
    && (forall n, m :: n in seen && m in p.interfaces[n].methods ==> m in methods)
  }

  class InterfaceWalk {
    const program: Program
    var seen: set<nat>
    var methods: seq<Method>

    constructor (program: Program)
      ensures this.program == program && seen == {} && methods == []
    {
      this.program, seen, methods := program, {}, [];
    }

    method Visit(contract: nat, ghost root: nat, ghost open: set<nat>)
      requires Walked(Bases(program), root, seen, open) && Collected(program, seen, methods)
      requires contract in program.interfaces ==> Reaches(Bases(program), root, contract)
      modifies this
      ensures Walked(Bases(program), root, seen, open) && Collected(program, seen, methods)
      ensures old(seen) <= seen && (contract in program.interfaces ==> contract in seen)
      decreases program.interfaces.Keys - seen
    {
      if contract !in program.interfaces || contract in seen { return; }
      var declaration := program.interfaces[contract];
      ghost var g := Bases(program);
      Opens(program, root, seen, open, contract, methods);
      seen := seen + {contract};
      methods := methods + declaration.methods;
      ghost var inner := open + {contract};
      for i := 0 to |declaration.bases|
        invariant Walked(g, root, seen, inner) && Collected(program, seen, methods)
        invariant old(seen) + {contract} <= seen
        invariant forall k :: 0 <= k < i && declaration.bases[k] in program.interfaces ==> declaration.bases[k] in seen
      {
        var base := declaration.bases[i];
        if base in program.interfaces {
          assert Edge(g, contract, base);
          ReachesNext(g, root, contract, base);
        }
        ghost var before := seen;
        Visit(base, root, inner);
        assert forall n :: n in before ==> n in seen;
      }
      Closes(program, root, seen, open, contract);
    }
  }

  lemma Opens(p: Program, root: nat, seen: set<nat>, open: set<nat>, contract: nat, methods: seq<Method>)
    requires Walked(Bases(p), root, seen, open) && Collected(p, seen, methods) && contract in p.interfaces && Reaches(Bases(p), root, contract)
    ensures Walked(Bases(p), root, seen + {contract}, open + {contract})
    ensures Collected(p, seen + {contract}, methods + p.interfaces[contract].methods)
  {
    hide Reaches;
    forall m | m in methods + p.interfaces[contract].methods
      ensures exists n :: n in seen + {contract} && m in p.interfaces[n].methods
    {
      if m in methods {
        var n :| n in seen && m in p.interfaces[n].methods;
        assert n in seen + {contract};
      } else {
        assert contract in seen + {contract};
      }
    }
  }

  lemma Closes(p: Program, root: nat, seen: set<nat>, open: set<nat>, contract: nat)
    requires Walked(Bases(p), root, seen, open + {contract}) && contract in p.interfaces && contract in seen
    requires forall k :: 0 <= k < |p.interfaces[contract].bases| && p.interfaces[contract].bases[k] in p.interfaces ==> p.interfaces[contract].bases[k] in seen
    ensures Walked(Bases(p), root, seen, open)
  {
    hide Reaches;
  }

  /** An interface offers its own methods and those of the interfaces it extends. */
  ghost predicate Offers(p: Program, i: nat, m: Method) {
    exists j :: j in p.interfaces && Reaches(Bases(p), i, j) && m in p.interfaces[j].methods
  }

  method InterfaceMethods(p: Program, i: nat) returns (methods: seq<Method>)
    requires i in p.interfaces
    ensures forall m :: m in methods <==> Offers(p, i, m)
  {
    var walk := new InterfaceWalk(p);
    ReachesSelf(Bases(p), i);
    walk.Visit(i, i, {});
    ClosedIsReached(Bases(p), i, walk.seen);
    methods := walk.methods;
  }

  // ----- the methods of a class: a chain -----

  ghost predicate Has(p: Program, c: nat, m: Method) {
    exists d :: d in p.classes && Reaches(Parents(p), c, d) && m in p.classes[d].methods
  }

  method ClassMethods(p: Program, c: nat) returns (methods: seq<Method>)
    requires c in p.classes
    ensures forall m :: m in methods <==> Has(p, c, m)
  {
    var seen: set<nat>, next := {}, Some(c);
    methods := [];
    ghost var g := Parents(p);
    ReachesSelf(g, c);
    while next.Some? && next.value in p.classes && next.value !in seen
      invariant seen <= p.classes.Keys && (c in seen || next == Some(c))
      invariant forall n :: n in seen ==> Reaches(g, c, n)
      invariant next.Some? && next.value in p.classes ==> Reaches(g, c, next.value)
      invariant forall a, b :: a in seen && Edge(g, a, b) ==> b in seen || next == Some(b)
      invariant forall m :: m in methods ==> exists n :: n in seen && m in p.classes[n].methods
      invariant forall n, m :: n in seen && m in p.classes[n].methods ==> m in methods
      decreases p.classes.Keys - seen
    {
      var cls := p.classes[next.value];
      var current := next.value;
      ghost var before := methods;
      seen := seen + {current};
      methods := methods + cls.methods;
      next := cls.base;
      if next.Some? && next.value in p.classes {
        assert Edge(g, current, next.value);
        ReachesNext(g, c, current, next.value);
      }
      forall m | m in methods ensures exists n :: n in seen && m in p.classes[n].methods {
        if m !in before { assert current in seen; }
      }
    }
    ClosedIsReached(g, c, seen);
  }

  // ----- families -----

  /** Methods that an interface offers under one name. */
  ghost predicate InterfaceFamily(p: Program, i: nat, name: string, f: seq<nat>) {
    forall x :: x in f <==> exists m :: Offers(p, i, m) && m.name == name && m.span == x
  }

  /** `n` is of the same name and kind as `m`, and a class has it or one of its contracts requires it. */
  ghost predicate Counterpart(p: Program, c: nat, m: Method, n: Method)
    requires c in p.classes
  {
    n.name == m.name && n.accessor == m.accessor && (Has(p, c, n) || Required(p, p.classes[c].implements, n))
  }

  ghost predicate Required(p: Program, contracts: seq<nat>, n: Method) {
    exists i :: i in contracts && i in p.interfaces && Offers(p, i, n)
  }

  ghost predicate ClassFamily(p: Program, c: nat, m: Method, f: seq<nat>)
    requires c in p.classes
  {
    forall x :: x in f <==> x == m.span || exists n :: Counterpart(p, c, m, n) && n.span == x
  }

  /** Every family is one of an interface or of a class... */
  ghost predicate Sound(p: Program, fs: Families) {
    forall k :: 0 <= k < |fs| ==> IsFamily(p, fs[k])
  }

  ghost predicate IsFamily(p: Program, f: seq<nat>) {
    || (exists i, name :: i in p.interfaces && InterfaceFamily(p, i, name, f))
    || (exists c, m :: c in p.classes && Has(p, c, m) && ClassFamily(p, c, m, f))
  }

  /** ... and all families of an interface, or of a class, are there. */
  ghost predicate HasInterface(p: Program, i: nat, fs: Families) {
    forall m :: Offers(p, i, m) ==> exists k :: 0 <= k < |fs| && InterfaceFamily(p, i, m.name, fs[k])
  }

  ghost predicate HasClass(p: Program, c: nat, fs: Families)
    requires c in p.classes
  {
    forall m :: Has(p, c, m) ==> exists k :: 0 <= k < |fs| && ClassFamily(p, c, m, fs[k])
  }

  lemma Joined(p: Program, a: Families, b: Families)
    ensures Sound(p, a) && Sound(p, b) ==> Sound(p, a + b)
    ensures forall i :: HasInterface(p, i, a) || HasInterface(p, i, b) ==> HasInterface(p, i, a + b)
    ensures forall c :: c in p.classes && (HasClass(p, c, a) || HasClass(p, c, b)) ==> HasClass(p, c, a + b)
  {
    hide InterfaceFamily, ClassFamily, IsFamily, Offers, Has;
    var all := a + b;
    forall i, m | (HasInterface(p, i, a) || HasInterface(p, i, b)) && Offers(p, i, m)
      ensures exists k :: 0 <= k < |all| && InterfaceFamily(p, i, m.name, all[k])
    {
      if HasInterface(p, i, a) {
        var k :| 0 <= k < |a| && InterfaceFamily(p, i, m.name, a[k]);
        assert all[k] == a[k];
      } else {
        var k :| 0 <= k < |b| && InterfaceFamily(p, i, m.name, b[k]);
        assert all[|a| + k] == b[k];
      }
    }
    forall c, m | c in p.classes && (HasClass(p, c, a) || HasClass(p, c, b)) && Has(p, c, m)
      ensures exists k :: 0 <= k < |all| && ClassFamily(p, c, m, all[k])
    {
      if HasClass(p, c, a) {
        var k :| 0 <= k < |a| && ClassFamily(p, c, m, a[k]);
        assert all[k] == a[k];
      } else {
        var k :| 0 <= k < |b| && ClassFamily(p, c, m, b[k]);
        assert all[|a| + k] == b[k];
      }
    }
  }

  /** The spans of one name, in a list of methods. */
  predicate Spans(ms: seq<Method>, name: string, f: seq<nat>) {
    && (forall x :: x in f ==> exists k :: 0 <= k < |ms| && ms[k].name == name && ms[k].span == x)
    && (forall k :: 0 <= k < |ms| && ms[k].name == name ==> ms[k].span in f)
  }

  method GroupByName(ms: seq<Method>) returns (groups: map<string, seq<nat>>)
    ensures forall name :: name in groups ==> Spans(ms, name, groups[name])
    ensures forall k :: 0 <= k < |ms| ==> ms[k].name in groups
  {
    groups := map[];
    for i := 0 to |ms|
      invariant forall name :: name in groups ==> Spans(ms[..i], name, groups[name])
      invariant forall k :: 0 <= k < i ==> ms[k].name in groups
    {
      var name := ms[i].name;
      var group := if name in groups then groups[name] else [];
      SpansOneMore(ms, i, groups);
      groups := groups[name := group + [ms[i].span]];
    }
    assert ms[..|ms|] == ms;
  }

  lemma SpansOneMore(ms: seq<Method>, i: nat, groups: map<string, seq<nat>>)
    requires i < |ms| && (forall name :: name in groups ==> Spans(ms[..i], name, groups[name]))
    requires forall k :: 0 <= k < i ==> ms[k].name in groups
    ensures var name := ms[i].name;
            var next := groups[name := (if name in groups then groups[name] else []) + [ms[i].span]];
            forall n :: n in next ==> Spans(ms[..i + 1], n, next[n])
  {
    var name := ms[i].name;
    var f := if name in groups then groups[name] else [];
    var before, after := ms[..i], ms[..i + 1];
    assert after[i] == ms[i] && forall k :: 0 <= k < i ==> after[k] == before[k];
    forall n | n in groups && n != name ensures Spans(after, n, groups[n]) {
      assert Spans(before, n, groups[n]);
      forall x | x in groups[n] ensures exists k :: 0 <= k < |after| && after[k].name == n && after[k].span == x {
        var k :| 0 <= k < |before| && before[k].name == n && before[k].span == x;
        assert after[k] == before[k];
      }
    }
    assert Spans(before, name, f);
    forall x | x in f + [ms[i].span] ensures exists k :: 0 <= k < |after| && after[k].name == name && after[k].span == x {
      if x in f {
        var k :| 0 <= k < |before| && before[k].name == name && before[k].span == x;
        assert after[k] == before[k];
      } else {
        assert after[i].span == x;
      }
    }
  }

  method InterfaceFamilies(p: Program, i: nat) returns (fs: Families)
    requires i in p.interfaces
    ensures Sound(p, fs) && HasInterface(p, i, fs)
  {
    var ms := InterfaceMethods(p, i);
    var groups := GroupByName(ms);
    fs := [];
    var left := groups.Keys;
    while left != {}
      invariant left <= groups.Keys && Sound(p, fs)
      invariant forall name :: name in groups && name !in left ==> exists k :: 0 <= k < |fs| && InterfaceFamily(p, i, name, fs[k])
      decreases |left|
    {
      hide InterfaceFamily;
      var name :| name in left;
      left := left - {name};
      GroupIsFamily(p, i, ms, name, groups[name]);
      ghost var before := fs;
      fs := fs + [groups[name]];
      assert fs[|before|] == groups[name];
      forall n | n in groups && n !in left ensures exists k :: 0 <= k < |fs| && InterfaceFamily(p, i, n, fs[k]) {
        if n != name {
          var k :| 0 <= k < |before| && InterfaceFamily(p, i, n, before[k]);
          assert fs[k] == before[k];
        }
      }
    }
    forall m | Offers(p, i, m) ensures exists k :: 0 <= k < |fs| && InterfaceFamily(p, i, m.name, fs[k]) {
      assert m in ms;
    }
  }

  lemma GroupIsFamily(p: Program, i: nat, ms: seq<Method>, name: string, f: seq<nat>)
    requires i in p.interfaces && (forall m :: m in ms <==> Offers(p, i, m)) && Spans(ms, name, f)
    ensures InterfaceFamily(p, i, name, f)
  {
    hide Offers;
    forall x ensures x in f <==> exists m :: Offers(p, i, m) && m.name == name && m.span == x {
      if x in f {
        var k :| 0 <= k < |ms| && ms[k].name == name && ms[k].span == x;
        assert Offers(p, i, ms[k]);
      }
    }
  }

  // ----- the family of one method of a class -----

  predicate SameKind(n: Method, m: Method) {
    n.name == m.name && n.accessor == m.accessor
  }

  /** Spans of the methods of `ms` that are of the kind of `m`. */
  method Matching(ms: seq<Method>, m: Method) returns (f: seq<nat>)
    ensures forall x :: x in f <==> exists n :: n in ms && SameKind(n, m) && n.span == x
  {
    f := [];
    for i := 0 to |ms|
      invariant forall x :: x in f <==> exists n :: n in ms[..i] && SameKind(n, m) && n.span == x
    {
      assert ms[..i + 1] == ms[..i] + [ms[i]];
      if SameKind(ms[i], m) { f := f + [ms[i].span]; }
    }
    assert ms[..|ms|] == ms;
  }

  method RequiredSpans(p: Program, contracts: seq<nat>, m: Method) returns (f: seq<nat>)
    ensures forall x :: x in f <==> exists n :: Required(p, contracts, n) && SameKind(n, m) && n.span == x
  {
    f := [];
    for i := 0 to |contracts|
      invariant forall x :: x in f <==> exists n :: Required(p, contracts[..i], n) && SameKind(n, m) && n.span == x
    {
      assert contracts[..i + 1] == contracts[..i] + [contracts[i]];
      var more: seq<nat> := [];
      if contracts[i] in p.interfaces {
        var ms := InterfaceMethods(p, contracts[i]);
        more := Matching(ms, m);
      }
      RequiredOneMore(p, contracts, i, m, f, more);
      f := f + more;
    }
    assert contracts[..|contracts|] == contracts;
  }

  lemma RequiredOneMore(p: Program, contracts: seq<nat>, i: nat, m: Method, f: seq<nat>, more: seq<nat>)
    requires i < |contracts|
    requires forall x :: x in f <==> exists n :: Required(p, contracts[..i], n) && SameKind(n, m) && n.span == x
    requires forall x :: x in more <==> exists n :: contracts[i] in p.interfaces && Offers(p, contracts[i], n) && SameKind(n, m) && n.span == x
    ensures forall x :: x in f + more <==> exists n :: Required(p, contracts[..i + 1], n) && SameKind(n, m) && n.span == x
  {
    hide Offers, SameKind;
    var before, after := contracts[..i], contracts[..i + 1];
    forall n ensures Required(p, after, n) <==> Required(p, before, n) || (contracts[i] in p.interfaces && Offers(p, contracts[i], n)) {
      assert after == before + [contracts[i]];
    }
  }

  method FamilyOf(p: Program, c: nat, ms: seq<Method>, m: Method) returns (f: seq<nat>)
    requires c in p.classes && (forall n :: n in ms <==> Has(p, c, n)) && m in ms
    ensures ClassFamily(p, c, m, f)
  {
    var own := Matching(ms, m);
    var required := RequiredSpans(p, p.classes[c].implements, m);
    f := [m.span] + own + required;
    hide Has, Required;
    forall x ensures x in f <==> x == m.span || exists n :: Counterpart(p, c, m, n) && n.span == x {
      if x in own {
        var n :| n in ms && SameKind(n, m) && n.span == x;
        assert Counterpart(p, c, m, n);
      }
      if x in required {
        var n :| Required(p, p.classes[c].implements, n) && SameKind(n, m) && n.span == x;
        assert Counterpart(p, c, m, n);
      }
      if n :| Counterpart(p, c, m, n) && n.span == x {
        assert SameKind(n, m);
      }
    }
  }

  method ClassFamilies(p: Program, c: nat) returns (fs: Families)
    requires c in p.classes
    ensures Sound(p, fs) && HasClass(p, c, fs)
  {
    var ms := ClassMethods(p, c);
    fs := [];
    for i := 0 to |ms|
      invariant Sound(p, fs) && |fs| == i && forall k :: 0 <= k < i ==> ClassFamily(p, c, ms[k], fs[k])
    {
      var f := FamilyOf(p, c, ms, ms[i]);
      hide ClassFamily;
      assert Has(p, c, ms[i]);
      assert IsFamily(p, f);
      fs := fs + [f];
    }
    forall m | Has(p, c, m) ensures exists k :: 0 <= k < |fs| && ClassFamily(p, c, m, fs[k]) {
      var k :| 0 <= k < |ms| && ms[k] == m;
    }
  }

  /** All families of a program, whatever the order of its declarations. */
  method CollectFamilies(p: Program) returns (fs: Families)
    ensures Complete(p, fs)
  {
    fs := [];
    var left := p.interfaces.Keys;
    while left != {}
      invariant left <= p.interfaces.Keys && Sound(p, fs) && forall i :: i in p.interfaces && i !in left ==> HasInterface(p, i, fs)
      decreases |left|
    {
      hide HasInterface, HasClass, Sound;
      var i :| i in left;
      left := left - {i};
      var more := InterfaceFamilies(p, i);
      Joined(p, fs, more);
      fs := fs + more;
    }
    left := p.classes.Keys;
    while left != {}
      invariant left <= p.classes.Keys && Sound(p, fs) && forall i :: i in p.interfaces ==> HasInterface(p, i, fs)
      invariant forall c :: c in p.classes && c !in left ==> HasClass(p, c, fs)
      decreases |left|
    {
      hide HasInterface, HasClass, Sound;
      var c :| c in left;
      left := left - {c};
      var more := ClassFamilies(p, c);
      Joined(p, fs, more);
      fs := fs + more;
    }
  }

  // ----- what a rename changes together -----

  /** Two declarations are in one family of an interface or of a class. */
  ghost predicate Together(p: Program, a: nat, b: nat) {
    exists f :: IsFamily(p, f) && a in f && b in f
  }

  ghost predicate Complete(p: Program, fs: Families) {
    && Sound(p, fs) && (forall i :: i in p.interfaces ==> HasInterface(p, i, fs)) && (forall c :: c in p.classes ==> HasClass(p, c, fs))
  }

  lemma InterfaceFamilyIsThere(p: Program, fs: Families, i: nat, name: string, f: seq<nat>, a: nat, b: nat)
    requires HasInterface(p, i, fs) && InterfaceFamily(p, i, name, f) && a in f && b in f
    ensures Related(fs, a, b)
  {
    hide Offers;
    var m :| Offers(p, i, m) && m.name == name && m.span == a;
    var k :| 0 <= k < |fs| && InterfaceFamily(p, i, m.name, fs[k]);
    assert a in fs[k] && b in fs[k];
  }

  lemma ClassFamilyIsThere(p: Program, fs: Families, c: nat, m: Method, f: seq<nat>, a: nat, b: nat)
    requires c in p.classes && HasClass(p, c, fs) && Has(p, c, m) && ClassFamily(p, c, m, f) && a in f && b in f
    ensures Related(fs, a, b)
  {
    hide Counterpart, Has;
    var k :| 0 <= k < |fs| && ClassFamily(p, c, m, fs[k]);
    assert a in fs[k] && b in fs[k];
  }

  lemma FamiliesAreTogether(p: Program, fs: Families, a: nat, b: nat)
    requires Complete(p, fs)
    ensures Related(fs, a, b) <==> Together(p, a, b)
  {
    hide InterfaceFamily, ClassFamily, HasInterface, HasClass, Has;
    if Together(p, a, b) {
      var f :| IsFamily(p, f) && a in f && b in f;
      if i, name :| i in p.interfaces && InterfaceFamily(p, i, name, f) {
        InterfaceFamilyIsThere(p, fs, i, name, f, a, b);
      } else {
        var c, m :| c in p.classes && Has(p, c, m) && ClassFamily(p, c, m, f);
        ClassFamilyIsThere(p, fs, c, m, f, a, b);
      }
    }
  }

  /** Connected by families, one after the other. */
  ghost predicate TogetherChain(p: Program, chain: seq<nat>) {
    chain != [] && forall i :: 0 < i < |chain| ==> Together(p, chain[i - 1], chain[i])
  }

  ghost predicate RenamedWith(p: Program, a: nat, b: nat) {
    exists chain :: TogetherChain(p, chain) && chain[0] == a && chain[|chain| - 1] == b
  }

  lemma ConnectedIsRenamedWith(p: Program, fs: Families, a: nat, b: nat)
    requires Complete(p, fs)
    ensures Connected(fs, a, b) <==> RenamedWith(p, a, b)
  {
    hide Complete, Together, Related;
    forall chain: seq<nat> ensures Chain(fs, chain) <==> TogetherChain(p, chain) {
      forall i | 0 < i < |chain| ensures Related(fs, chain[i - 1], chain[i]) <==> Together(p, chain[i - 1], chain[i]) {
        FamiliesAreTogether(p, fs, chain[i - 1], chain[i]);
      }
    }
  }

  /** A rename changes exactly the declarations connected with its target by families of the program's
      interfaces and classes. */
  method RenameSet(p: Program, target: nat) returns (found: set<nat>)
    ensures forall x :: x in found <==> RenamedWith(p, target, x)
  {
    var fs := CollectFamilies(p);
    found := RelatedDeclarations(fs, target);
    forall x ensures x in found <==> RenamedWith(p, target, x) { ConnectedIsRenamedWith(p, fs, target, x); }
  }
}
