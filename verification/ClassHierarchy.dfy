/** Single inheritance emulated with embedded structs: members found by Go's promotion, self pointers
    and the root pointer as initializers leave them, and what calls and casts find through them. */
module ClassHierarchy {
  import opened Completions

  /** `declares` are the virtual slots a class introduces, `overrides` the (owner, slot) pairs it
      implements anew. */
  datatype Class = Class(base: Option<nat>, declares: set<string>, overrides: set<(nat, string)>)

  /** Classes by number; a base comes before its subclasses. */
  type Classes = seq<Class>

  predicate Ordered(cs: Classes) {
    forall c :: 0 <= c < |cs| && cs[c].base.Some? ==> cs[c].base.value < c
  }

  /** `a` is `c` or one of its ancestors. */
  predicate Above(cs: Classes, a: nat, c: nat): (above: bool)
    requires Ordered(cs)
    ensures above ==> a <= c < |cs|
    decreases c
  {
    c < |cs| && (a == c || (cs[c].base.Some? && Above(cs, a, cs[c].base.value)))
  }

  predicate WellFormed(cs: Classes) {
    Ordered(cs) && forall c, p :: 0 <= c < |cs| && p in cs[c].overrides ==> p.0 < c && Above(cs, p.0, c) && p.1 in cs[p.0].declares
  }

  lemma {:induction false} AboveTogether(cs: Classes, a: nat, b: nat, c: nat)
    requires Ordered(cs) && Above(cs, a, b) && Above(cs, b, c)
    ensures Above(cs, a, c)
    decreases c
  {
    if b != c { AboveTogether(cs, a, b, cs[c].base.value); }
  }

  // ----- structs -----

  /** The address of a subobject: its struct, and the embedded fields selected from the allocated object,
      each named by its class. */
  datatype Pointer = Pointer(cls: nat, path: seq<nat>)

  function Ancestors(cs: Classes, c: nat): seq<nat>
    requires Ordered(cs)
    decreases c
  {
    if c >= |cs| || cs[c].base.None? then [] else [cs[c].base.value] + Ancestors(cs, cs[c].base.value)
  }

  function Steps(cs: Classes, c: nat, a: nat): (n: nat)
    requires Ordered(cs) && Above(cs, a, c)
    ensures n <= |Ancestors(cs, c)| && (n == 0 <==> a == c)
    decreases c
  {
    if a == c then 0 else 1 + Steps(cs, cs[c].base.value, a)
  }

  /** The chain of embedded fields an upcast selects. */
  function Way(cs: Classes, c: nat, a: nat): (w: seq<nat>)
    requires Ordered(cs) && Above(cs, a, c)
    ensures |w| == Steps(cs, c, a)
  {
    Ancestors(cs, c)[..Steps(cs, c, a)]
  }

  lemma WayUnfolds(cs: Classes, c: nat, a: nat)
    requires Ordered(cs) && Above(cs, a, c)
    ensures if a == c then Way(cs, c, a) == [] else Way(cs, c, a) == [cs[c].base.value] + Way(cs, cs[c].base.value, a)
  {
  }

  lemma {:induction false} WaysJoin(cs: Classes, c: nat, b: nat, a: nat)
    requires Ordered(cs) && Above(cs, a, b) && Above(cs, b, c)
    ensures Above(cs, a, c) && Way(cs, c, b) + Way(cs, b, a) == Way(cs, c, a)
    decreases c
  {
    AboveTogether(cs, a, b, c);
    WayUnfolds(cs, c, b);
    if b != c {
      WaysJoin(cs, cs[c].base.value, b, a);
      WayUnfolds(cs, c, a);
    }
  }

  /** What the generator declares on the struct of a class: the self pointer of an owner of virtual
      slots, the root pointer of a hierarchy, the wrapper that callers of a slot use, the bodies of a
      slot, and the method that projects a receiver to a class with ancestors. */
  datatype Member = Self(owner: nat) | Root | Wrapper(owner: nat, slot: string) | Body(owner: nat, slot: string) | Projection(cls: nat)

  predicate Declares(cs: Classes, c: nat, m: Member) {
    && c < |cs|
    && match m
       case Self(owner) => c == owner && cs[c].declares != {}
       case Root => cs[c].base.None?
       case Wrapper(owner, slot) => c == owner && slot in cs[c].declares
       case Body(owner, slot) => if c == owner then slot in cs[c].declares else (owner, slot) in cs[c].overrides
       case Projection(cls) => c == cls && cs[c].base.Some?
  }

  /** Go's selection of a member, its own or promoted through the embedded base: where it is found. */
  function Selected(cs: Classes, c: nat, m: Member): Option<Pointer>
    requires Ordered(cs)
    decreases c
  {
    if Declares(cs, c, m) then Some(Pointer(c, []))
    else if c >= |cs| || cs[c].base.None? then None
    else
      var found := Selected(cs, cs[c].base.value, m);
      if found.None? then None else Some(Pointer(found.value.cls, [cs[c].base.value] + found.value.path))
  }

  function Select(cs: Classes, p: Pointer, m: Member): Option<Pointer>
    requires Ordered(cs)
  {
    var found := Selected(cs, p.cls, m);
    if found.None? then None else Some(Pointer(found.value.cls, p.path + found.value.path))
  }

  /** `p` is the most derived class at or above `c` that declares the member. */
  ghost predicate MostDerived(cs: Classes, p: nat, c: nat, m: Member)
    requires Ordered(cs)
  {
    Above(cs, p, c) && Declares(cs, p, m) && forall q :: Above(cs, q, c) && Declares(cs, q, m) ==> Above(cs, q, p)
  }

  /** A member is selected exactly if some class at or above declares it; it is found in the most
      derived of these, at the end of the chain of embedded fields that leads there. */
  lemma {:induction false} PromotedIsMostDerived(cs: Classes, c: nat, m: Member)
    requires Ordered(cs) && c < |cs|
    ensures Selected(cs, c, m).Some? <==> exists a :: Above(cs, a, c) && Declares(cs, a, m)
    ensures Selected(cs, c, m).Some? ==>
      var p := Selected(cs, c, m).value; MostDerived(cs, p.cls, c, m) && p.path == Way(cs, c, p.cls)
    decreases c
  {
    if Declares(cs, c, m) {
      assert Above(cs, c, c);
    } else if cs[c].base.Some? {
      var base := cs[c].base.value;
      PromotedIsMostDerived(cs, base, m);
      if Selected(cs, base, m).Some? {
        var p := Selected(cs, base, m).value.cls;
        WayUnfolds(cs, c, p);
        assert Above(cs, p, c);
      }
    }
  }

  /** A member that only one class declares is selected from the classes below that one. */
  lemma OnlyThere(cs: Classes, c: nat, m: Member, a: nat)
    requires Ordered(cs) && c < |cs| && Declares(cs, a, m) && forall b :: Declares(cs, b, m) ==> b == a
    ensures Selected(cs, c, m).Some? <==> Above(cs, a, c)
    ensures Above(cs, a, c) ==> Selected(cs, c, m).value == Pointer(a, Way(cs, c, a))
  {
    PromotedIsMostDerived(cs, c, m);
  }

  function Top(cs: Classes, c: nat): (t: nat)
    requires Ordered(cs) && c < |cs|
    ensures t < |cs|
    decreases c
  {
    if cs[c].base.None? then c else Top(cs, cs[c].base.value)
  }

  lemma {:induction false} TopIsAbove(cs: Classes, a: nat, c: nat)
    requires Ordered(cs) && Above(cs, a, c)
    ensures a < |cs| && Top(cs, a) == Top(cs, c) && Above(cs, Top(cs, c), a) && cs[Top(cs, c)].base.None?
    decreases c
  {
    if a != c { TopIsAbove(cs, a, cs[c].base.value); }
    else if cs[c].base.Some? { TopIsAbove(cs, cs[c].base.value, cs[c].base.value); }
  }

  lemma {:induction false} RootIsAtTop(cs: Classes, c: nat)
    requires Ordered(cs) && c < |cs|
    ensures Above(cs, Top(cs, c), c) && Selected(cs, c, Root) == Some(Pointer(Top(cs, c), Way(cs, c, Top(cs, c))))
    decreases c
  {
    TopIsAbove(cs, c, c);
    if cs[c].base.Some? {
      RootIsAtTop(cs, cs[c].base.value);
      WayUnfolds(cs, c, Top(cs, c));
    }
  }

  // ----- the state that initializers write -----

  /** The self and root pointers of an allocated object, by the path of the subobject that holds them;
      one that is not set is nil. */
  datatype Pointers = Pointers(selfs: map<seq<nat>, Pointer>, roots: map<seq<nat>, Pointer>)

  const NIL: Pointers := Pointers(map[], map[])

  /** What user code of a class runs under, with `this`: field initializers, then the constructor body. */
  datatype Phase = Fields(this_: Pointer, at: Pointers) | Constructor(this_: Pointer, at: Pointers)

  /** Owners of virtual slots at or above a class. */
  function Owners(cs: Classes, c: nat): set<nat>
    requires Ordered(cs)
  {
    set o | 0 <= o < |cs| && Above(cs, o, c) && cs[o].declares != {}
  }

  /** Where the self pointers that the initializer of `p` assigns are stored. */
  function SelfCells(cs: Classes, p: Pointer, owners: set<nat>): set<seq<nat>>
    requires Ordered(cs)
  {
    set o | o in owners && Select(cs, p, Self(o)).Some? :: Select(cs, p, Self(o)).value.path
  }

  /** A pointer field holds an address, or nil. */
  predicate Holds(cells: map<seq<nat>, Pointer>, cell: seq<nat>, at: Option<Pointer>) {
    if at.Some? then cell in cells && cells[cell] == at.value else cell !in cells
  }

  function Filled(cells: set<seq<nat>>, p: Pointer): map<seq<nat>, Pointer> {
    map cell | cell in cells :: p
  }

  lemma FilledOneMore(m: map<seq<nat>, Pointer>, cells: set<seq<nat>>, cell: seq<nat>, p: Pointer)
    ensures m + Filled(cells + {cell}, p) == (m + Filled(cells, p))[cell := p]
  {
  }

  lemma FilledAgain(m: map<seq<nat>, Pointer>, inner: set<seq<nat>>, outer: set<seq<nat>>, p: Pointer, q: Pointer)
    requires inner <= outer
    ensures m + Filled(inner, q) + Filled(outer, p) == m + Filled(outer, p)
  {
  }

  function Set(cs: Classes, p: Pointer, o: Pointers): Pointers
    requires Ordered(cs)
  {
    var cells, root := SelfCells(cs, p, Owners(cs, p.cls)), Select(cs, p, Root);
    Pointers(o.selfs + Filled(cells, p), if root.None? then o.roots else o.roots[root.value.path := p])
  }

  /** The phases of an initializer, base first. */
  function Phases(cs: Classes, p: Pointer, o: Pointers): seq<Phase>
    requires Ordered(cs) && p.cls < |cs|
    decreases p.cls
  {
    var base := cs[p.cls].base;
    var inherited := if base.Some? then Set(cs, Embedded(base.value, p), o) else o;
    (if base.Some? then Phases(cs, Embedded(base.value, p), o) else []) + [Fields(p, inherited), Constructor(p, Set(cs, p, o))]
  }

  function Embedded(base: nat, p: Pointer): Pointer {
    Pointer(base, p.path + [base])
  }

  class ClassObject {
    var selfs: map<seq<nat>, Pointer>
    var roots: map<seq<nat>, Pointer>
    ghost var phases: seq<Phase>

    ghost function View(): Pointers
      reads this
    {
      Pointers(selfs, roots)
    }

    constructor ()
      ensures View() == NIL && phases == []
    {
      selfs, roots, phases := map[], map[], [];
    }

    /** The initializer of a class on its subobject: base, fields, self pointers and root, body. */
    method Initialize(cs: Classes, p: Pointer)
      requires Ordered(cs) && p.cls < |cs|
      modifies this
      ensures View() == Set(cs, p, old(View()))
      ensures phases == old(phases) + Phases(cs, p, old(View()))
      decreases p.cls
    {
      if cs[p.cls].base.Some? {
        Initialize(cs, Embedded(cs[p.cls].base.value, p));
        SetAgain(cs, p, old(View()));
      }
      phases := phases + [Fields(p, View())];
      SetSelfs(cs, p);
      RootIsAtTop(cs, p.cls);
      var root := Select(cs, p, Root);
      roots := roots[root.value.path := p];
      phases := phases + [Constructor(p, View())];
    }

    /** One assignment per owner, to the field that the selector finds. */
    method SetSelfs(cs: Classes, p: Pointer)
      requires Ordered(cs)
      modifies this`selfs
      ensures selfs == old(selfs) + Filled(SelfCells(cs, p, Owners(cs, p.cls)), p)
    {
      hide SelfCells, Filled, Select, Owners;
      var owners := Owners(cs, p.cls);
      var left := owners;
      assert owners - left == {};
      NoCells(cs, p, selfs);
      while left != {}
        invariant left <= owners
        invariant selfs == old(selfs) + Filled(SelfCells(cs, p, owners - left), p)
        decreases |left|
      {
        var o :| o in left;
        var field := Select(cs, p, Self(o));
        CellsOneMore(cs, p, owners - left, o);
        assert owners - (left - {o}) == (owners - left) + {o};
        if field.Some? {
          FilledOneMore(old(selfs), SelfCells(cs, p, owners - left), field.value.path, p);
          selfs := selfs[field.value.path := p];
        }
        left := left - {o};
      }
      assert owners - left == owners;
    }
  }

  lemma NoCells(cs: Classes, p: Pointer, m: map<seq<nat>, Pointer>)
    requires Ordered(cs)
    ensures m + Filled(SelfCells(cs, p, {}), p) == m
  {
  }

  lemma CellsOneMore(cs: Classes, p: Pointer, owners: set<nat>, o: nat)
    requires Ordered(cs)
    ensures SelfCells(cs, p, owners + {o})
            == if Select(cs, p, Self(o)).Some? then SelfCells(cs, p, owners) + {Select(cs, p, Self(o)).value.path} else SelfCells(cs, p, owners)
  {
    hide Select;
  }

  lemma SelfIsAtOwner(cs: Classes, p: Pointer, o: nat)
    requires Ordered(cs) && p.cls < |cs| && o in Owners(cs, p.cls)
    ensures Select(cs, p, Self(o)) == Some(Pointer(o, p.path + Way(cs, p.cls, o)))
  {
    OnlyThere(cs, p.cls, Self(o), o);
  }

  /** A base's initializer assigns some of the same fields: those of the owners above the base. */
  lemma BaseCells(cs: Classes, p: Pointer)
    requires Ordered(cs) && p.cls < |cs| && cs[p.cls].base.Some?
    ensures var base := cs[p.cls].base.value;
            && SelfCells(cs, Embedded(base, p), Owners(cs, base)) <= SelfCells(cs, p, Owners(cs, p.cls))
            && (forall o :: o in Owners(cs, base) ==>
                  o in Owners(cs, p.cls) && Select(cs, Embedded(base, p), Self(o)) == Select(cs, p, Self(o)))
            && Select(cs, Embedded(base, p), Root) == Select(cs, p, Root)
  {
    var base := cs[p.cls].base.value;
    var q := Embedded(base, p);
    forall o | o in Owners(cs, base) ensures o in Owners(cs, p.cls) && Select(cs, q, Self(o)) == Select(cs, p, Self(o)) {
      SelfIsAtOwner(cs, q, o);
      SelfIsAtOwner(cs, p, o);
      WayUnfolds(cs, p.cls, o);
      assert p.path + [base] + Way(cs, base, o) == p.path + ([base] + Way(cs, base, o));
    }
    RootIsAtTop(cs, base);
    RootIsAtTop(cs, p.cls);
    WayUnfolds(cs, p.cls, Top(cs, base));
    assert p.path + [base] + Way(cs, base, Top(cs, base)) == p.path + ([base] + Way(cs, base, Top(cs, base)));
  }

  /** Initializing a class after its base leaves what initializing the class alone would. */
  lemma SetAgain(cs: Classes, p: Pointer, o: Pointers)
    requires Ordered(cs) && p.cls < |cs| && cs[p.cls].base.Some?
    ensures Set(cs, p, Set(cs, Embedded(cs[p.cls].base.value, p), o)) == Set(cs, p, o)
  {
    BaseCells(cs, p);
    var q := Embedded(cs[p.cls].base.value, p);
    FilledAgain(o.selfs, SelfCells(cs, q, Owners(cs, q.cls)), SelfCells(cs, p, Owners(cs, p.cls)), p, q);
    hide Filled, SelfCells, Select;
  }

  // ----- what user code finds -----

  /** The subobject for an ancestor, in an object allocated as class `c`. */
  function Subobject(cs: Classes, c: nat, a: nat): Pointer
    requires Ordered(cs) && Above(cs, a, c)
  {
    Pointer(a, Way(cs, c, a))
  }

  lemma EmbeddedBase(cs: Classes, c: nat, d: nat)
    requires Ordered(cs) && Above(cs, d, c) && cs[d].base.Some?
    ensures var base := cs[d].base.value; Above(cs, base, c) && Embedded(base, Subobject(cs, c, d)) == Subobject(cs, c, base)
  {
    var base := cs[d].base.value;
    assert Above(cs, base, base) && Above(cs, base, d);
    WayUnfolds(cs, d, base);
    WayUnfolds(cs, base, base);
    WaysJoin(cs, c, d, base);
  }

  /** The last class whose initializer has set the pointers. */
  function Reached(cs: Classes, phase: Phase): Option<nat>
    requires phase.this_.cls < |cs|
  {
    if phase.Constructor? then Some(phase.this_.cls) else cs[phase.this_.cls].base
  }

  /** The self pointer of `a` refers to the subobject of `stop`, as far as that is below `a`. */
  predicate SelfPoints(cs: Classes, c: nat, a: nat, stop: Option<nat>, o: Pointers)
    requires Ordered(cs) && (stop.Some? ==> Above(cs, stop.value, c))
  {
    && Above(cs, a, c)
    && Holds(o.selfs, Way(cs, c, a), if stop.Some? && Above(cs, a, stop.value) then Some(Subobject(cs, c, stop.value)) else None)
  }

  predicate RootPoints(cs: Classes, c: nat, stop: Option<nat>, o: Pointers)
    requires Ordered(cs) && c < |cs| && (stop.Some? ==> Above(cs, stop.value, c))
  {
    && Above(cs, Top(cs, c), c)
    && Holds(o.roots, Way(cs, c, Top(cs, c)), if stop.Some? then Some(Subobject(cs, c, stop.value)) else None)
  }

  /** The root pointer, and the self pointer of every owner at or above `d`, refer to the subobject of
      `stop`, the class `d` or its base; an owner that is not above `stop` has none yet. */
  ghost predicate PointTo(cs: Classes, c: nat, d: nat, stop: Option<nat>, o: Pointers)
    requires Ordered(cs) && Above(cs, d, c)
  {
    && (stop.Some? ==> Above(cs, stop.value, d) && Above(cs, stop.value, c))
    && RootPoints(cs, c, stop, o)
    && (forall a :: a in Owners(cs, d) ==> SelfPoints(cs, c, a, stop, o))
  }

  lemma CellsAreWays(cs: Classes, c: nat, d: nat, cell: seq<nat>)
    requires Ordered(cs) && Above(cs, d, c)
    ensures cell in SelfCells(cs, Subobject(cs, c, d), Owners(cs, d))
            <==> exists a :: a in Owners(cs, d) && Above(cs, a, c) && cell == Way(cs, c, a)
  {
    var p := Subobject(cs, c, d);
    forall a | a in Owners(cs, d)
      ensures Above(cs, a, c) && Select(cs, p, Self(a)) == Some(Pointer(a, Way(cs, c, a)))
    {
      SelfIsAtOwner(cs, p, a);
      WaysJoin(cs, c, d, a);
    }
    hide Way, Select;
  }

  /** What the initializer of `d` has set when the constructor body of `d` begins. */
  lemma SetPoints(cs: Classes, c: nat, d: nat)
    requires Ordered(cs) && Above(cs, d, c)
    ensures PointTo(cs, c, d, Some(d), Set(cs, Subobject(cs, c, d), NIL))
  {
    assert Above(cs, d, d);
    var o := Set(cs, Subobject(cs, c, d), NIL);
    hide SelfPoints, RootPoints, Set;
    forall a | a in Owners(cs, d) ensures SelfPoints(cs, c, a, Some(d), o) { SelfIsSet(cs, c, d, a); }
    RootIsSet(cs, c, d);
  }

  lemma SelfIsSet(cs: Classes, c: nat, d: nat, a: nat)
    requires Ordered(cs) && Above(cs, d, c) && a in Owners(cs, d)
    ensures SelfPoints(cs, c, a, Some(d), Set(cs, Subobject(cs, c, d), NIL))
  {
    AboveTogether(cs, a, d, c);
    CellsAreWays(cs, c, d, Way(cs, c, a));
    FilledHolds(SelfCells(cs, Subobject(cs, c, d), Owners(cs, d)), Subobject(cs, c, d), Way(cs, c, a));
    hide SelfCells, Filled, Select, Way;
  }

  lemma RootIsSet(cs: Classes, c: nat, d: nat)
    requires Ordered(cs) && Above(cs, d, c)
    ensures RootPoints(cs, c, Some(d), Set(cs, Subobject(cs, c, d), NIL))
  {
    RootPlace(cs, c, d);
    hide SelfCells, Filled, Select, Way;
  }

  lemma FilledHolds(cells: set<seq<nat>>, p: Pointer, cell: seq<nat>)
    requires cell in cells
    ensures Holds(NIL.selfs + Filled(cells, p), cell, Some(p))
  {
  }

  lemma RootPlace(cs: Classes, c: nat, d: nat)
    requires Ordered(cs) && Above(cs, d, c)
    ensures Above(cs, Top(cs, c), c) && Select(cs, Subobject(cs, c, d), Root) == Some(Pointer(Top(cs, c), Way(cs, c, Top(cs, c))))
  {
    RootIsAtTop(cs, d);
    TopIsAbove(cs, d, c);
    WaysJoin(cs, c, d, Top(cs, d));
  }

  /** When the fields of `d` are initialized, its base has set what is above it. */
  lemma BaseSetPoints(cs: Classes, c: nat, d: nat)
    requires Ordered(cs) && Above(cs, d, c) && cs[d].base.Some?
    ensures var base := cs[d].base.value; Above(cs, base, c) && PointTo(cs, c, d, Some(base), Set(cs, Subobject(cs, c, base), NIL))
  {
    var base := cs[d].base.value;
    EmbeddedBase(cs, c, d);
    SetPoints(cs, c, base);
    var o := Set(cs, Subobject(cs, c, base), NIL);
    OwnersSplit(cs, d);
    OwnCellIsNil(cs, c, d);
    hide Set, RootPoints, Owners;
    forall a | a in Owners(cs, d) ensures SelfPoints(cs, c, a, Some(base), o) {
      if a == d { hide Way; }
    }
    assert Above(cs, base, d);
  }

  lemma OwnersSplit(cs: Classes, d: nat)
    requires Ordered(cs) && d < |cs| && cs[d].base.Some?
    ensures forall a :: a in Owners(cs, d) <==> a in Owners(cs, cs[d].base.value) || (a == d && cs[d].declares != {})
    ensures forall a :: a in Owners(cs, cs[d].base.value) ==> Above(cs, a, cs[d].base.value)
    ensures !Above(cs, d, cs[d].base.value)
  {
  }

  lemma OwnCellIsNil(cs: Classes, c: nat, d: nat)
    requires Ordered(cs) && Above(cs, d, c) && cs[d].base.Some? && Above(cs, cs[d].base.value, c)
    ensures Way(cs, c, d) !in Set(cs, Subobject(cs, c, cs[d].base.value), NIL).selfs
  {
    var base := cs[d].base.value;
    CellsAreWays(cs, c, base, Way(cs, c, d));
    forall a | a in Owners(cs, base) && Above(cs, a, c) ensures Way(cs, c, a) != Way(cs, c, d) {
      WaysJoin(cs, c, d, a);
    }
  }

  /** Every phase of an initializer, and what the pointers hold in it. */
  lemma {:induction false} PhasesPoint(cs: Classes, c: nat, d: nat, i: nat)
    requires Ordered(cs) && Above(cs, d, c) && i < |Phases(cs, Subobject(cs, c, d), NIL)|
    ensures var phase := Phases(cs, Subobject(cs, c, d), NIL)[i];
            var e := phase.this_.cls;
            && Above(cs, e, d) && Above(cs, e, c) && e < |cs| && phase.this_ == Subobject(cs, c, e)
            && PointTo(cs, c, e, Reached(cs, phase), phase.at)
    decreases d
  {
    var p := Subobject(cs, c, d);
    hide Set, PointTo, Way;
    if cs[d].base.Some? {
      var base := cs[d].base.value;
      EmbeddedBase(cs, c, d);
      var inner := Phases(cs, Embedded(base, p), NIL);
      if i < |inner| { PhasesPoint(cs, c, base, i); }
      if i == |inner| { BaseSetPoints(cs, c, d); }
    } else if i == 0 {
      NothingPoints(cs, c, d);
    }
    SetPoints(cs, c, d);
  }

  lemma NothingPoints(cs: Classes, c: nat, d: nat)
    requires Ordered(cs) && Above(cs, d, c) && cs[d].base.None?
    ensures PointTo(cs, c, d, None, NIL)
  {
  }

  // ----- calls -----

  function Load(cells: map<seq<nat>, Pointer>, field: Option<Pointer>): Option<Pointer> {
    if field.Some? && field.value.path in cells then Some(cells[field.value.path]) else None
  }

  /** A call of a virtual slot on any pointer: the wrapper that Go selects runs with the owner's
      subobject and calls the slot's body through the owner's self pointer, or on its own receiver when
      that is nil. The result is the receiver of the body that runs, whose struct is the class that
      defines it. */
  function Dispatch(cs: Classes, o: Pointers, p: Pointer, owner: nat, slot: string): Option<Pointer>
    requires Ordered(cs)
  {
    var receiver := Select(cs, p, Wrapper(owner, slot));
    if receiver.None? then None
    else
      var self := Load(o.selfs, Select(cs, receiver.value, Self(owner)));
      Select(cs, if self.Some? then self.value else receiver.value, Body(owner, slot))
  }

  /** Selecting on a subobject a member that only `a` declares finds the subobject of `a`. */
  lemma SelectsOnly(cs: Classes, c: nat, d: nat, m: Member, a: nat)
    requires Ordered(cs) && Above(cs, d, c) && Above(cs, a, d) && Declares(cs, a, m) && forall b :: Declares(cs, b, m) ==> b == a
    ensures Above(cs, a, c) && Select(cs, Subobject(cs, c, d), m) == Some(Subobject(cs, c, a))
  {
    OnlyThere(cs, d, m, a);
    WaysJoin(cs, c, d, a);
  }

  lemma SelectsMostDerived(cs: Classes, c: nat, d: nat, m: Member, a: nat)
    requires Ordered(cs) && Above(cs, d, c) && Above(cs, a, d) && Declares(cs, a, m)
    ensures var r := Select(cs, Subobject(cs, c, d), m);
            r.Some? && Above(cs, r.value.cls, c) && r.value == Subobject(cs, c, r.value.cls) && MostDerived(cs, r.value.cls, d, m)
  {
    PromotedIsMostDerived(cs, d, m);
    var p := Selected(cs, d, m).value;
    WaysJoin(cs, c, d, p.cls);
  }

  /** Where dispatch stops in a phase: at the class under construction, except for inherited slots while
      its fields are initialized, which stop at its base. */
  function Stop(cs: Classes, phase: Phase, owner: nat): nat
    requires phase.this_.cls < |cs|
  {
    var base := cs[phase.this_.cls].base;
    if phase.Constructor? || owner == phase.this_.cls || base.None? then phase.this_.cls else base.value
  }

  /** `e` holds the definition of a slot that counts in class `c`: it introduces the slot or overrides it,
      and every class at or above `c` that overrides it is at or above `e`. */
  ghost predicate Defines(cs: Classes, e: nat, c: nat, owner: nat, slot: string)
    requires Ordered(cs)
  {
    && Above(cs, e, c) && (if e == owner then slot in cs[e].declares else (owner, slot) in cs[e].overrides)
    && forall q: nat :: Above(cs, q, c) && (owner, slot) in cs[q].overrides ==> Above(cs, q, e)
  }

  lemma MostDerivedDefines(cs: Classes, e: nat, c: nat, owner: nat, slot: string)
    requires WellFormed(cs) && MostDerived(cs, e, c, Body(owner, slot))
    ensures Defines(cs, e, c, owner, slot)
  {
    forall q: nat | Above(cs, q, c) && (owner, slot) in cs[q].overrides ensures Above(cs, q, e) {
      assert Declares(cs, q, Body(owner, slot));
    }
  }

  lemma DispatchFinds(cs: Classes, c: nat, d: nat, o: Pointers, stop: Option<nat>, via: nat, owner: nat, slot: string, at: nat)
    requires WellFormed(cs) && Above(cs, d, c) && PointTo(cs, c, d, stop, o) && Above(cs, via, d) && Above(cs, owner, via)
    requires slot in cs[owner].declares
    requires if stop.Some? && Above(cs, owner, stop.value) then at == stop.value else at == owner
    ensures Above(cs, via, c)
    ensures var r := Dispatch(cs, o, Subobject(cs, c, via), owner, slot);
            r.Some? && MostDerived(cs, r.value.cls, at, Body(owner, slot)) && Above(cs, r.value.cls, c) && r.value == Subobject(cs, c, r.value.cls)
  {
    AboveTogether(cs, via, d, c);
    AboveTogether(cs, owner, via, d);
    SelectsOnly(cs, c, via, Wrapper(owner, slot), owner);
    SelectsOnly(cs, c, owner, Self(owner), owner);
    assert owner in Owners(cs, d);
    assert SelfPoints(cs, c, owner, stop, o);
    hide Select, Way, RootPoints, Owners;
    assert Above(cs, owner, owner);
    SelectsMostDerived(cs, c, at, Body(owner, slot), owner);
  }

  lemma DispatchStops(cs: Classes, c: nat, d: nat, o: Pointers, stop: Option<nat>, via: nat, owner: nat, slot: string, at: nat)
    requires WellFormed(cs) && Above(cs, d, c) && PointTo(cs, c, d, stop, o) && Above(cs, via, d) && Above(cs, owner, via)
    requires slot in cs[owner].declares
    requires if stop.Some? && Above(cs, owner, stop.value) then at == stop.value else at == owner
    ensures Above(cs, via, c)
    ensures var r := Dispatch(cs, o, Subobject(cs, c, via), owner, slot);
            r.Some? && Defines(cs, r.value.cls, at, owner, slot) && Above(cs, r.value.cls, c) && r.value == Subobject(cs, c, r.value.cls)
  {
    hide Dispatch, MostDerived, Defines, PointTo, Way;
    DispatchFinds(cs, c, d, o, stop, via, owner, slot, at);
    MostDerivedDefines(cs, Dispatch(cs, o, Subobject(cs, c, via), owner, slot).value.cls, at, owner, slot);
  }

  /** A virtual slot called on any pointer that user code has in a phase (`this` seen through any upcast
      `via`) runs the last override at or above the class where dispatch stops, or else the owner's own
      definition, on the subobject of the class that holds it. */
  lemma DispatchByPhase(cs: Classes, c: nat, i: nat, via: nat, owner: nat, slot: string)
    requires WellFormed(cs) && c < |cs| && i < |Phases(cs, Pointer(c, []), NIL)|
    requires Above(cs, via, Phases(cs, Pointer(c, []), NIL)[i].this_.cls) && Above(cs, owner, via) && slot in cs[owner].declares
    ensures var phase := Phases(cs, Pointer(c, []), NIL)[i];
            && Above(cs, via, c) && phase.this_.cls < |cs|
            && var r := Dispatch(cs, phase.at, Subobject(cs, c, via), owner, slot);
               r.Some? && Defines(cs, r.value.cls, Stop(cs, phase, owner), owner, slot)
               && Above(cs, r.value.cls, c) && r.value == Subobject(cs, c, r.value.cls)
  {
    hide PointTo, Dispatch, Select, Phases, Defines;
    assert Above(cs, c, c) && Subobject(cs, c, c) == Pointer(c, []);
    var phase := Phases(cs, Pointer(c, []), NIL)[i];
    PhasesPoint(cs, c, c, i);
    var d := phase.this_.cls;
    AboveTogether(cs, owner, via, d);
    DispatchStops(cs, c, d, phase.at, Reached(cs, phase), via, owner, slot, Stop(cs, phase, owner));
  }

  /** A finished object is in the state of the last phase, its own constructor body. */
  lemma LastPhase(cs: Classes, p: Pointer, o: Pointers)
    requires Ordered(cs) && p.cls < |cs|
    ensures var phases := Phases(cs, p, o); phases != [] && phases[|phases| - 1] == Constructor(p, Set(cs, p, o))
  {
  }

  /** So a constructed object dispatches every slot, through any upcast, to the last override there is, or
      else to the owner's own definition. */
  lemma ConstructedDispatch(cs: Classes, c: nat, via: nat, owner: nat, slot: string)
    requires WellFormed(cs) && Above(cs, via, c) && Above(cs, owner, via) && slot in cs[owner].declares
    ensures var r := Dispatch(cs, Set(cs, Pointer(c, []), NIL), Subobject(cs, c, via), owner, slot);
            r.Some? && Defines(cs, r.value.cls, c, owner, slot) && Above(cs, r.value.cls, c) && r.value == Subobject(cs, c, r.value.cls)
  {
    hide Phases, Dispatch, Defines, Subobject;
    LastPhase(cs, Pointer(c, []), NIL);
    DispatchByPhase(cs, c, |Phases(cs, Pointer(c, []), NIL)| - 1, via, owner, slot);
  }

  // ----- casts -----

  /** An upcast takes the address of a chain of embedded fields, the first of the class's ancestors. */
  function Upcast(cs: Classes, p: Pointer, to: nat): Pointer
    requires Ordered(cs) && Above(cs, to, p.cls)
  {
    Pointer(to, p.path + Way(cs, p.cls, to))
  }

  /** A checked downcast to `target`: the interface value in the root field is asserted to have the
      target's projection method; if its dynamic type has it in its method set, the method is called and
      returns its receiver. */
  function Downcast(cs: Classes, o: Pointers, p: Pointer, target: nat): Option<Pointer>
    requires Ordered(cs)
  {
    var root := Load(o.roots, Select(cs, p, Root));
    if root.None? then None else Select(cs, root.value, Projection(target))
  }

  /** The method set of a class has the projection to `target` exactly when that is the class or one of
      its ancestors, and has an ancestor; the receiver is then the target's subobject. */
  lemma Projects(cs: Classes, c: nat, d: nat, target: nat)
    requires Ordered(cs) && Above(cs, d, c) && target < |cs|
    ensures Select(cs, Subobject(cs, c, d), Projection(target)).Some? <==> Above(cs, target, d) && cs[target].base.Some?
    ensures Above(cs, target, d) && cs[target].base.Some? ==>
      Above(cs, target, c) && Select(cs, Subobject(cs, c, d), Projection(target)) == Some(Subobject(cs, c, target))
  {
    if cs[target].base.Some? {
      OnlyThere(cs, d, Projection(target), target);
      if Above(cs, target, d) { SelectsOnly(cs, c, d, Projection(target), target); }
    } else {
      PromotedIsMostDerived(cs, d, Projection(target));
    }
  }

  /** In any phase of any object, a downcast from an ancestor of `target` seen through any upcast of
      `this` succeeds if and only if `target` is at or above the last class whose pointers are set. It
      yields the target's own subobject, and upcasting that gives back the address it came from. */
  lemma DowncastByPhase(cs: Classes, c: nat, i: nat, via: nat, target: nat)
    requires Ordered(cs) && c < |cs| && i < |Phases(cs, Pointer(c, []), NIL)|
    requires Above(cs, via, Phases(cs, Pointer(c, []), NIL)[i].this_.cls) && Above(cs, via, target) && via != target
    ensures var phase := Phases(cs, Pointer(c, []), NIL)[i];
            && Above(cs, via, c) && phase.this_.cls < |cs|
            && var p, stop := Subobject(cs, c, via), Reached(cs, phase);
               var r := Downcast(cs, phase.at, p, target);
               && (r.Some? <==> stop.Some? && Above(cs, target, stop.value))
               && (r.Some? ==> Above(cs, target, c) && r.value == Subobject(cs, c, target) && Upcast(cs, r.value, via) == p)
  {
    hide PointTo, Select, Phases, SelfPoints;
    assert Above(cs, c, c) && Subobject(cs, c, c) == Pointer(c, []);
    var phase := Phases(cs, Pointer(c, []), NIL)[i];
    PhasesPoint(cs, c, c, i);
    RootIsLoaded(cs, c, phase.this_.cls, Reached(cs, phase), phase.at, via);
    var stop := Reached(cs, phase);
    if stop.Some? {
      Projects(cs, c, stop.value, target);
      if Above(cs, target, stop.value) { WaysJoin(cs, c, target, via); }
    }
  }

  lemma RootIsLoaded(cs: Classes, c: nat, d: nat, stop: Option<nat>, o: Pointers, via: nat)
    requires Ordered(cs) && Above(cs, d, c) && PointTo(cs, c, d, stop, o) && Above(cs, via, d)
    ensures Above(cs, via, c) && (stop.Some? ==> Above(cs, stop.value, c))
    ensures Load(o.roots, Select(cs, Subobject(cs, c, via), Root)) == if stop.Some? then Some(Subobject(cs, c, stop.value)) else None
  {
    AboveTogether(cs, via, d, c);
    RootPlace(cs, c, via);
  }

  /** In a constructed object, the downcast succeeds if and only if the target is the dynamic class or an
      ancestor of it. */
  lemma DowncastIsExact(cs: Classes, dynamic: nat, via: nat, target: nat)
    requires Ordered(cs) && Above(cs, via, dynamic) && Above(cs, via, target) && via != target
    ensures var p := Subobject(cs, dynamic, via);
            var r := Downcast(cs, Set(cs, Pointer(dynamic, []), NIL), p, target);
            && (r.Some? <==> Above(cs, target, dynamic))
            && (r.Some? ==> r.value == Subobject(cs, dynamic, target) && Upcast(cs, r.value, via) == p)
  {
    hide Phases, Downcast, Subobject, Set, Upcast, Way;
    LastPhase(cs, Pointer(dynamic, []), NIL);
    DowncastByPhase(cs, dynamic, |Phases(cs, Pointer(dynamic, []), NIL)| - 1, via, target);
  }

  /** A value that no initializer ran on, made by Go code: slots run the owner's own bodies, and no
      downcast succeeds. */
  lemma ZeroValue(cs: Classes, c: nat, via: nat, owner: nat, slot: string, target: nat)
    requires Ordered(cs) && Above(cs, via, c) && Above(cs, owner, via) && slot in cs[owner].declares
    ensures Downcast(cs, NIL, Subobject(cs, c, via), target) == None
    ensures Above(cs, owner, c) && Dispatch(cs, NIL, Subobject(cs, c, via), owner, slot) == Some(Subobject(cs, c, owner))
  {
    SelectsOnly(cs, c, via, Wrapper(owner, slot), owner);
    assert Declares(cs, owner, Body(owner, slot)) && Way(cs, c, owner) + [] == Way(cs, c, owner);
  }
}
