/** Global names of linked modules: the loops that pick them, and that what they pick is free. */
module LinkNames {
  import opened Completions
  import opened GoNames

  // ----- numbered candidates -----

  function Digit(n: nat): char
    requires n < 10
  {
    "0123456789"[n]
  }

  function Decimal(n: nat): (s: string)
    ensures s != "" && s[|s| - 1] == Digit(n % 10) && (n >= 10 ==> |s| >= 2)
  {
    if n < 10 then [Digit(n)] else Decimal(n / 10) + [Digit(n % 10)]
  }

  lemma SameDigit(a: nat, b: nat)
    requires a < 10 && b < 10 && Digit(a) == Digit(b)
    ensures a == b
  {
  }

  lemma {:induction false} DecimalDistinct(a: nat, b: nat)
    requires Decimal(a) == Decimal(b)
    ensures a == b
  {
    SameDigit(a % 10, b % 10);
    if a >= 10 && b >= 10 {
      var s := Decimal(a);
      assert s[..|s| - 1] == Decimal(a / 10) && s[..|s| - 1] == Decimal(b / 10);
      DecimalDistinct(a / 10, b / 10);
    }
  }

  function Numbered(base: string, n: nat): string {
    base + "_" + Decimal(n)
  }

  /** A numbered name is not reserved, so it is emitted as it is, and no two are alike. */
  lemma NumberedNames(base: string, m: nat, n: nat)
    ensures Identifier(Numbered(base, m)) == Numbered(base, m)
    ensures Identifier(Numbered(base, m)) == Identifier(Numbered(base, n)) ==> m == n
  {
    NumberedKept(base, m);
    NumberedKept(base, n);
    if Numbered(base, m) == Numbered(base, n) {
      assert Decimal(m) == Numbered(base, m)[|base| + 1..] && Decimal(n) == Numbered(base, n)[|base| + 1..];
      DecimalDistinct(m, n);
    }
  }

  predicate EndsInDigit(name: string) {
    name != "" && '0' <= name[|name| - 1] <= '9'
  }

  lemma ReservedHasNoDigit(name: string)
    requires Reserved(name)
    ensures !EndsInDigit(name)
  {
  }

  lemma NumberedKept(base: string, n: nat)
    ensures Identifier(Numbered(base, n)) == Numbered(base, n)
  {
    hide Reserved;
    var name := Numbered(base, n);
    assert name[|name| - 1] == Decimal(n)[|Decimal(n)| - 1];
    if Reserved(name) { ReservedHasNoDigit(name); }
  }

  /** The suffix loop: the base itself if it is free, or the first free numbered name. */
  method Fresh(base: string, taken: set<string>) returns (name: string)
    ensures Identifier(name) !in taken
    ensures Identifier(base) !in taken ==> name == base
    ensures Identifier(base) in taken ==>
      exists n :: n >= 2 && name == Numbered(base, n) && forall k :: 2 <= k < n ==> Identifier(Numbered(base, k)) in taken
  {
    hide Identifier, Numbered;
    name := base;
    var suffix: nat := 2;
    ghost var left := taken;
    while Identifier(name) in taken
      invariant suffix >= 2 && left <= taken
      invariant if suffix == 2 then name == base else name == Numbered(base, suffix - 1)
      invariant suffix > 2 ==> Identifier(base) in taken
      invariant forall k :: 2 <= k < suffix - 1 ==> Identifier(Numbered(base, k)) in taken
      invariant forall k :: k >= 2 && k >= suffix - 1 && Identifier(Numbered(base, k)) in taken ==> Identifier(Numbered(base, k)) in left
      decreases |left| + if suffix == 2 then 1 else 0
    {
      if suffix > 2 {
        forall k: nat | k >= suffix ensures Identifier(Numbered(base, k)) != Identifier(name) { NumberedNames(base, k, suffix - 1); }
        left := left - {Identifier(name)};
      }
      name := Numbered(base, suffix);
      suffix := suffix + 1;
    }
  }

  // ----- declarations -----

  /** A top-level declaration; `external` marks a root document that belongs to another package. */
  datatype Decl = Decl(path: string, name: string, root: bool, external: bool)

  function Emitted(names: seq<string>): set<string> {
    set i | 0 <= i < |names| :: Identifier(names[i])
  }

  function Spellings(decls: seq<Decl>): set<string> {
    set i | 0 <= i < |decls| :: Identifier(decls[i].name)
  }

  predicate Shared(decls: seq<Decl>, i: nat)
    requires i < |decls|
  {
    exists j :: 0 <= j < |decls| && j != i && Identifier(decls[j].name) == Identifier(decls[i].name)
  }

  predicate ForeignMain(d: Decl) {
    d.name == "main" && (!d.root || d.external)
  }

  predicate Renamed(decls: seq<Decl>, lexical: set<string>, i: nat)
    requires i < |decls|
  {
    ForeignMain(decls[i]) || ((Shared(decls, i) || Identifier(decls[i].name) in lexical) && !decls[i].root)
  }

  /** Kept root declarations may collide with each other and with their own locals; that is for the
      checker. */
  predicate RootKept(d: Decl) {
    d.root && !ForeignMain(d)
  }

  function Count(decls: seq<Decl>, spelling: string): nat {
    if decls == [] then 0
    else Count(decls[..|decls| - 1], spelling) + if Identifier(decls[|decls| - 1].name) == spelling then 1 else 0
  }

  lemma {:induction false} CountPositive(decls: seq<Decl>, spelling: string)
    ensures Count(decls, spelling) > 0 <==> exists i :: 0 <= i < |decls| && Identifier(decls[i].name) == spelling
  {
    hide Identifier;
    if decls != [] {
      var front := decls[..|decls| - 1];
      CountPositive(front, spelling);
      if i :| 0 <= i < |front| && Identifier(front[i].name) == spelling { assert decls[i] == front[i]; }
      if i :| 0 <= i < |decls| && Identifier(decls[i].name) == spelling && i != |decls| - 1 { assert front[i] == decls[i]; }
    }
  }

  lemma {:induction false} CountShared(decls: seq<Decl>, i: nat)
    requires i < |decls|
    ensures Count(decls, Identifier(decls[i].name)) > 1 <==> Shared(decls, i)
  {
    var n, spelling := |decls| - 1, Identifier(decls[i].name);
    var front := decls[..n];
    hide Identifier;
    CountPositive(front, spelling);
    if i < n {
      assert front[i] == decls[i];
      CountShared(front, i);
      SharedWithLast(decls, i);
    } else {
      SharedByLast(decls);
    }
  }

  lemma SharedWithLast(decls: seq<Decl>, i: nat)
    requires i < |decls| - 1
    ensures var n := |decls| - 1;
            Shared(decls, i) <==> Shared(decls[..n], i) || Identifier(decls[n].name) == Identifier(decls[i].name)
  {
    hide Identifier;
    var n := |decls| - 1;
    var front := decls[..n];
    if Shared(decls, i) {
      var j :| 0 <= j < |decls| && j != i && Identifier(decls[j].name) == Identifier(decls[i].name);
      if j < n { assert front[j] == decls[j]; }
    }
    if Shared(front, i) {
      var j :| 0 <= j < |front| && j != i && Identifier(front[j].name) == Identifier(front[i].name);
      assert decls[j] == front[j];
    }
  }

  lemma SharedByLast(decls: seq<Decl>)
    requires decls != []
    ensures var n := |decls| - 1;
            Shared(decls, n) <==> exists j :: 0 <= j < n && Identifier(decls[..n][j].name) == Identifier(decls[n].name)
  {
    hide Identifier;
    var n := |decls| - 1;
    if Shared(decls, n) {
      var j :| 0 <= j < |decls| && j != n && Identifier(decls[j].name) == Identifier(decls[n].name);
      assert decls[..n][j] == decls[j];
    }
    if j :| 0 <= j < n && Identifier(decls[..n][j].name) == Identifier(decls[n].name) {
      assert decls[j] == decls[..n][j];
    }
  }

  function Counted(counts: map<string, nat>, name: string): nat {
    if name in counts then counts[name] else 0
  }

  /** The first loop: how many declarations have each spelling. */
  method CountNames(decls: seq<Decl>) returns (counts: map<string, nat>)
    ensures forall name :: Counted(counts, name) == Count(decls, name) && (name in counts <==> Count(decls, name) > 0)
  {
    counts := map[];
    for n := 0 to |decls|
      invariant forall name :: Counted(counts, name) == Count(decls[..n], name) && (name in counts <==> Count(decls[..n], name) > 0)
    {
      var emitted := Identifier(decls[n].name);
      assert decls[..n + 1][..n] == decls[..n];
      counts := counts[emitted := Counted(counts, emitted) + 1];
    }
    assert decls[..|decls|] == decls;
  }

  /** Names that no declaration of a dependency and no local binding shares. */
  predicate Separate(decls: seq<Decl>, lexical: set<string>, linked: seq<string>) {
    && |linked| == |decls|
    && (forall i :: 0 <= i < |decls| && RootKept(decls[i]) ==> linked[i] == decls[i].name)
    && (forall i :: 0 <= i < |decls| && !RootKept(decls[i]) ==> Identifier(linked[i]) !in lexical)
    && (forall i, j :: 0 <= i < |decls| && 0 <= j < |decls| && i != j && !RootKept(decls[i]) ==> Identifier(linked[i]) != Identifier(linked[j]))
  }

  /** The names picked so far. */
  predicate Picked(decls: seq<Decl>, lexical: set<string>, linked: seq<string>) {
    && |linked| <= |decls|
    && (forall i :: 0 <= i < |linked| && !Renamed(decls, lexical, i) ==> linked[i] == decls[i].name)
    && (forall i :: 0 <= i < |linked| && Renamed(decls, lexical, i) ==> Identifier(linked[i]) !in lexical + Spellings(decls))
    && (forall i, j :: 0 <= i < j < |linked| && (Renamed(decls, lexical, i) || Renamed(decls, lexical, j)) ==>
          Identifier(linked[i]) != Identifier(linked[j]))
  }

  lemma PickedOneMore(decls: seq<Decl>, lexical: set<string>, linked: seq<string>, name: string)
    requires Picked(decls, lexical, linked) && |linked| < |decls|
    requires if Renamed(decls, lexical, |linked|) then Identifier(name) !in lexical + Spellings(decls) + Emitted(linked)
             else name == decls[|linked|].name
    ensures Picked(decls, lexical, linked + [name])
  {
    var n, next := |linked|, linked + [name];
    assert Identifier(decls[n].name) in Spellings(decls);
    forall i, j | 0 <= i < j < |next| && (Renamed(decls, lexical, i) || Renamed(decls, lexical, j))
      ensures Identifier(next[i]) != Identifier(next[j])
    {
      hide Renamed;
      if j == n { assert Identifier(linked[i]) in Emitted(linked); }
    }
  }

  /** The second loop. `derive` is the module's derived name, whatever it hashes to. */
  method LinkDeclarations(decls: seq<Decl>, lexical: set<string>, derive: (string, string) -> string) returns (linked: seq<string>)
    ensures Separate(decls, lexical, linked)
    ensures forall i :: 0 <= i < |decls| && !Renamed(decls, lexical, i) ==> linked[i] == decls[i].name
    ensures forall i :: 0 <= i < |decls| && Renamed(decls, lexical, i) ==> Identifier(linked[i]) !in lexical + Spellings(decls)
    ensures forall i :: 0 <= i < |decls| && decls[i].name == "main" ==>
      if decls[i].root && !decls[i].external then linked[i] == "main" else Identifier(linked[i]) != "main"
  {
    var counts := CountNames(decls);
    var reserved := lexical + counts.Keys;
    KeysAreSpellings(decls, counts);
    linked := [];
    assert Emitted([]) == {};
    for n := 0 to |decls|
      invariant |linked| == n && reserved == lexical + Spellings(decls) + Emitted(linked)
      invariant Picked(decls, lexical, linked)
    {
      var d := decls[n];
      var name := d.name;
      CountShared(decls, n);
      if ForeignMain(d) || ((Counted(counts, Identifier(d.name)) > 1 || Identifier(d.name) in lexical) && !d.root) {
        name := Fresh(derive(d.path, d.name), reserved);
      }
      PickedOneMore(decls, lexical, linked, name);
      EmittedOneMore(linked, name);
      linked := linked + [name];
      reserved := reserved + {Identifier(name)};
    }
    NamesAreSeparate(decls, lexical, linked);
    MainsMove(decls, lexical, linked);
  }

  lemma PlainMain()
    ensures Identifier("main") == "main"
  {
  }

  /** Only the root's own `main` stays one. */
  lemma MainsMove(decls: seq<Decl>, lexical: set<string>, linked: seq<string>)
    requires |linked| == |decls| && Picked(decls, lexical, linked)
    ensures forall i :: 0 <= i < |decls| && decls[i].name == "main" ==>
      if decls[i].root && !decls[i].external then linked[i] == "main" else Identifier(linked[i]) != "main"
  {
    hide Identifier, Shared;
    forall i | 0 <= i < |decls| && decls[i].name == "main"
      ensures if decls[i].root && !decls[i].external then linked[i] == "main" else Identifier(linked[i]) != "main"
    {
      PlainMain();
      assert Identifier(decls[i].name) in Spellings(decls);
    }
  }

  lemma KeysAreSpellings(decls: seq<Decl>, counts: map<string, nat>)
    requires forall name :: name in counts <==> Count(decls, name) > 0
    ensures counts.Keys == Spellings(decls)
  {
    forall name ensures name in counts.Keys <==> name in Spellings(decls) { CountPositive(decls, name); }
  }

  lemma EmittedOneMore(names: seq<string>, name: string)
    ensures Emitted(names + [name]) == Emitted(names) + {Identifier(name)}
  {
    var all := names + [name];
    forall x | x in Emitted(names) ensures x in Emitted(all) {
      var i :| 0 <= i < |names| && x == Identifier(names[i]);
      assert all[i] == names[i];
    }
    assert all[|names|] == name;
  }

  lemma NamesAreSeparate(decls: seq<Decl>, lexical: set<string>, linked: seq<string>)
    requires |linked| == |decls| && Picked(decls, lexical, linked)
    ensures Separate(decls, lexical, linked)
  {
    forall i, j | 0 <= i < |decls| && 0 <= j < |decls| && i != j && !RootKept(decls[i])
      ensures Identifier(linked[i]) != Identifier(linked[j])
    {
      if !Renamed(decls, lexical, i) && !Renamed(decls, lexical, j) {
        assert !Shared(decls, i);
      }
    }
  }

  // ----- Go imports -----

  /** A Go import; `named` when it imports names instead of binding an alias. */
  datatype Import = Import(path: string, alias: string, named: bool)

  const LEXICAL: string := "<lexical binding>"
  const DECLARATION: string := "<language declaration>"
  const BUILTIN: string := "<Go built-in>"

  const BUILTINS: set<string> := {"bool", "string", "int", "int32", "int64", "float32", "float64", "byte"}

  const LANGUAGE_TYPES: set<string> := {
    "void", "boolean", "string", "int", "int8", "int16", "int32", "int64", "uint", "uint8", "uint16", "uint32", "uint64",
    "float32", "float", "number", "float64", "byte", "error", "Map", "Result", "Task", "DecoratorContext",
    "ClassDecoratorContext", "FieldDecoratorContext", "ConstructorDecoratorContext", "MethodDecoratorContext",
    "GetterDecoratorContext", "SetterDecoratorContext", "ParameterDecoratorContext", "DecoratorValue" }

  predicate LanguageType(name: string) {
    name in LANGUAGE_TYPES
  }

  predicate ImportPath(path: string) {
    path != "" && path != LEXICAL && path != DECLARATION && path != BUILTIN
  }

  /** Who owns each spelling before any alias is chosen. */
  function Owners(lexical: set<string>, declared: set<string>): map<string, string> {
    map name | name in BUILTINS + lexical + declared ::
      if name in declared then DECLARATION else if name in lexical then LEXICAL else BUILTIN
  }

  /** Aliases are one-to-one, and none is spelled like anything else. */
  predicate AliasesOk(canonical: map<string, string>, others: set<string>) {
    && (forall p :: p in canonical ==> Identifier(canonical[p]) !in others)
    && (forall p, q :: p in canonical && q in canonical && p != q ==> Identifier(canonical[p]) != Identifier(canonical[q]))
  }

  predicate OwnersOk(used: map<string, string>, canonical: map<string, string>, others: set<string>) {
    && (forall name :: name in others ==> name in used && !ImportPath(used[name]) && used[name] != "")
    && (forall p :: p in canonical ==> ImportPath(p) && Identifier(canonical[p]) in used && used[Identifier(canonical[p])] == p)
    && (forall name :: name in used && name !in others ==> used[name] in canonical && Identifier(canonical[used[name]]) == name)
  }

  lemma OwnsOneMore(used: map<string, string>, canonical: map<string, string>, others: set<string>, path: string, linked: string)
    requires OwnersOk(used, canonical, others) && ImportPath(path) && path !in canonical && Identifier(linked) !in used
    ensures OwnersOk(used[Identifier(linked) := path], canonical[path := linked], others)
  {
  }

  predicate EverNamed(modules: seq<seq<Import>>, path: string) {
    exists m, i :: 0 <= m < |modules| && 0 <= i < |modules[m]| && modules[m][i].named && modules[m][i].path == path
  }

  /** Each import that is not rejected has its path's canonical alias. */
  predicate Resolved(imports: seq<Import>, out: seq<Option<string>>, canonical: map<string, string>) {
    |out| == |imports| && forall i :: 0 <= i < |imports| && out[i].Some? ==>
      imports[i].path in canonical && out[i].value == canonical[imports[i].path]
  }

  predicate Extends(after: map<string, string>, before: map<string, string>) {
    forall p :: p in before ==> p in after && after[p] == before[p]
  }

  lemma ResolvedStays(imports: seq<Import>, out: seq<Option<string>>, before: map<string, string>, after: map<string, string>)
    requires Resolved(imports, out, before) && Extends(after, before)
    ensures Resolved(imports, out, after)
  {
  }

  lemma ResolvedOneMore(imports: seq<Import>, i: nat, out: seq<Option<string>>, canonical: map<string, string>, linked: Option<string>)
    requires i < |imports| && Resolved(imports[..i], out, canonical)
    requires linked.Some? ==> imports[i].path in canonical && linked.value == canonical[imports[i].path]
    ensures Resolved(imports[..i + 1], out + [linked], canonical)
  {
  }

  lemma AliasesFollow(used: map<string, string>, canonical: map<string, string>, others: set<string>)
    requires OwnersOk(used, canonical, others)
    ensures AliasesOk(canonical, others)
  {
  }

  lemma OwnersAtFirst(lexical: set<string>, declared: set<string>)
    ensures OwnersOk(Owners(lexical, declared), map[], BUILTINS + lexical + declared)
  {
  }

  /** The canonical alias of an import's path: the one there is, or a new one. */
  method ChooseAlias(imported: Import, everNamed: bool, used0: map<string, string>, canonical0: map<string, string>,
                     ghost others: set<string>, direct: string -> string, derive: (string, string) -> string)
    returns (canonical: map<string, string>, used: map<string, string>)
    requires ImportPath(imported.path) && OwnersOk(used0, canonical0, others)
    ensures OwnersOk(used, canonical, others) && Extends(canonical, canonical0) && canonical.Keys == canonical0.Keys + {imported.path}
    ensures imported.path !in canonical0 ==> Gets(canonical, others, imported.path, if everNamed then direct(imported.path) else imported.alias)
  {
    canonical, used := canonical0, used0;
    if imported.path !in canonical {
      var linked := if everNamed then direct(imported.path) else imported.alias;
      if Identifier(linked) in used && used[Identifier(linked)] != imported.path {
        linked := Fresh(derive(imported.path, imported.alias), used.Keys);
      }
      NotOwned(used, canonical, others, imported.path, linked);
      OwnsOneMore(used, canonical, others, imported.path, linked);
      GetsIt(used, canonical, others, imported.path, if everNamed then direct(imported.path) else imported.alias, linked);
      canonical, used := canonical[imported.path := linked], used[Identifier(linked) := imported.path];
    }
  }

  /** A path has the alias it is wanted under, unless something else is spelled like that. */
  predicate Gets(canonical: map<string, string>, others: set<string>, path: string, want: string) {
    path in canonical &&
    (canonical[path] == want || Identifier(want) in others
     || exists q :: q in canonical && q != path && Identifier(canonical[q]) == Identifier(want))
  }

  lemma GetsIt(used: map<string, string>, canonical: map<string, string>, others: set<string>, path: string, want: string, linked: string)
    requires OwnersOk(used, canonical, others) && path !in canonical && (linked == want || Identifier(want) in used)
    ensures Gets(canonical[path := linked], others, path, want)
  {
    var next := canonical[path := linked];
    if linked != want && Identifier(want) !in others {
      var q := used[Identifier(want)];
      assert q in next && next[q] == canonical[q];
    }
  }

  lemma GetsStays(before: map<string, string>, after: map<string, string>, others: set<string>, path: string, want: string)
    requires Gets(before, others, path, want) && Extends(after, before)
    ensures Gets(after, others, path, want)
  {
    if q :| q in before && q != path && Identifier(before[q]) == Identifier(want) { assert q in after && after[q] == before[q]; }
  }

  /** A path that some module imports names from is wanted under its own alias, any other under one that it
      is imported under. */
  ghost predicate Chosen(modules: seq<seq<Import>>, canonical: map<string, string>, others: set<string>, direct: string -> string, path: string) {
    if EverNamed(modules, path) then Gets(canonical, others, path, direct(path))
    else exists m, i :: 0 <= m < |modules| && 0 <= i < |modules[m]| && modules[m][i].path == path && Gets(canonical, others, path, modules[m][i].alias)
  }

  ghost predicate AllChosen(modules: seq<seq<Import>>, canonical: map<string, string>, others: set<string>, direct: string -> string) {
    forall path :: path in canonical ==> Chosen(modules, canonical, others, direct, path)
  }

  lemma ChosenOneMore(modules: seq<seq<Import>>, m: nat, i: nat, before: map<string, string>, after: map<string, string>,
                      others: set<string>, direct: string -> string, alias: string)
    requires m < |modules| && i < |modules[m]| && AllChosen(modules, before, others, direct) && Extends(after, before)
    requires after.Keys == before.Keys + {modules[m][i].path} && (!modules[m][i].named ==> alias == modules[m][i].alias)
    requires var path := modules[m][i].path;
             path !in before ==> Gets(after, others, path, if EverNamed(modules, path) then direct(path) else alias)
    ensures AllChosen(modules, after, others, direct)
  {
    hide Extends, Gets;
    var new_ := modules[m][i].path;
    if modules[m][i].named { assert EverNamed(modules, new_); }
    forall path | path in after ensures Chosen(modules, after, others, direct, path) {
      if path in before {
        if EverNamed(modules, path) {
          GetsStays(before, after, others, path, direct(path));
        } else {
          var n, j :| 0 <= n < |modules| && 0 <= j < |modules[n]| && modules[n][j].path == path && Gets(before, others, path, modules[n][j].alias);
          GetsStays(before, after, others, path, modules[n][j].alias);
        }
      }
    }
  }

  /** A path without an alias owns no spelling. */
  lemma NotOwned(used: map<string, string>, canonical: map<string, string>, others: set<string>, path: string, linked: string)
    requires OwnersOk(used, canonical, others) && ImportPath(path) && path !in canonical
    ensures Identifier(linked) in used ==> used[Identifier(linked)] != path
  {
  }

  /** The alias under which a module sees an import. */
  function Seen(i: Import, direct: string -> string): string {
    if i.named then direct(i.path) else i.alias
  }

  /** An import is accepted unless its alias is a type of the language, or it binds an alias and an earlier
      one of the module has the same path, or the same alias and was accepted. */
  predicate Accepted(imports: seq<Import>, i: nat, direct: string -> string)
    requires i < |imports|
    decreases i
  {
    && !LanguageType(Seen(imports[i], direct))
    && (imports[i].named ||
        (forall j: nat :: j < i ==>
           && !(!imports[j].named && !LanguageType(imports[j].alias) && imports[j].path == imports[i].path)
           && (Accepted(imports, j, direct) ==> Seen(imports[j], direct) != imports[i].alias)))
  }

  /** The imports of one module. */
  method LinkModuleAliases(modules: seq<seq<Import>>, m: nat, canonical0: map<string, string>, used0: map<string, string>,
                           ghost others: set<string>, direct: string -> string, derive: (string, string) -> string)
    returns (canonical: map<string, string>, used: map<string, string>, out: seq<Option<string>>)
    requires AllChosen(modules, canonical0, others, direct)
    requires m < |modules| && OwnersOk(used0, canonical0, others) && forall i :: 0 <= i < |modules[m]| ==> ImportPath(modules[m][i].path)
    ensures OwnersOk(used, canonical, others) && Extends(canonical, canonical0) && Resolved(modules[m], out, canonical)
    ensures |out| == |modules[m]| && AcceptedAre(modules[m], out, direct) && AllChosen(modules, canonical, others, direct)
  {
    hide OwnersOk, Resolved, EverNamed, Accepted, PathsSeen, AliasesSeen, Extends, ImportPath, LanguageType, AcceptedAre, AllChosen, Gets;
    var paths: set<string>, aliases: set<string> := {}, {};
    var imports := modules[m];
    canonical, used, out := canonical0, used0, [];
    NothingSeen(imports, canonical, direct);
    for i := 0 to |imports|
      invariant OwnersOk(used, canonical, others) && Extends(canonical, canonical0) && Resolved(imports[..i], out, canonical)
      invariant paths == PathsSeen(imports, i) && aliases == AliasesSeen(imports, i, direct)
      invariant |out| == i && AcceptedAre(imports, out, direct) && AllChosen(modules, canonical, others, direct)
    {
      AcceptedBySets(imports, i, direct);
      SeenOneMore(imports, i, direct);
      var imported := imports[i];
      if imported.named { imported := imported.(alias := direct(imported.path)); }
      var linked := None;
      if !LanguageType(imported.alias) && (imported.named || (imported.path !in paths && imported.alias !in aliases)) {
        aliases := aliases + {imported.alias};
        ghost var before := canonical;
        canonical, used := ChooseAlias(imported, EverNamed(modules, imported.path), used, canonical, others, direct, derive);
        ResolvedStays(imports[..i], out, before, canonical);
        ExtendsOn(canonical, before, canonical0);
        ChosenOneMore(modules, m, i, before, canonical, others, direct, imported.alias);
        linked := Some(canonical[imported.path]);
      }
      if !imported.named && !LanguageType(imported.alias) { paths := paths + {imported.path}; }
      ResolvedOneMore(imports, i, out, canonical, linked);
      AcceptedOneMore(imports, out, direct, linked);
      out := out + [linked];
    }
    assert imports[..|imports|] == imports;
  }

  lemma NothingSeen(imports: seq<Import>, canonical: map<string, string>, direct: string -> string)
    ensures PathsSeen(imports, 0) == {} && AliasesSeen(imports, 0, direct) == {}
    ensures Extends(canonical, canonical) && Resolved(imports[..0], [], canonical) && AcceptedAre(imports, [], direct)
  {
  }

  lemma ExtendsOn(after: map<string, string>, between: map<string, string>, before: map<string, string>)
    requires Extends(after, between) && Extends(between, before)
    ensures Extends(after, before)
  {
  }

  /** The loop's two sets: paths that an alias was given for, and aliases that were accepted. */
  function PathsSeen(imports: seq<Import>, n: nat): set<string>
    requires n <= |imports|
  {
    if n == 0 then {}
    else PathsSeen(imports, n - 1)
         + if !imports[n - 1].named && !LanguageType(imports[n - 1].alias) then {imports[n - 1].path} else {}
  }

  function AliasesSeen(imports: seq<Import>, n: nat, direct: string -> string): set<string>
    requires n <= |imports|
  {
    if n == 0 then {}
    else AliasesSeen(imports, n - 1, direct) + if Accepted(imports, n - 1, direct) then {Seen(imports[n - 1], direct)} else {}
  }

  lemma {:induction false} PathSeen(imports: seq<Import>, n: nat, path: string)
    requires n <= |imports|
    ensures path in PathsSeen(imports, n)
            <==> exists j: nat :: j < n && !imports[j].named && !LanguageType(imports[j].alias) && imports[j].path == path
  {
    if n > 0 { PathSeen(imports, n - 1, path); }
  }

  lemma {:induction false} AliasSeen(imports: seq<Import>, n: nat, direct: string -> string, alias: string)
    requires n <= |imports|
    ensures alias in AliasesSeen(imports, n, direct) <==> exists j: nat :: j < n && Accepted(imports, j, direct) && Seen(imports[j], direct) == alias
  {
    hide Accepted, Seen;
    if n > 0 { AliasSeen(imports, n - 1, direct, alias); }
  }

  lemma AcceptedBySets(imports: seq<Import>, i: nat, direct: string -> string)
    requires i < |imports|
    ensures Accepted(imports, i, direct) <==>
      !LanguageType(Seen(imports[i], direct))
      && (imports[i].named || (imports[i].path !in PathsSeen(imports, i) && imports[i].alias !in AliasesSeen(imports, i, direct)))
  {
    PathSeen(imports, i, imports[i].path);
    AliasSeen(imports, i, direct, imports[i].alias);
  }

  lemma SeenOneMore(imports: seq<Import>, i: nat, direct: string -> string)
    requires i < |imports|
    ensures PathsSeen(imports, i + 1)
            == PathsSeen(imports, i) + if !imports[i].named && !LanguageType(imports[i].alias) then {imports[i].path} else {}
    ensures AliasesSeen(imports, i + 1, direct)
            == AliasesSeen(imports, i, direct) + if Accepted(imports, i, direct) then {Seen(imports[i], direct)} else {}
  {
    hide Accepted, LanguageType;
  }

  /** The imports gone through so far that have an alias are the accepted ones. */
  predicate AcceptedAre(imports: seq<Import>, out: seq<Option<string>>, direct: string -> string) {
    |out| <= |imports| && forall i :: 0 <= i < |out| ==> (out[i].Some? <==> Accepted(imports, i, direct))
  }

  lemma AcceptedOneMore(imports: seq<Import>, out: seq<Option<string>>, direct: string -> string, linked: Option<string>)
    requires |out| < |imports| && AcceptedAre(imports, out, direct) && (linked.Some? <==> Accepted(imports, |out|, direct))
    ensures AcceptedAre(imports, out + [linked], direct)
  {
    hide Accepted;
  }

  /** linkGoAliases, over the imports of each module in turn. `resolved` is each import's alias in the
      linked program, unless the import is rejected. */
  method LinkGoAliases(modules: seq<seq<Import>>, lexical: set<string>, declared: set<string>,
                       direct: string -> string, derive: (string, string) -> string)
    returns (canonical: map<string, string>, resolved: seq<seq<Option<string>>>)
    requires forall m, i :: 0 <= m < |modules| && 0 <= i < |modules[m]| ==> ImportPath(modules[m][i].path)
    ensures AliasesOk(canonical, BUILTINS + lexical + declared)
    ensures forall path :: path in canonical ==> Chosen(modules, canonical, BUILTINS + lexical + declared, direct, path)
    ensures |resolved| == |modules| && forall m :: 0 <= m < |modules| ==> Resolved(modules[m], resolved[m], canonical)
    ensures forall m :: 0 <= m < |modules| ==> |resolved[m]| == |modules[m]| && AcceptedAre(modules[m], resolved[m], direct)
  {
    hide OwnersOk, Resolved, Extends, AliasesOk, Owners, ImportPath, AcceptedAre;
    var used := Owners(lexical, declared);
    ghost var others := BUILTINS + lexical + declared;
    OwnersAtFirst(lexical, declared);
    canonical, resolved := map[], [];
    for m := 0 to |modules|
      invariant |resolved| == m && OwnersOk(used, canonical, others) && AllChosen(modules, canonical, others, direct)
      invariant forall k :: 0 <= k < m ==> Resolved(modules[k], resolved[k], canonical)
      invariant forall k :: 0 <= k < m ==> |resolved[k]| == |modules[k]| && AcceptedAre(modules[k], resolved[k], direct)
    {
      ghost var before := canonical;
      var out;
      canonical, used, out := LinkModuleAliases(modules, m, canonical, used, others, direct, derive);
      forall k | 0 <= k < m ensures Resolved(modules[k], resolved[k], canonical) {
        ResolvedStays(modules[k], resolved[k], before, canonical);
      }
      resolved := resolved + [out];
    }
    AliasesFollow(used, canonical, others);
  }
}
