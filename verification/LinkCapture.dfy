/** Linking without a reported capture keeps every reference on its binding. */
module LinkCapture {
  import opened GoNames
  import opened LinkSyntax
  import opened SourceLinker

  // ----- what a reference denotes -----

  datatype Target = Local(at: nat) | TypeParameter(spelling: string) | Package(spelling: string) | Outside(name: string)

  /** A module's own names and imports with their linked names, and the type parameters in scope. */
  datatype Scope = Scope(bindings: Names, types: seq<Identified>)

  /** Innermost binding with this source name. */
  function Lookup(env: Env, name: string): seq<Bind> {
    if env == [] then []
    else if env[|env| - 1].name == name then [env[|env| - 1]]
    else Lookup(env[..|env| - 1], name)
  }

  /** Innermost binding that is spelled this way in Go. */
  function GoLookup(env: Env, spelling: string): seq<Bind> {
    if env == [] then []
    else if Identifier(env[|env| - 1].name) == spelling then [env[|env| - 1]]
    else GoLookup(env[..|env| - 1], spelling)
  }

  /** What a class `C` is created by in Go: the function `NewC`. */
  const NEW: string := "New"

  /** The source rule: local bindings, type parameters, the module, and what the language provides. A
      class to create is the module's or the language's. */
  function Denotes(s: Site, scope: Scope): Target {
    var local := Lookup(s.env, s.name);
    if s.creates then if Get(scope.bindings, s.name) != "" then Package(NEW + scope.bindings[s.name]) else Outside(NEW + s.name)
    else if local != [] then Local(local[0].at)
    else if s.name in scope.types then TypeParameter(Identifier(s.name))
    else if Get(scope.bindings, s.name) != "" then Package(Identifier(scope.bindings[s.name]))
    else Outside(s.name)
  }

  /** The emitter escapes every name but a call of a predeclared function. */
  function Spelling(s: Site, scope: Scope): string {
    if s.creates then NEW + s.name
    else if s.name in CALLABLES && Lookup(s.env, s.name) == [] && s.name !in scope.types && (s.outside || s.name !in scope.bindings.Values)
    then s.name else Identifier(s.name)
  }

  predicate Spelt(types: seq<Identified>, spelling: string) {
    exists t :: t in types && Identifier(t) == spelling
  }

  /** The Go rule: by spelling, through the same nest of scopes, down to the package. */
  function GoDenotes(s: Site, scope: Scope, package: set<string>): Target {
    var spelling := Spelling(s, scope);
    var local := GoLookup(s.env, spelling);
    if local != [] then Local(local[0].at)
    else if Spelt(scope.types, spelling) then TypeParameter(spelling)
    else if spelling in package then Package(spelling)
    else Outside(spelling)
  }

  // ----- well-formed inputs -----

  /** The scope maps names to declarations of the package. */
  predicate WellScoped(scope: Scope, package: set<string>) {
    && (forall k :: k in scope.bindings ==> Plain(k) && (scope.bindings[k] != "" ==> Plain(scope.bindings[k]) && Identifier(scope.bindings[k]) in package))
    && (forall v :: v in scope.bindings.Values && v != "" ==> v in scope.bindings)
    && (forall p :: p in package ==> !Reserved(p))
  }

  /** A reference to nothing of the module is to something the language provides, whose spelling no
      declaration has. */
  predicate Provided(s: Site, scope: Scope, package: set<string>) {
    if s.creates then Creatable(s, scope, package)
    else Denotes(s, scope).Outside? ==> s.name in CALLABLES || (!Reserved(s.name) && !Escaped(s.name) && s.name !in package)
  }

  /** The class of a `new` is no type parameter and has its `New` function. No local binding and no type
      parameter in scope is spelled like the one that is called: the checker rejects that by itself, on
      the linked tree. */
  predicate Creatable(s: Site, scope: Scope, package: set<string>) {
    var linked := if s.visited && Get(scope.bindings, s.name) != "" then scope.bindings[s.name] else s.name;
    && s.name !in scope.types
    && (match Denotes(s, scope) case Package(f) => f in package case Outside(f) => f !in package case _ => false)
    && GoLookup(s.env, NEW + linked) == [] && !Spelt(scope.types, NEW + linked)
  }

  // ----- the linker's maps -----

  function InnermostName(env: Env, spelling: string): string {
    var b := GoLookup(env, spelling);
    if b == [] then "" else b[0].name
  }

  /** The map of local names says what the environment says, by source name and by spelling. */
  ghost predicate LocalsOk(locals: Names, env: Env) {
    && (forall name :: Plain(name) ==> (Get(locals, name) == "") == (Lookup(env, name) == []))
    && (forall name :: Get(locals, EmittedKey(name)) == InnermostName(env, Identifier(name)))
  }

  ghost predicate VisibleOk(visible: Names, scope: Scope) {
    && (forall name :: Plain(name) ==> Get(visible, name) == if name in scope.types then TYPE_PARAMETER else Get(scope.bindings, name))
    && (forall name :: Plain(name) ==> (name in visible <==> name in scope.types || name in scope.bindings))
    && (forall name :: Plain(name) ==> Get(visible, EmittedKey(name)) == if Spelt(scope.types, Identifier(name)) then TYPE_PARAMETER else "")
  }

  lemma KeysApart(a: string, b: string)
    ensures EmittedKey(a) == EmittedKey(b) <==> Identifier(a) == Identifier(b)
    ensures Plain(b) ==> EmittedKey(a) != b && TYPE_PARAMETER != b
    ensures !Plain(EmittedKey(a)) && EmittedKey(a) != TYPE_PARAMETER
  {
    assert EmittedKey(a)[|GO|..] == Identifier(a) && EmittedKey(b)[|GO|..] == Identifier(b);
    assert EmittedKey(a)[0] == '\0' && TYPE_PARAMETER[0] == '\0';
    assert EmittedKey(a)[1] == 'g' && TYPE_PARAMETER[1] == 't';
  }

  lemma LookupOneMore(env: Env, b: Bind, name: string)
    ensures Lookup(env + [b], name) == if b.name == name then [b] else Lookup(env, name)
    ensures GoLookup(env + [b], name) == if Identifier(b.name) == name then [b] else GoLookup(env, name)
  {
    var next := env + [b];
    assert next[..|next| - 1] == env && next[|next| - 1] == b;
  }

  lemma BindKeeps(locals: Names, env: Env, b: Bind)
    requires LocalsOk(locals, env)
    ensures LocalsOk(BindLocal(locals, b.name), env + [b])
  {
    var after, next := BindLocal(locals, b.name), env + [b];
    hide Lookup, GoLookup, Identifier;
    forall name | Plain(name) ensures (Get(after, name) == "") == (Lookup(next, name) == []) {
      KeysApart(b.name, name);
      LookupOneMore(env, b, name);
    }
    forall name ensures Get(after, EmittedKey(name)) == InnermostName(next, Identifier(name)) {
      KeysApart(name, b.name);
      LookupOneMore(env, b, Identifier(name));
    }
  }

  lemma {:induction false} BindAllKeeps(locals: Names, env: Env, binds: seq<Bind>)
    requires LocalsOk(locals, env)
    ensures LocalsOk(BindAll(locals, binds), env + binds)
    decreases |binds|
  {
    hide LocalsOk, BindLocal;
    if binds == [] {
      assert env + binds == env;
    } else {
      BindKeeps(locals, env, binds[0]);
      BindAllKeeps(BindLocal(locals, binds[0].name), env + [binds[0]], binds[1..]);
      assert env + [binds[0]] + binds[1..] == env + binds;
    }
  }

  // ----- one reference -----

  lemma {:induction false} LookupFinds(env: Env, name: string)
    ensures Lookup(env, name) != [] ==> |Lookup(env, name)| == 1 && Lookup(env, name)[0].name == name && Lookup(env, name)[0] in env
    ensures Lookup(env, name) != [] ==> GoLookup(env, Identifier(name)) != []
    ensures GoLookup(env, Identifier(name)) != [] ==> |GoLookup(env, Identifier(name))| == 1 && GoLookup(env, Identifier(name))[0] in env
    ensures GoLookup(env, Identifier(name)) != [] && GoLookup(env, Identifier(name))[0].name == name ==> Lookup(env, name) == GoLookup(env, Identifier(name))
  {
    if env != [] { LookupFinds(env[..|env| - 1], name); }
  }

  lemma {:induction false} NothingSpelled(env: Env, spelling: string)
    requires Reserved(spelling) || (!Escaped(spelling) && Lookup(env, spelling) == [])
    ensures GoLookup(env, spelling) == []
  {
    if env != [] {
      NothingSpelled(env[..|env| - 1], spelling);
      var name := env[|env| - 1].name;
      if Identifier(name) == spelling { SpelledAs(name, spelling); }
    }
  }

  lemma NoLocal(env: Env, spelling: string)
    requires InnermostName(env, spelling) == ""
    ensures GoLookup(env, spelling) == []
  {
    if GoLookup(env, spelling) != [] { GoLookupIn(env, spelling); }
  }

  lemma {:induction false} GoLookupIn(env: Env, spelling: string)
    requires GoLookup(env, spelling) != []
    ensures GoLookup(env, spelling)[0] in env
  {
    if Identifier(env[|env| - 1].name) != spelling { GoLookupIn(env[..|env| - 1], spelling); }
  }

  /** The facts about one reference and the maps the linker consults for it. */
  ghost predicate AtSite(s: Site, visible: Names, locals: Names, scope: Scope, package: set<string>) {
    && LocalsOk(locals, s.env) && VisibleOk(visible, scope) && WellScoped(scope, package)
    && Plain(s.name) && Provided(s, scope, package)
  }

  function Linked(s: Site, visible: Names, locals: Names): Site {
    var linked := LinkReference(s.name, visible, locals).node;
    if s.creates then s.(name := LinkName(s.name, visible).node.name) else s.(name := linked.name, outside := linked.outside)
  }

  function Captures(s: Site, visible: Names, locals: Names): nat {
    if s.creates then LinkName(s.name, visible).captures else LinkReference(s.name, visible, locals).captures
  }

  lemma LocalKeeps(s: Site, visible: Names, locals: Names, scope: Scope, package: set<string>)
    requires AtSite(s, visible, locals, scope, package) && !s.creates && Lookup(s.env, s.name) != []
    requires LinkReference(s.name, visible, locals).captures == 0
    ensures GoDenotes(Linked(s, visible, locals), scope, package) == Denotes(s, scope)
  {
    LookupFinds(s.env, s.name);
  }

  lemma TypeParameterKeeps(s: Site, visible: Names, locals: Names, scope: Scope, package: set<string>)
    requires AtSite(s, visible, locals, scope, package) && !s.creates && Lookup(s.env, s.name) == [] && s.name in scope.types
    requires LinkReference(s.name, visible, locals).captures == 0
    ensures GoDenotes(Linked(s, visible, locals), scope, package) == Denotes(s, scope)
  {
    assert Get(visible, s.name) == TYPE_PARAMETER;
    NoLocal(s.env, Identifier(s.name));
  }

  lemma PackageKeeps(s: Site, visible: Names, locals: Names, scope: Scope, package: set<string>)
    requires AtSite(s, visible, locals, scope, package) && !s.creates && Lookup(s.env, s.name) == [] && s.name !in scope.types
    requires Get(scope.bindings, s.name) != "" && LinkReference(s.name, visible, locals).captures == 0
    ensures GoDenotes(Linked(s, visible, locals), scope, package) == Denotes(s, scope)
  {
    var linked := scope.bindings[s.name];
    assert Get(visible, s.name) == linked && s.name in visible;
    KeysApart(s.name, linked);
    NoLocal(s.env, Identifier(linked));
    assert linked in scope.bindings.Values;
  }

  lemma OutsideLinked(s: Site, visible: Names, locals: Names, scope: Scope, package: set<string>)
    requires AtSite(s, visible, locals, scope, package) && !s.creates && Lookup(s.env, s.name) == [] && Denotes(s, scope).Outside?
    ensures Linked(s, visible, locals) == s.(outside := s.name in scope.bindings)
  {
    assert Get(visible, s.name) == "";
    assert Get(locals, s.name) == "";
  }

  lemma OutsideKeeps(s: Site, visible: Names, locals: Names, scope: Scope, package: set<string>)
    requires AtSite(s, visible, locals, scope, package) && !s.creates && Lookup(s.env, s.name) == [] && Denotes(s, scope).Outside?
    ensures GoDenotes(Linked(s, visible, locals), scope, package) == Denotes(s, scope)
  {
    OutsideLinked(s, visible, locals, scope, package);
    hide LocalsOk, VisibleOk, LinkReference;
    NothingSpelled(s.env, s.name);
    forall t | t in scope.types ensures Identifier(t) != s.name {
      if Identifier(t) == s.name { SpelledAs(t, s.name); }
    }
    if !Reserved(s.name) { assert Spelling(Linked(s, visible, locals), scope) == s.name; }
  }

  lemma ClassKeeps(s: Site, visible: Names, locals: Names, scope: Scope, package: set<string>)
    requires AtSite(s, visible, locals, scope, package) && s.creates && s.visited
    ensures GoDenotes(Linked(s, visible, locals), scope, package) == Denotes(s, scope)
  {
    hide LocalsOk, GoLookup, Lookup, Spelt;
    assert Get(visible, s.name) == Get(scope.bindings, s.name);
    if Get(scope.bindings, s.name) != "" { KeysApart(s.name, scope.bindings[s.name]); }
  }

  /** A reference that the linker reports no capture for keeps its meaning. */
  lemma ReferenceKeeps(s: Site, visible: Names, locals: Names, scope: Scope, package: set<string>)
    requires AtSite(s, visible, locals, scope, package)
    requires s.visited && Captures(s, visible, locals) == 0
    ensures GoDenotes(Linked(s, visible, locals), scope, package) == Denotes(s, scope)
  {
    if s.creates { ClassKeeps(s, visible, locals, scope, package); }
    else if Lookup(s.env, s.name) != [] { LocalKeeps(s, visible, locals, scope, package); }
    else if s.name in scope.types { TypeParameterKeeps(s, visible, locals, scope, package); }
    else if Get(scope.bindings, s.name) != "" { PackageKeeps(s, visible, locals, scope, package); }
    else { OutsideKeeps(s, visible, locals, scope, package); }
  }

  predicate Distinct(env: Env) {
    forall i, j :: 0 <= i < j < |env| ==> env[i].at != env[j].at
  }

  lemma SamePlace(env: Env, a: Bind, b: Bind)
    requires Distinct(env) && a in env && b in env && a.at == b.at
    ensures a == b
  {
    var i, j :| 0 <= i < |env| && 0 <= j < |env| && env[i] == a && env[j] == b;
  }

  /** A class to create whose linked name is spelled like a type parameter in scope. The linker reports it
      as it does a value's, although its `New` function is not spelled so. */
  predicate NeedlesslyReported(s: Site, scope: Scope) {
    s.creates && Get(scope.bindings, s.name) != "" && Spelt(scope.types, Identifier(scope.bindings[s.name]))
  }

  lemma LocalReported(s: Site, visible: Names, locals: Names, scope: Scope, package: set<string>)
    requires AtSite(s, visible, locals, scope, package) && !s.creates && Lookup(s.env, s.name) != [] && Distinct(s.env)
    requires LinkReference(s.name, visible, locals).captures != 0
    ensures GoDenotes(Linked(s, visible, locals), scope, package) != Denotes(s, scope)
  {
    LookupFinds(s.env, s.name);
    var local, winner := Lookup(s.env, s.name)[0], GoLookup(s.env, Identifier(s.name))[0];
    if winner.at == local.at { SamePlace(s.env, winner, local); }
  }

  lemma OuterReported(s: Site, visible: Names, locals: Names, scope: Scope, package: set<string>)
    requires AtSite(s, visible, locals, scope, package) && !s.creates && Lookup(s.env, s.name) == []
    requires LinkReference(s.name, visible, locals).captures != 0
    ensures GoDenotes(Linked(s, visible, locals), scope, package) != Denotes(s, scope)
  {
    hide Provided, Lookup, GoLookup, Identifier, Spelt;
    assert Get(visible, s.name) != "" && Get(locals, s.name) == "";
    if s.name in scope.types { TypeReported(s, visible, locals, scope, package); }
    else { PackageReported(s, visible, locals, scope, package); }
  }

  lemma TypeReported(s: Site, visible: Names, locals: Names, scope: Scope, package: set<string>)
    requires AtSite(s, visible, locals, scope, package) && !s.creates && Lookup(s.env, s.name) == [] && s.name in scope.types
    requires LinkReference(s.name, visible, locals).captures != 0
    ensures GoDenotes(Linked(s, visible, locals), scope, package) != Denotes(s, scope)
  {
    hide Provided, WellScoped, Identifier, Spelt;
    assert Get(visible, s.name) == TYPE_PARAMETER && s.name in visible;
  }

  lemma PackageReported(s: Site, visible: Names, locals: Names, scope: Scope, package: set<string>)
    requires AtSite(s, visible, locals, scope, package) && !s.creates && Lookup(s.env, s.name) == [] && s.name !in scope.types
    requires LinkReference(s.name, visible, locals).captures != 0 && Get(visible, s.name) != ""
    ensures GoDenotes(Linked(s, visible, locals), scope, package) != Denotes(s, scope)
  {
    hide Provided;
    var linked := scope.bindings[s.name];
    assert Get(visible, s.name) == linked && s.name in visible && linked in scope.bindings.Values;
    KeysApart(s.name, linked);
  }

  lemma ClassReported(s: Site, visible: Names, locals: Names, scope: Scope, package: set<string>)
    requires AtSite(s, visible, locals, scope, package) && s.creates && s.visited
    ensures Captures(s, visible, locals) == 0 <==> !NeedlesslyReported(s, scope)
  {
    hide LocalsOk, GoLookup, Lookup, Spelt;
    assert Get(visible, s.name) == Get(scope.bindings, s.name);
    if Get(scope.bindings, s.name) != "" { KeysApart(s.name, scope.bindings[s.name]); }
  }

  /** The linker reports a reference exactly if it would not keep its meaning, but for the classes above. */
  lemma ReferenceExact(s: Site, visible: Names, locals: Names, scope: Scope, package: set<string>)
    requires AtSite(s, visible, locals, scope, package) && s.visited
    ensures Captures(s, visible, locals) == 0 ==> ClearSite(s, Linked(s, visible, locals), scope, package)
    ensures Distinct(s.env) && ClearSite(s, Linked(s, visible, locals), scope, package) ==> Captures(s, visible, locals) == 0
  {
    hide AtSite, Linked, GoDenotes, Denotes, Distinct, LinkName, LinkReference;
    if Captures(s, visible, locals) == 0 { ReferenceKeeps(s, visible, locals, scope, package); }
    if s.creates { ClassReported(s, visible, locals, scope, package); }
    else if Captures(s, visible, locals) != 0 && Distinct(s.env) {
      if Lookup(s.env, s.name) != [] { LocalReported(s, visible, locals, scope, package); }
      else { OuterReported(s, visible, locals, scope, package); }
    }
  }

  // ----- whole trees -----

  ghost predicate Context(visible: Names, locals: Names, env: Env, scope: Scope, package: set<string>) {
    LocalsOk(locals, env) && VisibleOk(visible, scope) && WellScoped(scope, package)
  }

  predicate SitesOk(sites: seq<Site>, scope: Scope, package: set<string>) {
    forall i :: 0 <= i < |sites| ==> Plain(sites[i].name) && Provided(sites[i], scope, package)
  }

  /** Every reference denotes in Go what its source denotes. */
  predicate Kept(before: seq<Site>, after: seq<Site>, scope: Scope, package: set<string>) {
    |before| == |after| && forall i :: 0 <= i < |before| ==> GoDenotes(after[i], scope, package) == Denotes(before[i], scope)
  }

  /** Every visited reference does, and no visited `new` is of a class that is reported all the same. */
  predicate Clear(before: seq<Site>, after: seq<Site>, scope: Scope, package: set<string>) {
    |before| == |after| && forall i :: 0 <= i < |before| && before[i].visited ==> ClearSite(before[i], after[i], scope, package)
  }

  predicate ClearSite(s: Site, t: Site, scope: Scope, package: set<string>) {
    GoDenotes(t, scope, package) == Denotes(s, scope) && !NeedlesslyReported(s, scope)
  }

  predicate Placed(sites: seq<Site>) {
    forall i :: 0 <= i < |sites| ==> Distinct(sites[i].env)
  }

  /** The linker reports no capture exactly when there is none at a visited reference; references it does
      not visit are left as they were. */
  predicate Followed(before: seq<Site>, after: seq<Site>, captures: nat, scope: Scope, package: set<string>) {
    && |before| == |after| && (forall i :: 0 <= i < |before| && !before[i].visited ==> after[i] == before[i])
    && (captures == 0 ==> Clear(before, after, scope, package))
    && (Placed(before) && Clear(before, after, scope, package) ==> captures == 0)
  }

  lemma FollowedTogether(a: seq<Site>, b: seq<Site>, m: nat, c: seq<Site>, d: seq<Site>, n: nat, scope: Scope, package: set<string>)
    requires Followed(a, b, m, scope, package) && Followed(c, d, n, scope, package)
    ensures Followed(a + c, b + d, m + n, scope, package)
  {
    hide ClearSite, Distinct;
    ClearTogether(a, b, c, d, scope, package);
    PlacedTogether(a, c);
    hide Clear, Placed;
  }

  lemma ClearTogether(a: seq<Site>, b: seq<Site>, c: seq<Site>, d: seq<Site>, scope: Scope, package: set<string>)
    requires |a| == |b| && |c| == |d|
    ensures Clear(a + c, b + d, scope, package) <==> Clear(a, b, scope, package) && Clear(c, d, scope, package)
  {
    hide ClearSite;
    if Clear(a + c, b + d, scope, package) {
      forall i | 0 <= i < |a| && a[i].visited ensures ClearSite(a[i], b[i], scope, package) { assert (a + c)[i] == a[i]; }
      forall i | 0 <= i < |c| && c[i].visited ensures ClearSite(c[i], d[i], scope, package) { assert (a + c)[|a| + i] == c[i]; }
    }
  }

  lemma PlacedTogether(a: seq<Site>, c: seq<Site>)
    ensures Placed(a + c) <==> Placed(a) && Placed(c)
  {
    hide Distinct;
    if Placed(a + c) {
      forall i | 0 <= i < |a| ensures Distinct(a[i].env) { assert (a + c)[i] == a[i]; }
      forall i | 0 <= i < |c| ensures Distinct(c[i].env) { assert (a + c)[|a| + i] == c[i]; }
    }
  }

  lemma UnvisitedFollowed(sites: seq<Site>, env: Env, scope: Scope, package: set<string>)
    ensures Followed(Unvisited(sites, env), Unvisited(sites, env), 0, scope, package)
  {
  }

  lemma NoneFollowed(scope: Scope, package: set<string>)
    ensures Followed([], [], 0, scope, package)
  {
  }

  lemma SitesApart(a: seq<Site>, b: seq<Site>, scope: Scope, package: set<string>)
    requires SitesOk(a + b, scope, package)
    ensures SitesOk(a, scope, package) && SitesOk(b, scope, package)
  {
    hide Provided;
    forall i | 0 <= i < |a| ensures Plain(a[i].name) && Provided(a[i], scope, package) { assert (a + b)[i] == a[i]; }
    forall i | 0 <= i < |b| ensures Plain(b[i].name) && Provided(b[i], scope, package) { assert (a + b)[|a| + i] == b[i]; }
  }

  lemma ContextBinds(visible: Names, locals: Names, env: Env, binds: seq<Bind>, scope: Scope, package: set<string>)
    requires Context(visible, locals, env, scope, package)
    ensures Context(visible, BindAll(locals, binds), env + binds, scope, package)
  {
    BindAllKeeps(locals, env, binds);
  }

  lemma {:induction false} ExprFollowed(e: Expr, visible: Names, locals: Names, env: Env, scope: Scope, package: set<string>)
    requires Context(visible, locals, env, scope, package) && SitesOk(Sites(e, env), scope, package)
    ensures Followed(Sites(e, env), Sites(LinkExpr(e, visible, locals).node, env), LinkExpr(e, visible, locals).captures, scope, package)
    ensures LinkExpr(e, visible, locals).node.Arrow? == e.Arrow?
    decreases e, 1
  {
    hide Context, SitesOk, Followed, GoDenotes, Denotes;
    match e
    case Name(name, outside) => ReferenceFollowed(Reference(name, outside, env, false), visible, locals, scope, package);
    case Parts(parts) => AllFollowed(parts, visible, locals, env, scope, package);
    case Assertion(operand) => UnvisitedFollowed(Sites(operand, env), env, scope, package);
    case New(_, arguments) =>
      var s := Reference(e.cls, false, env, true);
      SitesApart([s], SitesAll(arguments, env), scope, package);
      ReferenceFollowed(s, visible, locals, scope, package);
      AllFollowed(arguments, visible, locals, env, scope, package);
      FollowedTogether([s], [Linked(s, visible, locals)], Captures(s, visible, locals),
                       SitesAll(arguments, env), SitesAll(LinkAll(arguments, visible, locals).node, env), LinkAll(arguments, visible, locals).captures,
                       scope, package);
    case Arrow(_, _, _, _) => ArrowFollowed(e, visible, locals, env, scope, package);
  }

  lemma {:induction false} ArrowFollowed(e: Expr, visible: Names, locals: Names, env: Env, scope: Scope, package: set<string>)
    requires e.Arrow? && Context(visible, locals, env, scope, package) && SitesOk(Sites(e, env), scope, package)
    ensures Followed(Sites(e, env), Sites(LinkExpr(e, visible, locals).node, env), LinkExpr(e, visible, locals).captures, scope, package)
    decreases e, 0
  {
    hide Context, SitesOk, Followed, GoDenotes, Denotes, Inside, LinkAll, LinkBlock, SitesAll, BlockSites;
    var inner, body := BindAll(locals, e.params), env + e.params;
    var a, b, c := SitesAll(e.lengths, env), SitesAll(e.value, body), BlockSites(e.body, body, 0);
    var t, v, w := LinkAll(e.lengths, visible, locals), LinkAll(e.value, visible, inner), LinkBlock(e.body, visible, inner, 0);
    var x, y := SitesAll(t.node, env), SitesAll(v.node, body);
    ContextBinds(visible, locals, env, e.params, scope, package);
    SitesApart(a + b, c, scope, package);
    SitesApart(a, b, scope, package);
    AllFollowed(e.lengths, visible, locals, env, scope, package);
    AllFollowed(e.value, visible, inner, body, scope, package);
    BlockFollowed(e.body, visible, inner, body, 0, scope, package);
    FollowedTogether(a, x, t.captures, b, y, v.captures, scope, package);
    FollowedTogether(a + b, x + y, t.captures + v.captures, c, BlockSites(w.node, body, 0), w.captures, scope, package);
  }

  lemma ReferenceFollowed(s: Site, visible: Names, locals: Names, scope: Scope, package: set<string>)
    requires Context(visible, locals, s.env, scope, package) && SitesOk([s], scope, package) && s.visited
    ensures Followed([s], [Linked(s, visible, locals)], Captures(s, visible, locals), scope, package)
  {
    hide ClearSite, LocalsOk, VisibleOk, WellScoped, Provided, Captures, Linked, Distinct;
    assert [s][0] == s;
    ReferenceExact(s, visible, locals, scope, package);
  }

  lemma {:induction false} AllFollowed(es: Exprs, visible: Names, locals: Names, env: Env, scope: Scope, package: set<string>)
    requires Context(visible, locals, env, scope, package) && SitesOk(SitesAll(es, env), scope, package)
    ensures Followed(SitesAll(es, env), SitesAll(LinkAll(es, visible, locals).node, env), LinkAll(es, visible, locals).captures, scope, package)
  {
    hide Context, SitesOk, Followed, Inside, LinkExpr, Sites;
    if es.NoExpr? {
      NoneFollowed(scope, package);
    } else {
      SitesApart(Sites(es.head, env), SitesAll(es.tail, env), scope, package);
      ExprFollowed(es.head, visible, locals, env, scope, package);
      AllFollowed(es.tail, visible, locals, env, scope, package);
      var h, t := LinkExpr(es.head, visible, locals), LinkAll(es.tail, visible, locals);
      FollowedTogether(Sites(es.head, env), Sites(h.node, env), h.captures, SitesAll(es.tail, env), SitesAll(t.node, env), t.captures, scope, package);
    }
  }

  /** Linking keeps what a statement binds, and which declarations form a group. */
  lemma {:induction false} GroupKept(stmts: Stmts, visible: Names, locals: Names, grouped: nat)
    ensures ArrowGroup(LinkBlock(stmts, visible, locals, grouped).node) == ArrowGroup(stmts)
  {
    if stmts.Then? {
      hide LinkStmt, LinkExpr, BindAll, Declared;
      var group := if grouped == 0 then ArrowGroup(stmts) else [];
      var left := if grouped == 0 then |group| else grouped;
      var inner := BindAll(locals, group);
      GroupKept(stmts.tail, visible, BindAll(inner, Declared(stmts.head)), if left == 0 then 0 else left - 1);
      HeadKept(stmts.head, visible, inner);
    }
  }

  lemma HeadKept(s: Stmt, visible: Names, locals: Names)
    ensures var l := LinkStmt(s, visible, locals).node;
            l.Declare? == s.Declare? && (s.Declare? ==> l.bind == s.bind && l.value.Arrow? == s.value.Arrow?)
  {
    if s.Declare? {
      ArrowKept(s.value, visible, BindLocal(locals, s.bind.name));
      ArrowKept(s.value, visible, locals);
    }
  }

  lemma ArrowKept(e: Expr, visible: Names, locals: Names)
    ensures LinkExpr(e, visible, locals).node.Arrow? == e.Arrow?
  {
  }

  lemma DeclaredKept(s: Stmt, visible: Names, locals: Names)
    ensures Declared(LinkStmt(s, visible, locals).node) == Declared(s)
  {
  }

  function Left(stmts: Stmts, grouped: nat): nat {
    var left := if grouped == 0 then |ArrowGroup(stmts)| else grouped;
    if left == 0 then 0 else left - 1
  }

  function Grouped(stmts: Stmts, grouped: nat): seq<Bind> {
    if grouped == 0 then ArrowGroup(stmts) else []
  }

  lemma BlockUnfolds(stmts: Stmts, visible: Names, locals: Names, env: Env, grouped: nat)
    requires stmts.Then?
    ensures var group, next := Grouped(stmts, grouped), Left(stmts, grouped);
            var inner := BindAll(locals, group);
            var after := BindAll(inner, Declared(stmts.head));
            var h, t := LinkStmt(stmts.head, visible, inner), LinkBlock(stmts.tail, visible, after, next);
            && BlockSites(stmts, env, grouped) == StmtSites(stmts.head, env + group) + BlockSites(stmts.tail, env + group + Declared(stmts.head), next)
            && LinkBlock(stmts, visible, locals, grouped).captures == h.captures + t.captures
            && BlockSites(LinkBlock(stmts, visible, locals, grouped).node, env, grouped)
               == StmtSites(h.node, env + group) + BlockSites(t.node, env + group + Declared(stmts.head), next)
  {
    hide LinkStmt, StmtSites, Declared, ArrowGroup, BindAll, Inside;
    GroupKept(stmts, visible, locals, grouped);
    DeclaredKept(stmts.head, visible, BindAll(locals, Grouped(stmts, grouped)));
  }

  lemma {:induction false} BlockFollowed(stmts: Stmts, visible: Names, locals: Names, env: Env, grouped: nat, scope: Scope, package: set<string>)
    requires Context(visible, locals, env, scope, package) && SitesOk(BlockSites(stmts, env, grouped), scope, package)
    ensures Followed(BlockSites(stmts, env, grouped), BlockSites(LinkBlock(stmts, visible, locals, grouped).node, env, grouped), LinkBlock(stmts, visible, locals, grouped).captures, scope, package)
    decreases stmts
  {
    if stmts.Then? {
      hide Context, SitesOk, Followed, GoDenotes, Denotes, LinkStmt, StmtSites, Declared, ArrowGroup;
      BlockUnfolds(stmts, visible, locals, env, grouped);
      hide BlockSites, LinkBlock;
      var s, rest, group, next := stmts.head, stmts.tail, Grouped(stmts, grouped), Left(stmts, grouped);
      var inner := BindAll(locals, group);
      var after := BindAll(inner, Declared(s));
      var e1, e2 := env + group, env + group + Declared(s);
      ContextBinds(visible, locals, env, group, scope, package);
      ContextBinds(visible, inner, e1, Declared(s), scope, package);
      SitesApart(StmtSites(s, e1), BlockSites(rest, e2, next), scope, package);
      StmtFollowed(s, visible, inner, e1, scope, package);
      BlockFollowed(rest, visible, after, e2, next, scope, package);
      var h, t := LinkStmt(s, visible, inner), LinkBlock(rest, visible, after, next);
      FollowedTogether(StmtSites(s, e1), StmtSites(h.node, e1), h.captures, BlockSites(rest, e2, next), BlockSites(t.node, e2, next), t.captures, scope, package);
    }
  }

  lemma {:induction false} ClausesFollowed(cs: Clauses, visible: Names, locals: Names, env: Env, scope: Scope, package: set<string>)
    requires Context(visible, locals, env, scope, package) && SitesOk(ClauseSites(cs, env), scope, package)
    ensures Followed(ClauseSites(cs, env), ClauseSites(LinkClauses(cs, visible, locals).node, env), LinkClauses(cs, visible, locals).captures, scope, package)
  {
    hide Context, SitesOk, Followed, Inside, LinkAll, LinkBlock, SitesAll, BlockSites;
    if cs.NoClause? {
      NoneFollowed(scope, package);
    } else {
      var binds := Named(cs.binds);
      var inner := BindAll(locals, binds);
      var a, b, c := SitesAll(cs.parts, env), BlockSites(cs.body, env + binds, 0), ClauseSites(cs.rest, env);
      var p, q, r := LinkAll(cs.parts, visible, locals), LinkBlock(cs.body, visible, inner, 0), LinkClauses(cs.rest, visible, locals);
      var x, y := SitesAll(p.node, env), BlockSites(q.node, env + binds, 0);
      ContextBinds(visible, locals, env, binds, scope, package);
      SitesApart(a + b, c, scope, package);
      SitesApart(a, b, scope, package);
      AllFollowed(cs.parts, visible, locals, env, scope, package);
      BlockFollowed(cs.body, visible, inner, env + binds, 0, scope, package);
      ClausesFollowed(cs.rest, visible, locals, env, scope, package);
      FollowedTogether(a, x, p.captures, b, y, q.captures, scope, package);
      FollowedTogether(a + b, x + y, p.captures + q.captures, c, ClauseSites(r.node, env), r.captures, scope, package);
    }
  }

  lemma {:induction false} StmtFollowed(s: Stmt, visible: Names, locals: Names, env: Env, scope: Scope, package: set<string>)
    requires Context(visible, locals, env, scope, package) && SitesOk(StmtSites(s, env), scope, package)
    ensures Followed(StmtSites(s, env), StmtSites(LinkStmt(s, visible, locals).node, env), LinkStmt(s, visible, locals).captures, scope, package)
    decreases s, 1
  {
    if s.Nothing? {
    } else if s.If? {
      IfFollowed(s, visible, locals, env, scope, package);
    } else if s.For? {
      ForFollowed(s, visible, locals, env, scope, package);
    } else if s.Try? {
      TryFollowed(s, visible, locals, env, scope, package);
    } else if s.Declare? {
      DeclareFollowed(s, visible, locals, env, scope, package);
    } else if s.Range? || s.While? {
      LoopFollowed(s, visible, locals, env, scope, package);
    } else if s.AssignMany? || s.Switch? {
      ListFollowed(s, visible, locals, env, scope, package);
    } else {
      hide Context, Followed, SitesOk, GoDenotes, Denotes, Inside;
      match s
      case DeclareMany(_, value) => ExprFollowed(value, visible, locals, env, scope, package);
      case Evaluate(parts) => AllFollowed(parts, visible, locals, env, scope, package);
      case Block(body) => BlockFollowed(body, visible, locals, env, 0, scope, package);
      case Labeled(labeled) => UnvisitedFollowed(StmtSites(labeled, env), env, scope, package);
    }
  }

  lemma {:induction false} ListFollowed(s: Stmt, visible: Names, locals: Names, env: Env, scope: Scope, package: set<string>)
    requires (s.AssignMany? || s.Switch?) && Context(visible, locals, env, scope, package) && SitesOk(StmtSites(s, env), scope, package)
    ensures Followed(StmtSites(s, env), StmtSites(LinkStmt(s, visible, locals).node, env), LinkStmt(s, visible, locals).captures, scope, package)
    decreases s, 0
  {
    hide Context, Followed, SitesOk, GoDenotes, Denotes, Inside, LinkAll, LinkExpr, LinkClauses, SitesAll, Sites, ClauseSites;
    var list := if s.AssignMany? then s.targets else s.subject;
    var l := LinkAll(list, visible, locals);
    if s.AssignMany? {
      SitesApart(SitesAll(list, env), Sites(s.value, env), scope, package);
      AllFollowed(list, visible, locals, env, scope, package);
      ExprFollowed(s.value, visible, locals, env, scope, package);
      var v := LinkExpr(s.value, visible, locals);
      FollowedTogether(SitesAll(list, env), SitesAll(l.node, env), l.captures, Sites(s.value, env), Sites(v.node, env), v.captures, scope, package);
    } else {
      SitesApart(SitesAll(list, env), ClauseSites(s.clauses, env), scope, package);
      AllFollowed(list, visible, locals, env, scope, package);
      ClausesFollowed(s.clauses, visible, locals, env, scope, package);
      var c := LinkClauses(s.clauses, visible, locals);
      FollowedTogether(SitesAll(list, env), SitesAll(l.node, env), l.captures, ClauseSites(s.clauses, env), ClauseSites(c.node, env), c.captures, scope, package);
    }
  }

  lemma {:induction false} DeclareFollowed(s: Stmt, visible: Names, locals: Names, env: Env, scope: Scope, package: set<string>)
    requires s.Declare? && Context(visible, locals, env, scope, package) && SitesOk(StmtSites(s, env), scope, package)
    ensures Followed(StmtSites(s, env), StmtSites(LinkStmt(s, visible, locals).node, env), LinkStmt(s, visible, locals).captures, scope, package)
    decreases s, 0
  {
    hide Context, Followed, SitesOk, GoDenotes, Denotes, LinkExpr, LinkAll, Sites, SitesAll, Inside;
    var arrow := s.value.Arrow?;
    var inner, own := if arrow then BindLocal(locals, s.bind.name) else locals, if arrow then env + [s.bind] else env;
    if arrow { BindsOne(visible, locals, env, s.bind, scope, package); }
    SitesApart(SitesAll(s.lengths, env), Sites(s.value, own), scope, package);
    AllFollowed(s.lengths, visible, locals, env, scope, package);
    ExprFollowed(s.value, visible, inner, own, scope, package);
    var t, v := LinkAll(s.lengths, visible, locals), LinkExpr(s.value, visible, inner);
    FollowedTogether(SitesAll(s.lengths, env), SitesAll(t.node, env), t.captures, Sites(s.value, own), Sites(v.node, own), v.captures, scope, package);
  }

  lemma {:induction false} LoopFollowed(s: Stmt, visible: Names, locals: Names, env: Env, scope: Scope, package: set<string>)
    requires (s.Range? || s.While?) && Context(visible, locals, env, scope, package) && SitesOk(StmtSites(s, env), scope, package)
    ensures Followed(StmtSites(s, env), StmtSites(LinkStmt(s, visible, locals).node, env), LinkStmt(s, visible, locals).captures, scope, package)
    decreases s, 0
  {
    hide Context, Followed, SitesOk, GoDenotes, Denotes, Inside, LinkExpr, LinkBlock, Sites, BlockSites;
    var head, binds := if s.Range? then s.source else s.condition, if s.Range? then Named(s.binds) else [];
    var inner, loop := if s.Range? then BindAll(locals, binds) else locals, if s.Range? then env + binds else env;
    if s.Range? { ContextBinds(visible, locals, env, binds, scope, package); }
    SitesApart(Sites(head, env), BlockSites(s.body, loop, 0), scope, package);
    ExprFollowed(head, visible, locals, env, scope, package);
    BlockFollowed(s.body, visible, inner, loop, 0, scope, package);
    var h, b := LinkExpr(head, visible, locals), LinkBlock(s.body, visible, inner, 0);
    FollowedTogether(Sites(head, env), Sites(h.node, env), h.captures, BlockSites(s.body, loop, 0), BlockSites(b.node, loop, 0), b.captures, scope, package);
  }

  lemma BindsOne(visible: Names, locals: Names, env: Env, bind: Bind, scope: Scope, package: set<string>)
    requires Context(visible, locals, env, scope, package)
    ensures Context(visible, BindLocal(locals, bind.name), env + [bind], scope, package)
  {
    BindKeeps(locals, env, bind);
  }

  lemma {:induction false} IfFollowed(s: Stmt, visible: Names, locals: Names, env: Env, scope: Scope, package: set<string>)
    requires s.If? && Context(visible, locals, env, scope, package) && SitesOk(StmtSites(s, env), scope, package)
    ensures Followed(StmtSites(s, env), StmtSites(LinkStmt(s, visible, locals).node, env), LinkStmt(s, visible, locals).captures, scope, package)
    decreases s, 0
  {
    hide Context, SitesOk, Followed, GoDenotes, Denotes, Inside, LinkExpr, LinkBlock, Sites, BlockSites;
    var a, b, c := Sites(s.condition, env), BlockSites(s.then_, env, 0), StmtSites(s.else_, env);
    var v, t, e := LinkExpr(s.condition, visible, locals), LinkBlock(s.then_, visible, locals, 0), LinkStmt(s.else_, visible, locals);
    var x, y := Sites(v.node, env), BlockSites(t.node, env, 0);
    SitesApart(a + b, c, scope, package);
    SitesApart(a, b, scope, package);
    ExprFollowed(s.condition, visible, locals, env, scope, package);
    BlockFollowed(s.then_, visible, locals, env, 0, scope, package);
    StmtFollowed(s.else_, visible, locals, env, scope, package);
    FollowedTogether(a, x, v.captures, b, y, t.captures, scope, package);
    FollowedTogether(a + b, x + y, v.captures + t.captures, c, StmtSites(e.node, env), e.captures, scope, package);
  }

  lemma {:induction false} TryFollowed(s: Stmt, visible: Names, locals: Names, env: Env, scope: Scope, package: set<string>)
    requires s.Try? && Context(visible, locals, env, scope, package) && SitesOk(StmtSites(s, env), scope, package)
    ensures Followed(StmtSites(s, env), StmtSites(LinkStmt(s, visible, locals).node, env), LinkStmt(s, visible, locals).captures, scope, package)
    decreases s, 0
  {
    hide Context, SitesOk, Followed, GoDenotes, Denotes, Inside, LinkClauses, LinkBlock, ClauseSites, BlockSites;
    var a, b, c := BlockSites(s.body, env, 0), ClauseSites(s.catches, env), BlockSites(s.finally_, env, 0);
    var t, h, f := LinkBlock(s.body, visible, locals, 0), LinkClauses(s.catches, visible, locals), LinkBlock(s.finally_, visible, locals, 0);
    var x, y := BlockSites(t.node, env, 0), ClauseSites(h.node, env);
    SitesApart(a + b, c, scope, package);
    SitesApart(a, b, scope, package);
    BlockFollowed(s.body, visible, locals, env, 0, scope, package);
    ClausesFollowed(s.catches, visible, locals, env, scope, package);
    BlockFollowed(s.finally_, visible, locals, env, 0, scope, package);
    FollowedTogether(a, x, t.captures, b, y, h.captures, scope, package);
    FollowedTogether(a + b, x + y, t.captures + h.captures, c, BlockSites(f.node, env, 0), f.captures, scope, package);
  }

  lemma {:induction false} ForFollowed(s: Stmt, visible: Names, locals: Names, env: Env, scope: Scope, package: set<string>)
    requires s.For? && Context(visible, locals, env, scope, package) && SitesOk(StmtSites(s, env), scope, package)
    ensures Followed(StmtSites(s, env), StmtSites(LinkStmt(s, visible, locals).node, env), LinkStmt(s, visible, locals).captures, scope, package)
    decreases s, 0
  {
    hide Context, SitesOk, Followed, GoDenotes, Denotes, Inside, LinkExpr, LinkBlock, Sites, BlockSites;
    var binds := Declared(s.init);
    var inner, loop := BindAll(locals, binds), env + binds;
    var a, b, c, d := StmtSites(s.init, env), Sites(s.condition, loop), BlockSites(s.body, loop, 0), StmtSites(s.post, loop);
    var h, v := LinkStmt(s.init, visible, locals), LinkExpr(s.condition, visible, inner);
    var t, q := LinkBlock(s.body, visible, inner, 0), LinkStmt(s.post, visible, inner);
    var w, x, y, z := StmtSites(h.node, env), Sites(v.node, loop), BlockSites(t.node, loop, 0), StmtSites(q.node, loop);
    DeclaredKept(s.init, visible, locals);
    ContextBinds(visible, locals, env, binds, scope, package);
    SitesApart(a + b + c, d, scope, package);
    SitesApart(a + b, c, scope, package);
    SitesApart(a, b, scope, package);
    StmtFollowed(s.init, visible, locals, env, scope, package);
    ExprFollowed(s.condition, visible, inner, loop, scope, package);
    BlockFollowed(s.body, visible, inner, loop, 0, scope, package);
    StmtFollowed(s.post, visible, inner, loop, scope, package);
    var m := h.captures + v.captures;
    FollowedTogether(a, w, h.captures, b, x, v.captures, scope, package);
    FollowedTogether(a + b, w + x, m, c, y, t.captures, scope, package);
    FollowedTogether(a + b + c, w + x + y, m + t.captures, d, z, q.captures, scope, package);
  }

  // ----- references the linker does not visit -----

  /** A reference that needs no linking: it reaches its binding under its own spelling. For a local,
      no inner binding is spelled alike; for a type parameter, no local is; for a name of the module,
      its linked name is spelled like it, and no local or type parameter is; a class to create has kept
      its name; and a predeclared function is not taken for a declaration of the module. */
  predicate OwnSpelling(s: Site, scope: Scope) {
    var spelling := Identifier(s.name);
    var local, winner := Lookup(s.env, s.name), GoLookup(s.env, spelling);
    if s.creates then Get(scope.bindings, s.name) != "" ==> Get(scope.bindings, s.name) == s.name
    else if local != [] then winner != [] && winner[0].at == local[0].at
    else if s.name in scope.types then winner == []
    else if Get(scope.bindings, s.name) != "" then
      winner == [] && !Spelt(scope.types, spelling) && Spelling(s, scope) == spelling == Identifier(scope.bindings[s.name])
    else s.name in CALLABLES ==> s.outside || s.name !in scope.bindings.Values
  }

  lemma OwnSpellingDenotes(s: Site, scope: Scope, package: set<string>)
    requires WellScoped(scope, package) && Plain(s.name) && Provided(s, scope, package) && !s.visited
    ensures GoDenotes(s, scope, package) == Denotes(s, scope) <==> OwnSpelling(s, scope)
  {
    if s.creates {
      OwnClassDenotes(s, scope, package);
      return;
    }
    LookupFinds(s.env, s.name);
    Collisions(s.name, s.name);
    if Denotes(s, scope).Outside? {
      hide WellScoped;
      NothingSpelled(s.env, s.name);
      forall t | t in scope.types ensures Identifier(t) != s.name {
        if Identifier(t) == s.name { SpelledAs(t, s.name); }
      }
      NotDeclared(s, scope, package);
    }
  }

  lemma OwnClassDenotes(s: Site, scope: Scope, package: set<string>)
    requires s.creates && Creatable(s, scope, package) && !s.visited
    ensures GoDenotes(s, scope, package) == Denotes(s, scope) <==> OwnSpelling(s, scope)
  {
    hide GoLookup, Lookup, Spelt;
    if Get(scope.bindings, s.name) != "" {
      var linked := scope.bindings[s.name];
      assert (NEW + linked)[|NEW|..] == linked && (NEW + s.name)[|NEW|..] == s.name;
    }
  }

  lemma NotDeclared(s: Site, scope: Scope, package: set<string>)
    requires WellScoped(scope, package) && Provided(s, scope, package) && !s.creates && Denotes(s, scope).Outside?
    ensures s.name !in package
  {
  }

  predicate OwnSpellings(sites: seq<Site>, scope: Scope) {
    forall i :: 0 <= i < |sites| && !sites[i].visited ==> OwnSpelling(sites[i], scope)
  }

  lemma FollowedKept(before: seq<Site>, after: seq<Site>, scope: Scope, package: set<string>)
    requires Followed(before, after, 0, scope, package) && WellScoped(scope, package) && SitesOk(before, scope, package)
    ensures Kept(before, after, scope, package) <==> OwnSpellings(before, scope)
  {
    hide GoDenotes, Denotes, OwnSpelling, WellScoped, Provided, NeedlesslyReported, Placed;
    forall i | 0 <= i < |before| && !before[i].visited
      ensures GoDenotes(before[i], scope, package) == Denotes(before[i], scope) <==> OwnSpelling(before[i], scope)
    {
      OwnSpellingDenotes(before[i], scope, package);
    }
  }

  // ----- declarations -----

  lemma SpeltOneMore(types: seq<Identified>, t: Identified, spelling: string)
    ensures Spelt(types + [t], spelling) <==> Spelt(types, spelling) || Identifier(t) == spelling
  {
    assert t in types + [t];
    assert forall u :: u in types + [t] <==> u in types || u == t;
  }

  lemma BindTypeKeeps(visible: Names, scope: Scope, t: Identified)
    requires VisibleOk(visible, scope)
    ensures VisibleOk(BindType(visible, t), Scope(scope.bindings, scope.types + [t]))
  {
    hide Identifier, Spelt;
    var after, next := BindType(visible, t), Scope(scope.bindings, scope.types + [t]);
    assert forall u :: u in next.types <==> u in scope.types || u == t;
    forall name | Plain(name)
      ensures Get(after, name) == if name in next.types then TYPE_PARAMETER else Get(next.bindings, name)
      ensures name in after <==> name in next.types || name in next.bindings
    {
      KeysApart(t, name);
    }
    TypeKeys(visible, scope, t);
  }

  lemma TypeKeys(visible: Names, scope: Scope, t: Identified)
    requires VisibleOk(visible, scope)
    ensures forall name :: Plain(name) ==>
      Get(BindType(visible, t), EmittedKey(name)) == if Spelt(scope.types + [t], Identifier(name)) then TYPE_PARAMETER else ""
  {
    hide Identifier, Spelt;
    forall name | Plain(name)
      ensures Get(BindType(visible, t), EmittedKey(name)) == if Spelt(scope.types + [t], Identifier(name)) then TYPE_PARAMETER else ""
    {
      KeysApart(name, t);
      SpeltOneMore(scope.types, t, Identifier(name));
      assert Get(visible, EmittedKey(name)) == if Spelt(scope.types, Identifier(name)) then TYPE_PARAMETER else "";
    }
  }

  lemma {:induction false} BindTypesKeeps(visible: Names, scope: Scope, types: seq<Identified>)
    requires VisibleOk(visible, scope)
    ensures VisibleOk(BindTypes(visible, types), Scope(scope.bindings, scope.types + types))
    decreases |types|
  {
    hide VisibleOk;
    if types == [] {
      assert scope.types + types == scope.types;
    } else {
      BindTypeKeeps(visible, scope, types[0]);
      BindTypesKeeps(BindType(visible, types[0]), Scope(scope.bindings, scope.types + [types[0]]), types[1..]);
      assert scope.types + [types[0]] + types[1..] == scope.types + types;
    }
  }

  lemma Enters(bindings: Names, types: seq<Identified>, params: seq<Bind>, package: set<string>)
    requires WellScoped(Scope(bindings, []), package)
    ensures Context(BindTypes(bindings, types), BindAll(map[], params), params, Scope(bindings, types), package)
  {
    ModuleVisible(bindings, package);
    hide VisibleOk, LocalsOk;
    BindTypesKeeps(bindings, Scope(bindings, []), types);
    assert [] + types == types;
    NothingBound();
    BindAllKeeps(map[], [], params);
    assert [] + params == params;
  }

  lemma ModuleVisible(bindings: Names, package: set<string>)
    requires WellScoped(Scope(bindings, []), package)
    ensures VisibleOk(bindings, Scope(bindings, []))
  {
    forall name | Plain(name) ensures Get(bindings, EmittedKey(name)) == "" { KeysApart(name, name); }
  }

  lemma NothingBound()
    ensures LocalsOk(map[], [])
  {
  }

  lemma {:induction false} TypesTogether(visible: Names, a: seq<Identified>, b: seq<Identified>)
    ensures BindTypes(BindTypes(visible, a), b) == BindTypes(visible, a + b)
    decreases |a|
  {
    if a == [] {
      assert a + b == b;
    } else {
      TypesTogether(BindType(visible, a[0]), a[1..], b);
      assert (a + b)[1..] == a[1..] + b;
    }
  }

  /** Type parameters in scope in a member or field. */
  function TypesOf(ownerTypes: bool, owner: seq<Identified>, own: seq<Identified>): seq<Identified> {
    if ownerTypes then owner + own else own
  }

  predicate CallableOk(types: seq<Identified>, params: seq<Bind>, lengths: Exprs, body: Stmts, bindings: Names, package: set<string>) {
    SitesOk(CallableSites(params, lengths, body), Scope(bindings, types), package)
  }

  predicate CallableKept(types: seq<Identified>, params: seq<Bind>, lengths: Exprs, body: Stmts, linked: (Exprs, Stmts),
                         bindings: Names, package: set<string>) {
    Kept(CallableSites(params, lengths, body), CallableSites(params, linked.0, linked.1), Scope(bindings, types), package)
  }

  predicate DeclarationOk(d: Declaration, bindings: Names, package: set<string>) {
    match d
    case Callable(types, params, lengths, body) => CallableOk(types, params, lengths, body, bindings, package)
    case Value(value) => SitesOk(Sites(value, []), Scope(bindings, []), package)
    case Owner(types, fields, members) =>
      && (forall i :: 0 <= i < |fields| ==> SitesOk(Sites(fields[i].value, []), Scope(bindings, TypesOf(fields[i].ownerTypes, types, [])), package))
      && (forall i :: 0 <= i < |members| ==>
            MemberOk(members[i], types, bindings, package))
  }

  predicate MemberOk(m: Member, owner: seq<Identified>, bindings: Names, package: set<string>) {
    CallableOk(TypesOf(m.ownerTypes, owner, m.types), m.params, m.lengths, m.body, bindings, package)
  }

  predicate FieldKept(f: Field, linked: Field, owner: seq<Identified>, bindings: Names, package: set<string>) {
    Kept(Sites(f.value, []), Sites(linked.value, []), Scope(bindings, TypesOf(f.ownerTypes, owner, [])), package)
  }

  predicate MemberKept(m: Member, linked: Member, owner: seq<Identified>, bindings: Names, package: set<string>) {
    CallableKept(TypesOf(m.ownerTypes, owner, m.types), m.params, m.lengths, m.body, (linked.lengths, linked.body), bindings, package)
  }

  predicate DeclarationKept(d: Declaration, linked: Declaration, bindings: Names, package: set<string>) {
    match d
    case Callable(types, params, lengths, body) =>
      linked.Callable? && CallableKept(types, params, lengths, body, (linked.lengths, linked.body), bindings, package)
    case Value(value) => linked.Value? && Kept(Sites(value, []), Sites(linked.value, []), Scope(bindings, []), package)
    case Owner(types, fields, members) =>
      && linked.Owner? && |linked.fields| == |fields| && |linked.members| == |members|
      && (forall i :: 0 <= i < |fields| ==>
            FieldKept(fields[i], linked.fields[i], types, bindings, package))
      && (forall i :: 0 <= i < |members| ==>
            MemberKept(members[i], linked.members[i], types, bindings, package))
  }

  /** No reference that linking leaves alone needs it. */
  predicate DeclarationOwn(d: Declaration, bindings: Names) {
    match d
    case Callable(types, params, lengths, body) => OwnSpellings(CallableSites(params, lengths, body), Scope(bindings, types))
    case Value(value) => OwnSpellings(Sites(value, []), Scope(bindings, []))
    case Owner(types, fields, members) =>
      && (forall i :: 0 <= i < |fields| ==> FieldOwn(fields[i], types, bindings))
      && (forall i :: 0 <= i < |members| ==> MemberOwn(members[i], types, bindings))
  }

  predicate FieldOwn(f: Field, owner: seq<Identified>, bindings: Names) {
    OwnSpellings(Sites(f.value, []), Scope(bindings, TypesOf(f.ownerTypes, owner, [])))
  }

  predicate MemberOwn(m: Member, owner: seq<Identified>, bindings: Names) {
    OwnSpellings(CallableSites(m.params, m.lengths, m.body), Scope(bindings, TypesOf(m.ownerTypes, owner, m.types)))
  }

  lemma CallableFollowed(types: seq<Identified>, params: seq<Bind>, lengths: Exprs, body: Stmts, bindings: Names, package: set<string>)
    requires WellScoped(Scope(bindings, []), package) && CallableOk(types, params, lengths, body, bindings, package)
    ensures var l := LinkCallable(params, lengths, body, BindTypes(bindings, types));
            Followed(CallableSites(params, lengths, body), CallableSites(params, l.node.0, l.node.1), l.captures, Scope(bindings, types), package)
  {
    var visible, locals, scope := BindTypes(bindings, types), BindAll(map[], params), Scope(bindings, types);
    hide WellScoped, SitesOk, Followed, LinkAll, LinkBlock, SitesAll, BlockSites, Context, Inside;
    Enters(bindings, types, [], package);
    Enters(bindings, types, params, package);
    SitesApart(SitesAll(lengths, []), BlockSites(body, params, 0), scope, package);
    AllFollowed(lengths, visible, map[], [], scope, package);
    BlockFollowed(body, visible, locals, params, 0, scope, package);
    var t, b := LinkAll(lengths, visible, map[]), LinkBlock(body, visible, locals, 0);
    FollowedTogether(SitesAll(lengths, []), SitesAll(t.node, []), t.captures, BlockSites(body, params, 0), BlockSites(b.node, params, 0), b.captures, scope, package);
  }

  lemma CallableIsKept(types: seq<Identified>, params: seq<Bind>, lengths: Exprs, body: Stmts, bindings: Names, package: set<string>)
    requires WellScoped(Scope(bindings, []), package) && CallableOk(types, params, lengths, body, bindings, package)
    requires LinkCallable(params, lengths, body, BindTypes(bindings, types)).captures == 0
    ensures CallableKept(types, params, lengths, body, LinkCallable(params, lengths, body, BindTypes(bindings, types)).node, bindings, package)
            <==> OwnSpellings(CallableSites(params, lengths, body), Scope(bindings, types))
  {
    hide SitesOk, Kept, Followed, OwnSpellings, LinkCallable, CallableSites;
    CallableFollowed(types, params, lengths, body, bindings, package);
    var linked := LinkCallable(params, lengths, body, BindTypes(bindings, types)).node;
    FollowedKept(CallableSites(params, lengths, body), CallableSites(params, linked.0, linked.1), Scope(bindings, types), package);
  }

  lemma ValueFollowed(value: Expr, types: seq<Identified>, bindings: Names, package: set<string>)
    requires WellScoped(Scope(bindings, []), package) && SitesOk(Sites(value, []), Scope(bindings, types), package)
    ensures var l := LinkExpr(value, BindTypes(bindings, types), map[]);
            Followed(Sites(value, []), Sites(l.node, []), l.captures, Scope(bindings, types), package)
  {
    hide WellScoped, SitesOk, Followed;
    Enters(bindings, types, [], package);
    ExprFollowed(value, BindTypes(bindings, types), map[], [], Scope(bindings, types), package);
  }

  lemma ValueIsKept(value: Expr, types: seq<Identified>, bindings: Names, package: set<string>)
    requires WellScoped(Scope(bindings, []), package) && SitesOk(Sites(value, []), Scope(bindings, types), package)
    requires LinkExpr(value, BindTypes(bindings, types), map[]).captures == 0
    ensures Kept(Sites(value, []), Sites(LinkExpr(value, BindTypes(bindings, types), map[]).node, []), Scope(bindings, types), package)
            <==> OwnSpellings(Sites(value, []), Scope(bindings, types))
  {
    hide SitesOk, Kept, Followed, OwnSpellings;
    ValueFollowed(value, types, bindings, package);
    FollowedKept(Sites(value, []), Sites(LinkExpr(value, BindTypes(bindings, types), map[]).node, []), Scope(bindings, types), package);
  }

  lemma {:induction false} FieldAt(fs: seq<Field>, visible: Names, owner: Names, i: nat)
    requires i < |fs|
    ensures var l := LinkFields(fs, visible, owner);
            && |l.node| == |fs| && l.node[i] == LinkField(fs[i], visible, owner).node
            && l.captures >= LinkField(fs[i], visible, owner).captures
  {
    if i > 0 { FieldAt(fs[1..], visible, owner, i - 1); } else if |fs| > 1 { FieldAt(fs[1..], visible, owner, 0); }
  }

  lemma {:induction false} MemberAt(ms: seq<Member>, visible: Names, owner: Names, i: nat)
    requires i < |ms|
    ensures var l := LinkMembers(ms, visible, owner);
            && |l.node| == |ms| && l.node[i] == LinkMember(ms[i], visible, owner).node
            && l.captures >= LinkMember(ms[i], visible, owner).captures
  {
    if i > 0 { MemberAt(ms[1..], visible, owner, i - 1); } else if |ms| > 1 { MemberAt(ms[1..], visible, owner, 0); }
  }

  lemma FieldIsKept(f: Field, owner: seq<Identified>, bindings: Names, package: set<string>)
    requires WellScoped(Scope(bindings, []), package)
    requires SitesOk(Sites(f.value, []), Scope(bindings, TypesOf(f.ownerTypes, owner, [])), package)
    requires LinkField(f, bindings, BindTypes(bindings, owner)).captures == 0
    ensures FieldKept(f, LinkField(f, bindings, BindTypes(bindings, owner)).node, owner, bindings, package) <==> FieldOwn(f, owner, bindings)
  {
    hide SitesOk, Kept, WellScoped, OwnSpellings, Sites, LinkExpr;
    assert owner + [] == owner;
    ValueIsKept(f.value, TypesOf(f.ownerTypes, owner, []), bindings, package);
  }

  lemma MemberIsKept(m: Member, owner: seq<Identified>, bindings: Names, package: set<string>)
    requires WellScoped(Scope(bindings, []), package) && MemberOk(m, owner, bindings, package)
    requires LinkMember(m, bindings, BindTypes(bindings, owner)).captures == 0
    ensures MemberKept(m, LinkMember(m, bindings, BindTypes(bindings, owner)).node, owner, bindings, package) <==> MemberOwn(m, owner, bindings)
  {
    hide SitesOk, Kept, WellScoped, OwnSpellings, CallableSites, LinkCallable;
    TypesTogether(bindings, owner, m.types);
    CallableIsKept(TypesOf(m.ownerTypes, owner, m.types), m.params, m.lengths, m.body, bindings, package);
  }

  /** When linking a declaration reports no capture, every value reference in it and every class that it
      creates, resolved by emitted spelling, denotes the binding it denotes in the source, if and only if
      every one below a type assertion or a label reaches its binding without being linked. */
  lemma LinkingKeepsReferences(d: Declaration, bindings: Names, package: set<string>)
    requires WellScoped(Scope(bindings, []), package) && DeclarationOk(d, bindings, package)
    requires LinkDeclaration(d, bindings).captures == 0
    ensures DeclarationKept(d, LinkDeclaration(d, bindings).node, bindings, package) <==> DeclarationOwn(d, bindings)
  {
    hide SitesOk, Kept, WellScoped, OwnSpellings, CallableSites, LinkCallable, FieldKept, MemberKept, FieldOwn, MemberOwn, LinkField, LinkMember;
    match d
    case Callable(types, params, lengths, body) => CallableIsKept(types, params, lengths, body, bindings, package);
    case Value(value) => ValueIsKept(value, [], bindings, package);
    case Owner(types, fields, members) =>
      var owner := BindTypes(bindings, types);
      var linked := LinkDeclaration(d, bindings).node;
      FieldsShape(fields, bindings, owner);
      MembersShape(members, bindings, owner);
      forall i | 0 <= i < |fields| ensures FieldKept(fields[i], linked.fields[i], types, bindings, package) <==> FieldOwn(fields[i], types, bindings) {
        FieldAt(fields, bindings, owner, i);
        FieldIsKept(fields[i], types, bindings, package);
      }
      forall i | 0 <= i < |members| ensures MemberKept(members[i], linked.members[i], types, bindings, package) <==> MemberOwn(members[i], types, bindings) {
        MemberAt(members, bindings, owner, i);
        MemberIsKept(members[i], types, bindings, package);
      }
  }

  // ----- what is reported -----

  lemma {:induction false} FieldsSilent(fs: seq<Field>, visible: Names, owner: Names)
    requires forall i :: 0 <= i < |fs| ==> LinkField(fs[i], visible, owner).captures == 0
    ensures LinkFields(fs, visible, owner).captures == 0
  {
    if fs != [] {
      hide LinkField;
      assert LinkField(fs[0], visible, owner).captures == 0;
      FieldsSilent(fs[1..], visible, owner);
    }
  }

  lemma {:induction false} MembersSilent(ms: seq<Member>, visible: Names, owner: Names)
    requires forall i :: 0 <= i < |ms| ==> LinkMember(ms[i], visible, owner).captures == 0
    ensures LinkMembers(ms, visible, owner).captures == 0
  {
    if ms != [] {
      hide LinkMember;
      assert LinkMember(ms[0], visible, owner).captures == 0;
      MembersSilent(ms[1..], visible, owner);
    }
  }

  predicate FieldClear(f: Field, linked: Field, owner: seq<Identified>, bindings: Names, package: set<string>) {
    Clear(Sites(f.value, []), Sites(linked.value, []), Scope(bindings, TypesOf(f.ownerTypes, owner, [])), package)
  }

  predicate MemberClear(m: Member, linked: Member, owner: seq<Identified>, bindings: Names, package: set<string>) {
    Clear(CallableSites(m.params, m.lengths, m.body), CallableSites(m.params, linked.lengths, linked.body),
          Scope(bindings, TypesOf(m.ownerTypes, owner, m.types)), package)
  }

  /** Every visited reference of a linked declaration denotes in Go what it denotes in the source. */
  predicate DeclarationClear(d: Declaration, linked: Declaration, bindings: Names, package: set<string>) {
    match d
    case Callable(types, params, lengths, body) =>
      linked.Callable? && Clear(CallableSites(params, lengths, body), CallableSites(params, linked.lengths, linked.body), Scope(bindings, types), package)
    case Value(value) => linked.Value? && Clear(Sites(value, []), Sites(linked.value, []), Scope(bindings, []), package)
    case Owner(types, fields, members) =>
      && linked.Owner? && |linked.fields| == |fields| && |linked.members| == |members|
      && (forall i :: 0 <= i < |fields| ==> FieldClear(fields[i], linked.fields[i], types, bindings, package))
      && (forall i :: 0 <= i < |members| ==> MemberClear(members[i], linked.members[i], types, bindings, package))
  }

  /** Bindings stand at different places. */
  predicate DeclarationPlaced(d: Declaration) {
    match d
    case Callable(types, params, lengths, body) => Placed(CallableSites(params, lengths, body))
    case Value(value) => Placed(Sites(value, []))
    case Owner(types, fields, members) =>
      && (forall i :: 0 <= i < |fields| ==> Placed(Sites(fields[i].value, [])))
      && (forall i :: 0 <= i < |members| ==> Placed(CallableSites(members[i].params, members[i].lengths, members[i].body)))
  }

  lemma FieldExact(f: Field, owner: seq<Identified>, bindings: Names, package: set<string>)
    requires WellScoped(Scope(bindings, []), package)
    requires SitesOk(Sites(f.value, []), Scope(bindings, TypesOf(f.ownerTypes, owner, [])), package) && Placed(Sites(f.value, []))
    ensures var l := LinkField(f, bindings, BindTypes(bindings, owner)); l.captures == 0 <==> FieldClear(f, l.node, owner, bindings, package)
  {
    hide SitesOk, Clear, Placed, WellScoped, Sites, LinkExpr;
    assert owner + [] == owner;
    ValueFollowed(f.value, TypesOf(f.ownerTypes, owner, []), bindings, package);
  }

  lemma MemberExact(m: Member, owner: seq<Identified>, bindings: Names, package: set<string>)
    requires WellScoped(Scope(bindings, []), package) && MemberOk(m, owner, bindings, package)
    requires Placed(CallableSites(m.params, m.lengths, m.body))
    ensures var l := LinkMember(m, bindings, BindTypes(bindings, owner)); l.captures == 0 <==> MemberClear(m, l.node, owner, bindings, package)
  {
    hide SitesOk, Clear, Placed, WellScoped, CallableSites, LinkCallable;
    TypesTogether(bindings, owner, m.types);
    CallableFollowed(TypesOf(m.ownerTypes, owner, m.types), m.params, m.lengths, m.body, bindings, package);
  }

  /** Linking a declaration reports no capture if and only if every visited reference in it, resolved by
      emitted spelling, denotes the binding it denotes in the source, and no class that it creates is
      spelled like a type parameter in scope. */
  lemma ReportsExactly(d: Declaration, bindings: Names, package: set<string>)
    requires WellScoped(Scope(bindings, []), package) && DeclarationOk(d, bindings, package) && DeclarationPlaced(d)
    ensures LinkDeclaration(d, bindings).captures == 0 <==> DeclarationClear(d, LinkDeclaration(d, bindings).node, bindings, package)
  {
    hide SitesOk, Clear, Placed, WellScoped, CallableSites, LinkCallable, FieldClear, MemberClear, LinkField, LinkMember;
    match d
    case Callable(types, params, lengths, body) => CallableFollowed(types, params, lengths, body, bindings, package);
    case Value(value) => ValueFollowed(value, [], bindings, package);
    case Owner(types, fields, members) => OwnerReports(d, bindings, package);
  }

  lemma OwnerReports(d: Declaration, bindings: Names, package: set<string>)
    requires d.Owner? && WellScoped(Scope(bindings, []), package) && DeclarationOk(d, bindings, package) && DeclarationPlaced(d)
    ensures LinkDeclaration(d, bindings).captures == 0 <==> DeclarationClear(d, LinkDeclaration(d, bindings).node, bindings, package)
  {
    hide SitesOk, Clear, Placed, WellScoped, CallableSites, LinkCallable, FieldClear, MemberClear, LinkField, LinkMember, Sites;
    var owner := BindTypes(bindings, d.types);
    var fs, ms := LinkFields(d.fields, bindings, owner), LinkMembers(d.members, bindings, owner);
    FieldsShape(d.fields, bindings, owner);
    MembersShape(d.members, bindings, owner);
    forall i | 0 <= i < |d.fields|
      ensures LinkField(d.fields[i], bindings, owner).captures == 0 <==> FieldClear(d.fields[i], fs.node[i], d.types, bindings, package)
      ensures fs.captures == 0 ==> LinkField(d.fields[i], bindings, owner).captures == 0
    {
      FieldAt(d.fields, bindings, owner, i);
      FieldExact(d.fields[i], d.types, bindings, package);
    }
    forall i | 0 <= i < |d.members|
      ensures LinkMember(d.members[i], bindings, owner).captures == 0 <==> MemberClear(d.members[i], ms.node[i], d.types, bindings, package)
      ensures ms.captures == 0 ==> LinkMember(d.members[i], bindings, owner).captures == 0
    {
      MemberAt(d.members, bindings, owner, i);
      MemberExact(d.members[i], d.types, bindings, package);
    }
    if forall i :: 0 <= i < |d.fields| ==> LinkField(d.fields[i], bindings, owner).captures == 0 { FieldsSilent(d.fields, bindings, owner); }
    if forall i :: 0 <= i < |d.members| ==> LinkMember(d.members[i], bindings, owner).captures == 0 { MembersSilent(d.members, bindings, owner); }
  }

  lemma FieldsShape(fs: seq<Field>, visible: Names, owner: Names)
    ensures |LinkFields(fs, visible, owner).node| == |fs|
  {
    if fs != [] { FieldAt(fs, visible, owner, 0); }
  }

  lemma MembersShape(ms: seq<Member>, visible: Names, owner: Names)
    ensures |LinkMembers(ms, visible, owner).node| == |ms|
  {
    if ms != [] { MemberAt(ms, visible, owner, 0); }
  }

  /** A class imported under the name `D` whose own name `C` is also a type parameter: `new D()` becomes a
      call of `NewC`, which is no capture, and is reported. */
  lemma NewReportedNeedlessly()
    ensures var bindings, package := map["D" := "C", "C" := ""], {"C", "NewC"};
            var d := Callable(["C"], [], NoExpr, Then(Evaluate(Also(New("D", NoExpr), NoExpr)), Done));
            && WellScoped(Scope(bindings, []), package) && DeclarationOk(d, bindings, package) && DeclarationPlaced(d)
            && LinkDeclaration(d, bindings).captures > 0 && DeclarationKept(d, LinkDeclaration(d, bindings).node, bindings, package)
  {
    hide WellScoped, SitesOk, CallableSites, LinkCallable, Kept, Placed, BindTypes;
    var bindings: Names, types: seq<Identified> := map["D" := "C", "C" := ""], ["C"];
    NewSites("D");
    NewSites("C");
    NewVisible(bindings);
    NewLinks(BindTypes(bindings, types));
    NewDenotes();
  }

  lemma NewVisible(bindings: Names)
    requires bindings == map["D" := "C", "C" := ""]
    ensures var visible := BindTypes(bindings, ["C"]);
            "D" in visible && visible["D"] == "C" && EmittedKey("C") in visible && visible[EmittedKey("C")] == TYPE_PARAMETER
  {
    var types: seq<Identified> := ["C"];
    assert types[1..] == [] && BindTypes(BindType(bindings, "C"), []) == BindType(bindings, "C");
    KeysApart("C", "D");
  }

  lemma NewDenotes()
    ensures var scope, package := Scope(map["D" := "C", "C" := ""], ["C"]), {"C", "NewC"};
            && WellScoped(Scope(scope.bindings, []), package) && SitesOk([Reference("D", false, [], true)], scope, package)
            && Placed([Reference("D", false, [], true)])
            && Kept([Reference("D", false, [], true)], [Reference("C", false, [], true)], scope, package)
  {
    var scope, package := Scope(map["D" := "C", "C" := ""], ["C"]), {"C", "NewC"};
    assert NEW + "C" == "NewC";
    assert GoLookup([], "NewC") == [] && !Spelt(scope.types, "NewC");
    NewWellScoped(package);
  }

  lemma NewWellScoped(package: set<string>)
    requires package == {"C", "NewC"}
    ensures WellScoped(Scope(map["D" := "C", "C" := ""], []), package)
  {
    assert "NewC" !in KEYWORDS && "NewC" !in CALLABLES;
  }

  lemma NewSites(name: string)
    ensures CallableSites([], NoExpr, Then(Evaluate(Also(New(name, NoExpr), NoExpr)), Done)) == [Reference(name, false, [], true)]
  {
    var none: Env := [];
    var s := Evaluate(Also(New(name, NoExpr), NoExpr));
    assert none + none == none && none + none + none == none;
    assert Sites(New(name, NoExpr), none) == [Reference(name, false, none, true)] + SitesAll(NoExpr, none);
    assert SitesAll(Also(New(name, NoExpr), NoExpr), none) == [Reference(name, false, none, true)];
    assert StmtSites(s, none) == [Reference(name, false, none, true)] && BlockSites(Done, none, 0) == [] && ArrowGroup(Then(s, Done)) == [];
    assert BlockSites(Then(s, Done), none, 0) == StmtSites(s, none + none) + BlockSites(Done, none + none + none, 0);
  }

  lemma NewLinks(visible: Names)
    requires "D" in visible && visible["D"] == "C" && EmittedKey("C") in visible && visible[EmittedKey("C")] == TYPE_PARAMETER
    ensures LinkCallable([], NoExpr, Then(Evaluate(Also(New("D", NoExpr), NoExpr)), Done), visible)
            == Link((NoExpr, Then(Evaluate(Also(New("C", NoExpr), NoExpr)), Done)), 1)
  {
    var s := Evaluate(Also(New("D", NoExpr), NoExpr));
    assert LinkName("D", visible) == Link(Name("C", false), 1);
    assert LinkAll(NoExpr, visible, map[]) == Link(NoExpr, 0) && LinkBlock(Done, visible, map[], 0) == Link(Done, 0);
    assert LinkExpr(New("D", NoExpr), visible, map[]) == Link(New("C", NoExpr), 1);
    assert LinkAll(Also(New("D", NoExpr), NoExpr), visible, map[]) == Link(Also(New("C", NoExpr), NoExpr), 1);
    assert LinkStmt(s, visible, map[]) == Link(Evaluate(Also(New("C", NoExpr), NoExpr)), 1);
    assert BindAll(map[], []) == map[] && ArrowGroup(Then(s, Done)) == [] && Declared(s) == [];
  }

  /** An unvisited reference to `helper`. */
  const HELPER: Site := Site("helper", false, [], false, 0, false)

  lemma LabelledHelper(loop: Stmt, visible: Names)
    requires loop == While(Name("helper", false), Done)
    ensures CallableSites([], NoExpr, Then(Labeled(loop), Done)) == [HELPER]
    ensures LinkBlock(Then(Labeled(loop), Done), visible, map[], 0).captures == 0
  {
    var none: Env := [];
    assert none + none == none && none + none + none == none;
    assert BlockSites(Done, none, 0) == [];
    assert StmtSites(loop, none) == [Reference("helper", false, none, false)];
    assert StmtSites(Labeled(loop), none) == [HELPER];
    assert LinkStmt(Labeled(loop), visible, map[]).captures == 0;
  }

  /** A dependency's `helper`, linked under another spelling because the root declares a `helper` too, is
      not reached by its own spelling. */
  lemma HelperMoves(linked: string)
    requires Plain(linked) && Identifier(linked) != "helper"
    ensures var scope, package := Scope(map["helper" := linked, linked := ""], []), {"helper", Identifier(linked)};
            && WellScoped(scope, package) && SitesOk([HELPER], scope, package)
            && !OwnSpellings([HELPER], scope)
  {
    var scope := Scope(map["helper" := linked, linked := ""], []);
    Collisions("helper", "helper");
    Collisions(linked, linked);
    assert !OwnSpelling([HELPER][0], scope);
  }

  /** Called in `outer: while (helper()) {}` and in `helper() as! T` it is not linked, the linker reports
      nothing, and both calls spell the root's declaration. */
  lemma UnvisitedReferencesMove(linked: string)
    requires Plain(linked) && Identifier(linked) != "helper"
    ensures var bindings, package := map["helper" := linked, linked := ""], {"helper", Identifier(linked)};
            var labelled := Callable([], [], NoExpr, Then(Labeled(While(Name("helper", false), Done)), Done));
            var asserted := Value(Assertion(Name("helper", false)));
            && WellScoped(Scope(bindings, []), package)
            && DeclarationOk(labelled, bindings, package) && LinkDeclaration(labelled, bindings).captures == 0
            && DeclarationOk(asserted, bindings, package) && LinkDeclaration(asserted, bindings).captures == 0
            && !DeclarationKept(labelled, LinkDeclaration(labelled, bindings).node, bindings, package)
            && !DeclarationKept(asserted, LinkDeclaration(asserted, bindings).node, bindings, package)
  {
    hide WellScoped, SitesOk, OwnSpellings, BlockSites, LinkBlock;
    var bindings, package := map["helper" := linked, linked := ""], {"helper", Identifier(linked)};
    var loop := While(Name("helper", false), Done);
    HelperMoves(linked);
    LabelledHelper(loop, bindings);
    var asserted := Value(Assertion(Name("helper", false)));
    assert Sites(asserted.value, []) == [HELPER];
    LinkingKeepsReferences(Callable([], [], NoExpr, Then(Labeled(loop), Done)), bindings, package);
    LinkingKeepsReferences(asserted, bindings, package);
  }
}
