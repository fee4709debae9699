/** The names of local bindings and type parameters, collected by the linker's own walk before global
    names are chosen. */
module LexicalNames {
  import opened GoNames
  import opened LinkCapture
  import opened LinkNames
  import opened LinkSyntax
  import opened SourceLinker

  /** bindLocal collects every name but `_`. */
  function Local(binds: seq<Bind>): (names: set<string>)
    ensures forall b :: b in binds && b.name != "_" ==> b.name in names
  {
    if binds == [] then {} else (if binds[0].name == "_" then {} else {binds[0].name}) + Local(binds[1..])
  }

  function Collect(e: Expr): set<string> {
    match e
    case Name(_, _) => {}
    case Parts(parts) => CollectAll(parts)
    case New(_, arguments) => CollectAll(arguments)
    case Assertion(_) => {}
    case Arrow(params, lengths, value, body) => CollectAll(lengths) + Local(params) + CollectAll(value) + CollectBlock(body, 0)
  }

  function CollectAll(es: Exprs): set<string> {
    match es
    case NoExpr => {}
    case Also(e, rest) => Collect(e) + CollectAll(rest)
  }

  function CollectStmt(s: Stmt): set<string> {
    match s
    case Nothing => {}
    case Declare(bind, lengths, value) => CollectAll(lengths) + (if value.Arrow? then Local([bind]) else {}) + Collect(value)
    case DeclareMany(_, value) => Collect(value)
    case AssignMany(targets, value) => CollectAll(targets) + Collect(value)
    case Evaluate(parts) => CollectAll(parts)
    case Block(body) => CollectBlock(body, 0)
    case If(condition, then_, else_) => Collect(condition) + CollectBlock(then_, 0) + CollectStmt(else_)
    case While(condition, body) => Collect(condition) + CollectBlock(body, 0)
    case For(init, condition, post, body) =>
      CollectStmt(init) + Local(Declared(init)) + Collect(condition) + CollectBlock(body, 0) + CollectStmt(post)
    case Range(source, binds, body) => Collect(source) + Local(Named(binds)) + CollectBlock(body, 0)
    case Try(body, catches, finally_) => CollectBlock(body, 0) + CollectClauses(catches) + CollectBlock(finally_, 0)
    case Switch(subject, clauses) => CollectAll(subject) + CollectClauses(clauses)
    case Labeled(_) => {}
  }

  function CollectBlock(stmts: Stmts, grouped: nat): set<string> {
    match stmts
    case Done => {}
    case Then(s, rest) =>
      Local(Grouped(stmts, grouped)) + CollectStmt(s) + Local(Declared(s)) + CollectBlock(rest, Left(stmts, grouped))
  }

  function CollectClauses(cs: Clauses): set<string> {
    match cs
    case NoClause => {}
    case Clause(parts, binds, body, rest) => CollectAll(parts) + Local(Named(binds)) + CollectBlock(body, 0) + CollectClauses(rest)
  }

  function Names(types: seq<Identified>): set<string> {
    set i | 0 <= i < |types| :: types[i]
  }

  function CollectDeclaration(d: Declaration): set<string> {
    match d
    case Callable(types, params, lengths, body) => Names(types) + CollectCallable(params, lengths, body)
    case Value(value) => Collect(value)
    case Owner(types, fields, members) =>
      Names(types) + (set i, name | 0 <= i < |fields| && name in Collect(fields[i].value) :: name)
      + (set i, name | 0 <= i < |members| && name in CollectMember(members[i]) :: name)
  }

  function CollectMember(m: Member): set<string> {
    Names(m.types) + CollectCallable(m.params, m.lengths, m.body)
  }

  function CollectCallable(params: seq<Bind>, lengths: Exprs, body: Stmts): set<string> {
    CollectAll(lengths) + Local(params) + CollectBlock(body, 0)
  }

  /** lexicalLinkNames, by emitted spelling. */
  function Lexical(program: seq<Declaration>): set<string> {
    set i, name | 0 <= i < |program| && name in CollectDeclaration(program[i]) :: Identifier(name)
  }

  // ----- what is collected -----

  predicate Within(binds: seq<Bind>, names: set<string>) {
    forall b :: b in binds && b.name != "_" ==> b.name in names
  }

  /** Every binding in scope that was seen on the way to a reference is among the names, and at a visited
      reference all were. */
  predicate CoveredSite(s: Site, names: set<string>) {
    s.seen <= |s.env| && (s.visited ==> s.seen == |s.env|) && Within(s.env[..s.seen], names)
  }

  predicate Covered(sites: seq<Site>, names: set<string>) {
    forall i :: 0 <= i < |sites| ==> CoveredSite(sites[i], names)
  }

  lemma CoveredTogether(a: seq<Site>, b: seq<Site>, names: set<string>)
    requires Covered(a, names) && Covered(b, names)
    ensures Covered(a + b, names)
  {
    hide CoveredSite;
  }

  lemma WithinTogether(env: Env, binds: seq<Bind>, names: set<string>)
    requires Within(env, names) && Local(binds) <= names
    ensures Within(env + binds, names)
  {
  }

  lemma {:induction false} ExprCovered(e: Expr, env: Env, names: set<string>)
    requires Within(env, names) && Collect(e) <= names
    ensures Covered(Sites(e, env), names)
  {
    hide Within, Covered;
    match e
    case Name(name, outside) => OneCovered(name, outside, env, false, names);
    case Parts(parts) => AllCovered(parts, env, names);
    case New(cls, arguments) =>
      OneCovered(cls, false, env, true, names);
      AllCovered(arguments, env, names);
      CoveredTogether([Reference(cls, false, env, true)], SitesAll(arguments, env), names);
    case Assertion(operand) => UnvisitedCovered(Sites(operand, env), env, names);
    case Arrow(params, lengths, value, body) =>
      var inner := env + params;
      WithinTogether(env, params, names);
      AllCovered(lengths, env, names);
      AllCovered(value, inner, names);
      BlockCovered(body, inner, 0, names);
      CoveredTogether(SitesAll(lengths, env), SitesAll(value, inner), names);
      CoveredTogether(SitesAll(lengths, env) + SitesAll(value, inner), BlockSites(body, inner, 0), names);
  }

  lemma OneCovered(name: string, outside: bool, env: Env, creates: bool, names: set<string>)
    requires Within(env, names)
    ensures Covered([Reference(name, outside, env, creates)], names)
  {
    assert env[..|env|] == env;
  }

  lemma UnvisitedCovered(sites: seq<Site>, env: Env, names: set<string>)
    requires Inside(sites, env) && Within(env, names)
    ensures Covered(Unvisited(sites, env), names)
  {
    forall i | 0 <= i < |sites| ensures CoveredSite(Unvisited(sites, env)[i], names) { assert sites[i].env[..|env|] == env; }
  }

  lemma {:induction false} AllCovered(es: Exprs, env: Env, names: set<string>)
    requires Within(env, names) && CollectAll(es) <= names
    ensures Covered(SitesAll(es, env), names)
  {
    if es.Also? {
      hide Within, Covered;
      ExprCovered(es.head, env, names);
      AllCovered(es.tail, env, names);
      CoveredTogether(Sites(es.head, env), SitesAll(es.tail, env), names);
    }
  }

  lemma {:induction false} BlockCovered(stmts: Stmts, env: Env, grouped: nat, names: set<string>)
    requires Within(env, names) && CollectBlock(stmts, grouped) <= names
    ensures Covered(BlockSites(stmts, env, grouped), names)
    decreases stmts
  {
    if stmts.Then? {
      hide Within, Covered, StmtSites, CollectStmt, Declared, ArrowGroup;
      var group, s := Grouped(stmts, grouped), stmts.head;
      WithinTogether(env, group, names);
      WithinTogether(env + group, Declared(s), names);
      StmtCovered(s, env + group, names);
      BlockCovered(stmts.tail, env + group + Declared(s), Left(stmts, grouped), names);
      CoveredTogether(StmtSites(s, env + group), BlockSites(stmts.tail, env + group + Declared(s), Left(stmts, grouped)), names);
    }
  }

  lemma {:induction false} ClausesCovered(cs: Clauses, env: Env, names: set<string>)
    requires Within(env, names) && CollectClauses(cs) <= names
    ensures Covered(ClauseSites(cs, env), names)
  {
    if cs.Clause? {
      hide Within, Covered;
      var binds := Named(cs.binds);
      WithinTogether(env, binds, names);
      AllCovered(cs.parts, env, names);
      BlockCovered(cs.body, env + binds, 0, names);
      ClausesCovered(cs.rest, env, names);
      CoveredTogether(SitesAll(cs.parts, env), BlockSites(cs.body, env + binds, 0), names);
      CoveredTogether(SitesAll(cs.parts, env) + BlockSites(cs.body, env + binds, 0), ClauseSites(cs.rest, env), names);
    }
  }

  lemma {:induction false} StmtCovered(s: Stmt, env: Env, names: set<string>)
    requires Within(env, names) && CollectStmt(s) <= names
    ensures Covered(StmtSites(s, env), names)
    decreases s, 1
  {
    hide Within, Covered;
    match s
    case Nothing => NoneCovered(names);
    case Declare(bind, lengths, value) =>
      var inner := if value.Arrow? then env + [bind] else env;
      if value.Arrow? { WithinTogether(env, [bind], names); }
      AllCovered(lengths, env, names);
      ExprCovered(value, inner, names);
      CoveredTogether(SitesAll(lengths, env), Sites(value, inner), names);
    case DeclareMany(_, value) => ExprCovered(value, env, names);
    case AssignMany(targets, value) =>
      AllCovered(targets, env, names);
      ExprCovered(value, env, names);
      CoveredTogether(SitesAll(targets, env), Sites(value, env), names);
    case Evaluate(parts) => AllCovered(parts, env, names);
    case Block(body) => BlockCovered(body, env, 0, names);
    case If(condition, then_, else_) =>
      ExprCovered(condition, env, names);
      BlockCovered(then_, env, 0, names);
      StmtCovered(else_, env, names);
      CoveredTogether(Sites(condition, env), BlockSites(then_, env, 0), names);
      CoveredTogether(Sites(condition, env) + BlockSites(then_, env, 0), StmtSites(else_, env), names);
    case While(condition, body) =>
      ExprCovered(condition, env, names);
      BlockCovered(body, env, 0, names);
      CoveredTogether(Sites(condition, env), BlockSites(body, env, 0), names);
    case For(_, _, _, _) => ForCovered(s, env, names);
    case Range(source, binds, body) =>
      WithinTogether(env, Named(binds), names);
      ExprCovered(source, env, names);
      BlockCovered(body, env + Named(binds), 0, names);
      CoveredTogether(Sites(source, env), BlockSites(body, env + Named(binds), 0), names);
    case Try(body, catches, finally_) =>
      BlockCovered(body, env, 0, names);
      ClausesCovered(catches, env, names);
      BlockCovered(finally_, env, 0, names);
      CoveredTogether(BlockSites(body, env, 0), ClauseSites(catches, env), names);
      CoveredTogether(BlockSites(body, env, 0) + ClauseSites(catches, env), BlockSites(finally_, env, 0), names);
    case Switch(subject, clauses) =>
      AllCovered(subject, env, names);
      ClausesCovered(clauses, env, names);
      CoveredTogether(SitesAll(subject, env), ClauseSites(clauses, env), names);
    case Labeled(labeled) => UnvisitedCovered(StmtSites(labeled, env), env, names);
  }

  lemma NoneCovered(names: set<string>)
    ensures Covered([], names)
  {
  }

  lemma {:induction false} ForCovered(s: Stmt, env: Env, names: set<string>)
    requires s.For? && Within(env, names) && CollectStmt(s) <= names
    ensures Covered(StmtSites(s, env), names)
    decreases s, 0
  {
    hide Within, Covered;
    var inner := env + Declared(s.init);
    WithinTogether(env, Declared(s.init), names);
    StmtCovered(s.init, env, names);
    ExprCovered(s.condition, inner, names);
    BlockCovered(s.body, inner, 0, names);
    StmtCovered(s.post, inner, names);
    var a, b, c, d := StmtSites(s.init, env), Sites(s.condition, inner), BlockSites(s.body, inner, 0), StmtSites(s.post, inner);
    CoveredTogether(a, b, names);
    CoveredTogether(a + b, c, names);
    CoveredTogether(a + b + c, d, names);
  }

  // ----- whole programs -----

  /** A reference of a declaration: its site, and the type parameters in scope there. */
  datatype Use = Use(site: Site, types: seq<Identified>)

  ghost predicate In(u: Use, d: Declaration) {
    match d
    case Callable(types, params, lengths, body) => u.types == types && u.site in CallableSites(params, lengths, body)
    case Value(value) => u.types == [] && u.site in Sites(value, [])
    case Owner(types, fields, members) =>
      || (exists i :: 0 <= i < |fields| && u.types == TypesOf(fields[i].ownerTypes, types, []) && u.site in Sites(fields[i].value, []))
      || (exists i :: 0 <= i < |members| && u.types == TypesOf(members[i].ownerTypes, types, members[i].types)
                      && u.site in CallableSites(members[i].params, members[i].lengths, members[i].body))
  }

  lemma CallableCollects(params: seq<Bind>, lengths: Exprs, body: Stmts, site: Site, names: set<string>)
    requires site in CallableSites(params, lengths, body) && CollectCallable(params, lengths, body) <= names
    ensures CoveredSite(site, names)
  {
    hide CoveredSite;
    WithinTogether([], params, names);
    assert [] + params == params;
    AllCovered(lengths, [], names);
    BlockCovered(body, params, 0, names);
    CoveredTogether(SitesAll(lengths, []), BlockSites(body, params, 0), names);
  }

  lemma ValueCollects(value: Expr, site: Site, names: set<string>)
    requires site in Sites(value, []) && Collect(value) <= names
    ensures CoveredSite(site, names)
  {
    hide CoveredSite;
    ExprCovered(value, [], names);
  }

  /** Every local binding and type parameter in scope at a visited reference is collected; at any other,
      those that are bound outside the assertion or labelled statement. */
  lemma DeclarationCollects(d: Declaration, u: Use)
    requires In(u, d)
    ensures CoveredSite(u.site, CollectDeclaration(d)) && Names(u.types) <= CollectDeclaration(d)
  {
    var names := CollectDeclaration(d);
    hide CallableSites, Sites, CoveredSite, CollectCallable, Collect;
    match d
    case Callable(types, params, lengths, body) => CallableCollects(params, lengths, body, u.site, names);
    case Value(value) => ValueCollects(value, u.site, names);
    case Owner(types, fields, members) =>
      if i :| 0 <= i < |fields| && u.types == TypesOf(fields[i].ownerTypes, types, []) && u.site in Sites(fields[i].value, []) {
        ValueCollects(fields[i].value, u.site, names);
        NamesOf(fields[i].ownerTypes, types, []);
      } else {
        var i :| 0 <= i < |members| && u.types == TypesOf(members[i].ownerTypes, types, members[i].types)
                 && u.site in CallableSites(members[i].params, members[i].lengths, members[i].body);
        var m := members[i];
        assert CollectMember(m) <= names;
        CallableCollects(m.params, m.lengths, m.body, u.site, names);
        NamesOf(m.ownerTypes, types, m.types);
      }
  }

  lemma NamesOf(ownerTypes: bool, owner: seq<Identified>, own: seq<Identified>)
    ensures Names(TypesOf(ownerTypes, owner, own)) <= Names(owner) + Names(own)
  {
  }

  lemma {:induction false} NotSpelled(env: Env, spelling: string)
    requires forall b :: b in env ==> Identifier(b.name) != spelling
    ensures GoLookup(env, spelling) == []
  {
    if env != [] { NotSpelled(env[..|env| - 1], spelling); }
  }

  lemma {:induction false} GoLookupTogether(a: Env, b: Env, spelling: string)
    ensures GoLookup(a + b, spelling) == if GoLookup(b, spelling) != [] then GoLookup(b, spelling) else GoLookup(a, spelling)
  {
    if b == [] {
      assert a + b == a;
    } else {
      GoLookupTogether(a, b[..|b| - 1], spelling);
      assert (a + b)[..|a + b| - 1] == a + b[..|b| - 1];
    }
  }

  /** No local binding and no type parameter in scope is spelled like this. */
  predicate Free(u: Use, spelling: string) {
    GoLookup(u.site.env, spelling) == [] && !Spelt(u.types, spelling)
  }

  /** None that is made below the assertion or labelled statement where the walk stops. */
  predicate FreeBelow(s: Site, spelling: string)
    requires s.seen <= |s.env|
  {
    GoLookup(s.env[s.seen..], spelling) == []
  }

  /** The name chosen for a dependency's declaration is free at a reference of any module exactly when no
      binding made below an assertion or a label has its spelling: at every visited reference. */
  lemma LinkedNamesAreFree(program: seq<Declaration>, decls: seq<Decl>, linked: seq<string>, k: nat, u: Use, i: nat)
    requires Separate(decls, Lexical(program), linked)
    requires k < |program| && In(u, program[k])
    requires i < |decls| && !RootKept(decls[i]) && Identifier(linked[i]) != "_"
    ensures u.site.seen <= |u.site.env| && (Free(u, Identifier(linked[i])) <==> FreeBelow(u.site, Identifier(linked[i])))
    ensures u.site.visited ==> Free(u, Identifier(linked[i]))
  {
    hide In, Identifier, CollectDeclaration, RootKept;
    DeclarationCollects(program[k], u);
    FreeAmong(program, k, u, Identifier(linked[i]));
  }

  lemma FreeAmong(program: seq<Declaration>, k: nat, u: Use, spelling: string)
    requires k < |program| && spelling !in Lexical(program) && spelling != "_"
    requires CoveredSite(u.site, CollectDeclaration(program[k])) && Names(u.types) <= CollectDeclaration(program[k])
    ensures Free(u, spelling) <==> FreeBelow(u.site, spelling)
    ensures u.site.visited ==> Free(u, spelling)
  {
    hide CollectDeclaration, Identifier, Lexical, GoLookup;
    forall name | name in CollectDeclaration(program[k]) ensures Identifier(name) != spelling {
      CollectedIsLexical(program, k, name);
    }
    var seen, below := u.site.env[..u.site.seen], u.site.env[u.site.seen..];
    forall b | b in seen ensures Identifier(b.name) != spelling {
      if b.name == "_" { BlankIsPlain(); }
    }
    NotSpelled(seen, spelling);
    if u.site.visited { NotSpelled(below, spelling); }
    assert seen + below == u.site.env;
    GoLookupTogether(seen, below, spelling);
    forall t | t in u.types ensures Identifier(t) != spelling { assert t in Names(u.types); }
  }

  lemma CollectedIsLexical(program: seq<Declaration>, k: nat, name: string)
    requires k < |program| && name in CollectDeclaration(program[k])
    ensures Identifier(name) in Lexical(program)
  {
    hide CollectDeclaration, Identifier;
  }

  lemma BlankIsPlain()
    ensures Identifier("_") == "_"
  {
  }

  /** Likewise the canonical alias of every Go import. */
  lemma AliasesAreFree(program: seq<Declaration>, canonical: map<string, string>, declared: set<string>, k: nat, u: Use, path: string)
    requires AliasesOk(canonical, BUILTINS + Lexical(program) + declared)
    requires k < |program| && In(u, program[k])
    requires path in canonical && Identifier(canonical[path]) != "_"
    ensures u.site.seen <= |u.site.env| && (Free(u, Identifier(canonical[path])) <==> FreeBelow(u.site, Identifier(canonical[path])))
    ensures u.site.visited ==> Free(u, Identifier(canonical[path]))
  {
    hide In, Identifier, CollectDeclaration;
    DeclarationCollects(program[k], u);
    assert Identifier(canonical[path]) !in Lexical(program);
    FreeAmong(program, k, u, Identifier(canonical[path]));
  }

  // ----- a collision -----

  /** A loop whose body declares `name` and then calls `used`. */
  function Loop(name: Identified, used: string): Stmt {
    While(Parts(NoExpr), LoopBody(name, used))
  }

  function LoopBody(name: Identified, used: string): Stmts {
    Then(Declare(Bind(name, 0), NoExpr, Parts(NoExpr)), Then(Evaluate(Also(Name(used, false), NoExpr)), Done))
  }

  function Function(s: Stmt): Declaration {
    Callable([], [], NoExpr, Then(s, Done))
  }

  lemma LoopCollects(name: Identified, used: string)
    requires name != "_"
    ensures CollectStmt(Loop(name, used)) == {name}
  {
    var body := LoopBody(name, used);
    assert ArrowGroup(body) == [] && ArrowGroup(body.tail) == [];
    assert CollectStmt(body.head) == {} && Declared(body.head) == [Bind(name, 0)];
    assert Collect(Name(used, false)) == {} && CollectAll(Also(Name(used, false), NoExpr)) == {};
    assert CollectStmt(body.tail.head) == {} && Declared(body.tail.head) == [];
    assert Local([]) == {} && Local([Bind(name, 0)]) == {name};
    assert CollectBlock(Done, 0) == {} && CollectBlock(body.tail, 0) == {};
    assert CollectBlock(body, 0) == {name};
  }

  lemma FunctionCollects(s: Stmt)
    requires Declared(s) == [] && !s.Declare?
    ensures CollectDeclaration(Function(s)) == CollectStmt(s)
  {
    assert CollectBlock(Done, 0) == {} && Local([]) == {} && ArrowGroup(Then(s, Done)) == [];
    assert CollectBlock(Then(s, Done), 0) == CollectStmt(s);
  }

  lemma LoopSites(name: Identified, used: string)
    ensures StmtSites(Loop(name, used), []) == [Reference(used, false, [Bind(name, 0)], false)]
  {
    var body, none: Env, one: Env := LoopBody(name, used), [], [Bind(name, 0)];
    assert none + none == none && none + one == one && one + none == one;
    assert ArrowGroup(body) == [] && ArrowGroup(body.tail) == [];
    assert Sites(Parts(NoExpr), none) == [] && SitesAll(NoExpr, none) == [];
    assert StmtSites(body.head, none) == [];
    assert SitesAll(Also(Name(used, false), NoExpr), one) == [Reference(used, false, one, false)];
    assert BlockSites(Done, one, 0) == [];
    assert BlockSites(body.tail, one, 0) == [Reference(used, false, one, false)];
    assert BlockSites(body, none, 0) == BlockSites(body.tail, none + none + one, 0);
  }

  /** The reference in the loop below a label. */
  function Captured(name: Identified): Site {
    Site(name + "_", false, [Bind(name, 0)], false, 0, false)
  }

  lemma LabelledSites(name: Identified)
    ensures CallableSites([], NoExpr, Then(Labeled(Loop(name, name + "_")), Done)) == [Captured(name)]
  {
    hide Loop, Inside;
    LoopSites(name, name + "_");
    AloneSites(Labeled(Loop(name, name + "_")));
  }

  lemma AloneSites(s: Stmt)
    requires s.Labeled?
    ensures CallableSites([], NoExpr, Then(s, Done)) == StmtSites(s, [])
  {
    hide StmtSites, Inside;
    var none: Env := [];
    assert none + none == none && BlockSites(Done, none, 0) == [] && ArrowGroup(Then(s, Done)) == [] && Declared(s) == [];
    assert BlockSites(Then(s, Done), none, 0) == StmtSites(s, none + none) + BlockSites(Done, none + none + none, 0);
  }

  lemma EscapedIsPlain(name: Identified)
    requires Reserved(name)
    ensures !Reserved(name + "_") && Identifier(name) == name + "_" == Identifier(name + "_") && name != "_" && name + "_" != "main" && Plain(name + "_")
  {
    Collisions(name, name + "_");
    ReservedEndInLetters(name);
    assert EndsInUnderscore(name + "_");
  }

  /** One declaration keeps its name if that is not lexical. */
  lemma OneKept(name: string, lexical: set<string>)
    requires name != "main"
    ensures var decl := Decl("dependency", name, false, false);
            && (Renamed([decl], lexical, 0) <==> Identifier(name) in lexical)
            && (Identifier(name) !in lexical ==> Separate([decl], lexical, [name]))
  {
    hide Identifier;
    assert !Shared([Decl("dependency", name, false, false)], 0);
  }

  lemma CapturedMoves(name: Identified)
    requires Reserved(name)
    ensures var scope, package := Scope(map[name + "_" := name + "_"], []), {name + "_"};
            && WellScoped(scope, package) && SitesOk([Captured(name)], scope, package) && !OwnSpellings([Captured(name)], scope)
  {
    EscapedIsPlain(name);
    var scope := Scope(map[name + "_" := name + "_"], []);
    var s := Captured(name);
    assert Lookup([], s.name) == [] && Lookup(s.env, s.name) == [] && GoLookup(s.env, name + "_") == [Bind(name, 0)];
    assert !OwnSpelling([s][0], scope);
  }

  lemma LabelledLinks(s: Stmt, visible: SourceLinker.Names)
    ensures LinkDeclaration(Function(Labeled(s)), visible) == Link(Function(Labeled(s)), 0)
  {
    var stmts := Then(Labeled(s), Done);
    assert BindTypes(visible, []) == visible && BindAll(map[], []) == map[] && ArrowGroup(stmts) == [];
    assert LinkBlock(Done, visible, map[], 0) == Link(Done, 0) && LinkStmt(Labeled(s), visible, map[]) == Link(Labeled(s), 0);
    assert LinkBlock(stmts, visible, map[], 0) == Link(stmts, 0);
  }

  /** In a dependency with `function copy_()`, the body of `outer: while (..) { let copy = ..; copy_(); }`
      makes a binding that is not collected: `copy_` keeps its name, nothing is reported, and the call
      reaches the local `copy`. Without the label the function is renamed. So for every reserved name. */
  lemma UnvisitedBindingsCollide(name: Identified)
    requires Reserved(name)
    ensures var used := name + "_";
            var plain, labelled := Function(Loop(name, used)), Function(Labeled(Loop(name, used)));
            var decl, bindings, package := Decl("dependency", used, false, false), map[used := used], {used};
            && Renamed([decl], Lexical([plain]), 0)
            && !Renamed([decl], Lexical([labelled]), 0) && Separate([decl], Lexical([labelled]), [used])
            && WellScoped(Scope(bindings, []), package)
            && DeclarationOk(labelled, bindings, package) && LinkDeclaration(labelled, bindings).captures == 0
            && !DeclarationKept(labelled, LinkDeclaration(labelled, bindings).node, bindings, package)
  {
    hide *;
    LabelMatters(name);
    LabelCaptures(name);
  }

  lemma LabelMatters(name: Identified)
    requires Reserved(name)
    ensures var used := name + "_";
            var plain, labelled := Function(Loop(name, used)), Function(Labeled(Loop(name, used)));
            var decl := Decl("dependency", used, false, false);
            && Renamed([decl], Lexical([plain]), 0)
            && !Renamed([decl], Lexical([labelled]), 0) && Separate([decl], Lexical([labelled]), [used])
  {
    hide Reserved, Identifier, CollectDeclaration, Separate, Renamed, LoopBody, Lexical;
    var used := name + "_";
    var loop := Loop(name, used);
    EscapedIsPlain(name);
    LoopCollects(name, used);
    FunctionCollects(loop);
    FunctionCollects(Labeled(loop));
    CollectedIsLexical([Function(loop)], 0, name);
    NothingLexical(Function(Labeled(loop)));
    OneKept(used, Lexical([Function(loop)]));
    OneKept(used, {});
  }

  lemma NothingLexical(d: Declaration)
    requires CollectDeclaration(d) == {}
    ensures Lexical([d]) == {}
  {
    hide CollectDeclaration;
  }

  lemma LabelCaptures(name: Identified)
    requires Reserved(name)
    ensures var used := name + "_";
            var labelled, bindings, package := Function(Labeled(Loop(name, used))), map[used := used], {used};
            && WellScoped(Scope(bindings, []), package)
            && DeclarationOk(labelled, bindings, package) && LinkDeclaration(labelled, bindings).captures == 0
            && !DeclarationKept(labelled, LinkDeclaration(labelled, bindings).node, bindings, package)
  {
    hide Reserved, Identifier, WellScoped, SitesOk, OwnSpellings, CallableSites, LinkDeclaration, DeclarationKept, Loop, Captured;
    var used := name + "_";
    var loop, bindings, package := Loop(name, used), map[used := used], {used};
    LabelledSites(name);
    LabelledLinks(loop, bindings);
    CapturedMoves(name);
    LinkingKeepsReferences(Function(Labeled(loop)), bindings, package);
  }
}
