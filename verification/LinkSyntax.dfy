/** The parts of the source tree that bind or use value names. */
module LinkSyntax {

  /** Source identifiers are not empty and do not start with the byte of the linker's own keys. */
  predicate Plain(name: string) {
    name != "" && name[0] != '\0'
  }

  type Identified = name: string | Plain(name) witness "x"

  /** A binding and where it stands in the source, which identifies it. */
  datatype Bind = Bind(name: Identified, at: nat)

  /** `New` creates an instance of a class, `Assertion` is a type assertion (`value as! T`,
      `value as? T`), `Parts` any other expression that only has operands; `outside` marks references the
      linker has found to mean nothing of their module. The value expressions in a type, its array
      lengths, are operands like others, but for the declared types of variables and parameters:
      `lengths`, which do not see what is declared. */
  datatype Expr =
    | Name(name: string, outside: bool)
    | Parts(parts: Exprs)
    | New(cls: string, arguments: Exprs)
    | Assertion(operand: Expr)
    | Arrow(params: seq<Bind>, lengths: Exprs, value: Exprs, body: Stmts)

  datatype Exprs = NoExpr | Also(head: Expr, tail: Exprs)

  /** `Evaluate` is a statement that only evaluates, `AssignMany` an assignment to names other than
      `_`, `Switch` a select, value switch or type switch. */
  datatype Stmt =
    | Nothing
    | Declare(bind: Bind, lengths: Exprs, value: Expr)
    | DeclareMany(binds: seq<Bind>, value: Expr)
    | AssignMany(targets: Exprs, value: Expr)
    | Evaluate(parts: Exprs)
    | Block(body: Stmts)
    | If(condition: Expr, then_: Stmts, else_: Stmt)
    | While(condition: Expr, body: Stmts)
    | For(init: Stmt, condition: Expr, post: Stmt, body: Stmts)
    | Range(source: Expr, binds: seq<Bind>, body: Stmts)
    | Try(body: Stmts, catches: Clauses, finally_: Stmts)
    | Switch(subject: Exprs, clauses: Clauses)
    | Labeled(labeled: Stmt)

  datatype Stmts = Done | Then(head: Stmt, tail: Stmts)

  /** A catch, or a case of a select or switch. */
  datatype Clauses = NoClause | Clause(parts: Exprs, binds: seq<Bind>, body: Stmts, rest: Clauses)

  datatype Member = Member(ownerTypes: bool, types: seq<Identified>, params: seq<Bind>, lengths: Exprs, body: Stmts)

  /** A value that an owner evaluates by itself: a field's initializer or the array lengths of its type, or
      a decorator, which does not see the owner's type parameters. */
  datatype Field = Field(ownerTypes: bool, value: Expr)

  /** A function or receiver method, a variable or enum member, or a class, struct, interface or named
      type. */
  datatype Declaration =
    | Callable(types: seq<Identified>, params: seq<Bind>, lengths: Exprs, body: Stmts)
    | Value(value: Expr)
    | Owner(types: seq<Identified>, fields: seq<Field>, members: seq<Member>)

  // ----- scopes -----

  /** Local bindings in scope, innermost last. */
  type Env = seq<Bind>

  /** The direct arrow declarations at the start of a block, which see each other. */
  function ArrowGroup(stmts: Stmts): seq<Bind> {
    if stmts.Then? && stmts.head.Declare? && stmts.head.value.Arrow? then [stmts.head.bind] + ArrowGroup(stmts.tail) else []
  }

  function Listed(stmts: Stmts): seq<Stmt> {
    if stmts.Then? then [stmts.head] + Listed(stmts.tail) else []
  }

  predicate BindsArrow(s: Stmt) {
    s.Declare? && s.value.Arrow?
  }

  /** The group is the longest run of arrow declarations that the block begins with. */
  lemma {:induction false} GroupIsRun(stmts: Stmts)
    ensures var all, group := Listed(stmts), ArrowGroup(stmts);
            && |group| <= |all| && (|group| < |all| ==> !BindsArrow(all[|group|]))
            && forall i :: 0 <= i < |group| ==> BindsArrow(all[i]) && all[i].bind == group[i]
  {
    if stmts.Then? { GroupIsRun(stmts.tail); }
  }

  function Named(binds: seq<Bind>): seq<Bind> {
    if binds == [] then []
    else if binds[0].name == "_" then Named(binds[1..])
    else [binds[0]] + Named(binds[1..])
  }

  /** What a statement leaves bound for the rest of its block. A declaration has no label. */
  function Declared(s: Stmt): seq<Bind> {
    match s
    case Declare(bind, _, _) => [bind]
    case DeclareMany(binds, _) => Named(binds)
    case _ => []
  }

  lemma {:induction false} NamedAre(binds: seq<Bind>, b: Bind)
    ensures b in Named(binds) <==> b in binds && b.name != "_"
  {
    if binds != [] {
      assert binds == [binds[0]] + binds[1..];
      NamedAre(binds[1..], b);
    }
  }

  /** A statement leaves bound what it declares under a name. */
  lemma DeclaredAre(s: Stmt, b: Bind)
    ensures b in Declared(s) <==> (s.Declare? && b == s.bind) || (s.DeclareMany? && b in s.binds && b.name != "_")
  {
    if s.DeclareMany? { NamedAre(s.binds, b); }
  }

  /** A reference and the local bindings in scope there; `creates` if it is the class of a `new`. The
      linker visits no reference below a type assertion or a label: `seen` counts the bindings made
      before it stops, all of them at a visited reference. */
  datatype Site = Site(name: string, outside: bool, env: Env, creates: bool, seen: nat, visited: bool)

  function Reference(name: string, outside: bool, env: Env, creates: bool): Site {
    Site(name, outside, env, creates, |env|, true)
  }

  /** The sites lie within the scope of these bindings. */
  predicate Inside(sites: seq<Site>, env: Env) {
    forall s :: s in sites ==> env <= s.env
  }

  function Unvisited(sites: seq<Site>, env: Env): (r: seq<Site>)
    ensures |r| == |sites| && forall i :: 0 <= i < |r| ==> r[i] == sites[i].(seen := |env|, visited := false)
  {
    if sites == [] then [] else [sites[0].(seen := |env|, visited := false)] + Unvisited(sites[1..], env)
  }

  function Sites(e: Expr, env: Env): (sites: seq<Site>)
    ensures Inside(sites, env)
  {
    match e
    case Name(name, outside) => [Reference(name, outside, env, false)]
    case Parts(parts) => SitesAll(parts, env)
    case New(cls, arguments) => [Reference(cls, false, env, true)] + SitesAll(arguments, env)
    case Assertion(operand) => Unvisited(Sites(operand, env), env)
    case Arrow(params, lengths, value, body) =>
      SitesAll(lengths, env) + SitesAll(value, env + params) + BlockSites(body, env + params, 0)
  }

  function SitesAll(es: Exprs, env: Env): (sites: seq<Site>)
    ensures Inside(sites, env)
  {
    match es
    case NoExpr => []
    case Also(e, rest) => Sites(e, env) + SitesAll(rest, env)
  }

  function StmtSites(s: Stmt, env: Env): (sites: seq<Site>)
    ensures Inside(sites, env)
  {
    match s
    case Nothing => []
    case Declare(bind, lengths, value) => SitesAll(lengths, env) + Sites(value, if value.Arrow? then env + [bind] else env)
    case DeclareMany(_, value) => Sites(value, env)
    case AssignMany(targets, value) => SitesAll(targets, env) + Sites(value, env)
    case Evaluate(parts) => SitesAll(parts, env)
    case Block(body) => BlockSites(body, env, 0)
    case If(condition, then_, else_) => Sites(condition, env) + BlockSites(then_, env, 0) + StmtSites(else_, env)
    case While(condition, body) => Sites(condition, env) + BlockSites(body, env, 0)
    case For(init, condition, post, body) =>
      var inner := env + Declared(init);
      StmtSites(init, env) + Sites(condition, inner) + BlockSites(body, inner, 0) + StmtSites(post, inner)
    case Range(source, binds, body) => Sites(source, env) + BlockSites(body, env + Named(binds), 0)
    case Try(body, catches, finally_) => BlockSites(body, env, 0) + ClauseSites(catches, env) + BlockSites(finally_, env, 0)
    case Switch(subject, clauses) => SitesAll(subject, env) + ClauseSites(clauses, env)
    case Labeled(labeled) => Unvisited(StmtSites(labeled, env), env)
  }

  /** `grouped` statements from here on belong to an arrow group that is already bound. */
  function BlockSites(stmts: Stmts, env: Env, grouped: nat): (sites: seq<Site>)
    ensures Inside(sites, env)
  {
    match stmts
    case Done => []
    case Then(s, rest) =>
      var group := if grouped == 0 then ArrowGroup(stmts) else [];
      var left := if grouped == 0 then |group| else grouped;
      StmtSites(s, env + group) + BlockSites(rest, env + group + Declared(s), if left == 0 then 0 else left - 1)
  }

  function ClauseSites(cs: Clauses, env: Env): (sites: seq<Site>)
    ensures Inside(sites, env)
  {
    match cs
    case NoClause => []
    case Clause(parts, binds, body, rest) =>
      SitesAll(parts, env) + BlockSites(body, env + Named(binds), 0) + ClauseSites(rest, env)
  }

  /** A function with its declared types. */
  function CallableSites(params: seq<Bind>, lengths: Exprs, body: Stmts): seq<Site> {
    SitesAll(lengths, []) + BlockSites(body, params, 0)
  }
}
