/** The linker's walk: names are rewritten, bindings are not. It has no case for type assertions and
    labelled statements, so it leaves all below them as it is. */
module SourceLinker {
  import opened GoNames
  import opened LinkSyntax

  type Names = map<string, string>

  /** A missing key reads as the empty string. */
  function Get(names: Names, key: string): string {
    if key in names then names[key] else ""
  }

  const GO: string := "\0go:"
  const TYPE_PARAMETER: string := "\0type-parameter"

  function EmittedKey(name: string): string {
    GO + Identifier(name)
  }

  datatype Link<T> = Link(node: T, captures: nat)

  function BindLocal(locals: Names, name: string): Names {
    locals[name := name][EmittedKey(name) := name]
  }

  function BindAll(locals: Names, binds: seq<Bind>): Names
    decreases |binds|
  {
    if binds == [] then locals else BindAll(BindLocal(locals, binds[0].name), binds[1..])
  }

  function BindType(visible: Names, name: string): Names {
    visible[name := TYPE_PARAMETER][EmittedKey(name) := TYPE_PARAMETER]
  }

  function BindTypes(visible: Names, types: seq<Identified>): Names
    decreases |types|
  {
    if types == [] then visible else BindTypes(BindType(visible, types[0]), types[1..])
  }

  /** sourceLinker.name. */
  function LinkName(name: string, visible: Names): (l: Link<Expr>)
    ensures l.node.Name?
  {
    if name !in visible then Link(Name(name, false), 0)
    else if visible[name] == TYPE_PARAMETER then Link(Name(name, false), 0)
    else if visible[name] == "" then Link(Name(name, true), 0)
    else Link(Name(visible[name], false), if Get(visible, EmittedKey(visible[name])) == TYPE_PARAMETER then 1 else 0)
  }

  /** sourceLinker.referenceName. */
  function LinkReference(name: string, visible: Names, locals: Names): (l: Link<Expr>)
    ensures l.node.Name?
  {
    if Get(locals, name) == "" then
      var linked := LinkName(name, visible);
      if Get(visible, name) != "" && Get(locals, EmittedKey(linked.node.name)) != "" then linked.(captures := linked.captures + 1)
      else linked
    else
      var winner := Get(locals, EmittedKey(name));
      Link(Name(name, false), if winner != "" && winner != name then 1 else 0)
  }

  function LinkExpr(e: Expr, visible: Names, locals: Names): Link<Expr> {
    match e
    case Name(name, _) => LinkReference(name, visible, locals)
    case Parts(parts) => var l := LinkAll(parts, visible, locals); Link(Parts(l.node), l.captures)
    case New(cls, arguments) =>
      var n, l := LinkName(cls, visible), LinkAll(arguments, visible, locals);
      Link(New(n.node.name, l.node), n.captures + l.captures)
    case Assertion(_) => Link(e, 0)
    case Arrow(params, lengths, value, body) =>
      var inner := BindAll(locals, params);
      var t, v, b := LinkAll(lengths, visible, locals), LinkAll(value, visible, inner), LinkBlock(body, visible, inner, 0);
      Link(Arrow(params, t.node, v.node, b.node), t.captures + v.captures + b.captures)
  }

  function LinkAll(es: Exprs, visible: Names, locals: Names): Link<Exprs> {
    match es
    case NoExpr => Link(NoExpr, 0)
    case Also(e, rest) =>
      var h, t := LinkExpr(e, visible, locals), LinkAll(rest, visible, locals);
      Link(Also(h.node, t.node), h.captures + t.captures)
  }

  function LinkStmt(s: Stmt, visible: Names, locals: Names): Link<Stmt> {
    match s
    case Nothing => Link(Nothing, 0)
    case Declare(bind, lengths, value) =>
      var t := LinkAll(lengths, visible, locals);
      var l := LinkExpr(value, visible, if value.Arrow? then BindLocal(locals, bind.name) else locals);
      Link(Declare(bind, t.node, l.node), t.captures + l.captures)
    case DeclareMany(binds, value) => var l := LinkExpr(value, visible, locals); Link(DeclareMany(binds, l.node), l.captures)
    case AssignMany(targets, value) =>
      var t, v := LinkAll(targets, visible, locals), LinkExpr(value, visible, locals);
      Link(AssignMany(t.node, v.node), t.captures + v.captures)
    case Evaluate(parts) => var l := LinkAll(parts, visible, locals); Link(Evaluate(l.node), l.captures)
    case Block(body) => var l := LinkBlock(body, visible, locals, 0); Link(Block(l.node), l.captures)
    case If(condition, then_, else_) =>
      var c, t, e := LinkExpr(condition, visible, locals), LinkBlock(then_, visible, locals, 0), LinkStmt(else_, visible, locals);
      Link(If(c.node, t.node, e.node), c.captures + t.captures + e.captures)
    case While(condition, body) =>
      var c, b := LinkExpr(condition, visible, locals), LinkBlock(body, visible, locals, 0);
      Link(While(c.node, b.node), c.captures + b.captures)
    case For(init, condition, post, body) =>
      var i := LinkStmt(init, visible, locals);
      var inner := BindAll(locals, Declared(init));
      var c, b, p := LinkExpr(condition, visible, inner), LinkBlock(body, visible, inner, 0), LinkStmt(post, visible, inner);
      Link(For(i.node, c.node, p.node, b.node), i.captures + c.captures + b.captures + p.captures)
    case Range(source, binds, body) =>
      var c, b := LinkExpr(source, visible, locals), LinkBlock(body, visible, BindAll(locals, Named(binds)), 0);
      Link(Range(c.node, binds, b.node), c.captures + b.captures)
    case Try(body, catches, finally_) =>
      var b, c, f := LinkBlock(body, visible, locals, 0), LinkClauses(catches, visible, locals), LinkBlock(finally_, visible, locals, 0);
      Link(Try(b.node, c.node, f.node), b.captures + c.captures + f.captures)
    case Switch(subject, clauses) =>
      var v, c := LinkAll(subject, visible, locals), LinkClauses(clauses, visible, locals);
      Link(Switch(v.node, c.node), v.captures + c.captures)
    case Labeled(_) => Link(s, 0)
  }

  function LinkBlock(stmts: Stmts, visible: Names, locals: Names, grouped: nat): Link<Stmts> {
    match stmts
    case Done => Link(Done, 0)
    case Then(s, rest) =>
      var group := if grouped == 0 then ArrowGroup(stmts) else [];
      var left := if grouped == 0 then |group| else grouped;
      var inner := BindAll(locals, group);
      var h := LinkStmt(s, visible, inner);
      var t := LinkBlock(rest, visible, BindAll(inner, Declared(s)), if left == 0 then 0 else left - 1);
      Link(Then(h.node, t.node), h.captures + t.captures)
  }

  function LinkClauses(cs: Clauses, visible: Names, locals: Names): Link<Clauses> {
    match cs
    case NoClause => Link(NoClause, 0)
    case Clause(parts, binds, body, rest) =>
      var p, b, r := LinkAll(parts, visible, locals), LinkBlock(body, visible, BindAll(locals, Named(binds)), 0), LinkClauses(rest, visible, locals);
      Link(Clause(p.node, binds, b.node, r.node), p.captures + b.captures + r.captures)
  }

  function LinkField(f: Field, visible: Names, owner: Names): Link<Field> {
    var l := LinkExpr(f.value, if f.ownerTypes then owner else visible, map[]);
    Link(Field(f.ownerTypes, l.node), l.captures)
  }

  /** A function's declared types see no local binding, its body the parameters. */
  function LinkCallable(params: seq<Bind>, lengths: Exprs, body: Stmts, visible: Names): Link<(Exprs, Stmts)> {
    var t, b := LinkAll(lengths, visible, map[]), LinkBlock(body, visible, BindAll(map[], params), 0);
    Link((t.node, b.node), t.captures + b.captures)
  }

  function LinkMember(m: Member, visible: Names, owner: Names): Link<Member> {
    var l := LinkCallable(m.params, m.lengths, m.body, BindTypes(if m.ownerTypes then owner else visible, m.types));
    Link(Member(m.ownerTypes, m.types, m.params, l.node.0, l.node.1), l.captures)
  }

  function LinkFields(fs: seq<Field>, visible: Names, owner: Names): Link<seq<Field>> {
    if fs == [] then Link([], 0) else
    var h, t := LinkField(fs[0], visible, owner), LinkFields(fs[1..], visible, owner);
    Link([h.node] + t.node, h.captures + t.captures)
  }

  function LinkMembers(ms: seq<Member>, visible: Names, owner: Names): Link<seq<Member>> {
    if ms == [] then Link([], 0) else
    var h, t := LinkMember(ms[0], visible, owner), LinkMembers(ms[1..], visible, owner);
    Link([h.node] + t.node, h.captures + t.captures)
  }

  /** sourceLinker.linkDeclaration, over a module's visible names. */
  function LinkDeclaration(d: Declaration, visible: Names): Link<Declaration> {
    match d
    case Callable(types, params, lengths, body) =>
      var l := LinkCallable(params, lengths, body, BindTypes(visible, types));
      Link(Callable(types, params, l.node.0, l.node.1), l.captures)
    case Value(value) => var l := LinkExpr(value, visible, map[]); Link(Value(l.node), l.captures)
    case Owner(types, fields, members) =>
      var owner := BindTypes(visible, types);
      var f, m := LinkFields(fields, visible, owner), LinkMembers(members, visible, owner);
      Link(Owner(types, f.node, m.node), f.captures + m.captures)
  }
}
