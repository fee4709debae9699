/** Contract keys of instantiated types: written at compile time, or built at run time. */
module ContractKeys {
  import opened Completions

  /** A source type argument: a parameter, or a tag over parts; an empty tag means unknown. */
  datatype Contract = Parameter(name: string) | Node(tag: string, parts: Contracts)

  datatype Contracts = NoParts | Part(head: Contract, tail: Contracts)

  /** How a tag is quoted: json.Marshal when compiling, strconv.Quote in the emitted program. */
  type Quoting = string -> string

  // ----- keys -----

  /** nativeContractLiteral: no literal when a parameter comes before anything unknown. */
  function Literal(c: Contract, json: Quoting): Option<string> {
    match c
    case Parameter(_) => None
    case Node(tag, parts) => if tag == "" then Some("") else LiteralParts(parts, json, "[" + json(tag))
  }

  function LiteralParts(ps: Contracts, json: Quoting, key: string): Option<string> {
    match ps
    case NoParts => Some(key + "]")
    case Part(c, rest) =>
      var part := Literal(c, json);
      if part.None? then None
      else if part.value == "" then Some("")
      else LiteralParts(rest, json, key + "," + part.value)
  }

  function Joined(keys: seq<string>): string {
    if keys == [] then "" else Joined(keys[..|keys| - 1]) + "," + keys[|keys| - 1]
  }

  /** What __kinmokuseiSourceContract returns. */
  function RuntimeKey(tag: string, keys: seq<string>): string {
    if "" in keys then "" else "[" + tag + Joined(keys) + "]"
  }

  method SourceContract(tag: string, parts: seq<string>) returns (key: string)
    ensures key == RuntimeKey(tag, parts)
  {
    key := "[" + tag;
    for i := 0 to |parts|
      invariant "" !in parts[..i] && key == "[" + tag + Joined(parts[..i])
    {
      if parts[i] == "" { return ""; }
      assert parts[..i + 1][..i] == parts[..i];
      key := key + "," + parts[i];
    }
    assert parts[..|parts|] == parts;
    key := key + "]";
  }

  /** nativeContractExpression, evaluated where each parameter's variable holds a key. */
  function Eval(c: Contract, json: Quoting, quote: Quoting, env: map<string, string>): string {
    match c
    case Parameter(name) => if name in env then env[name] else ""
    case Node(tag, parts) =>
      var literal := Literal(c, json);
      if literal.Some? then literal.value else RuntimeKey(quote(tag), EvalParts(parts, json, quote, env))
  }

  function EvalParts(ps: Contracts, json: Quoting, quote: Quoting, env: map<string, string>): seq<string> {
    match ps
    case NoParts => []
    case Part(c, rest) => [Eval(c, json, quote, env)] + EvalParts(rest, json, quote, env)
  }

  /** A contract with what its parameters were instantiated by, which may have parameters in turn: the
      callers on the stack, each passing keys on to the next. */
  datatype Instantiation = Instantiation(contract: Contract, arguments: Bindings)

  datatype Bindings = Unbound | Bound(name: string, value: Instantiation, rest: Bindings)

  /** The key that the program builds, from the keys that were passed on. */
  function Key(i: Instantiation, json: Quoting, quote: Quoting): string {
    Eval(i.contract, json, quote, Keys(i.arguments, json, quote))
  }

  function Keys(bs: Bindings, json: Quoting, quote: Quoting): map<string, string> {
    if bs.Unbound? then map[] else Keys(bs.rest, json, quote)[bs.name := Key(bs.value, json, quote)]
  }

  // ----- the trees behind the keys -----

  predicate Closed(c: Contract) {
    c.Node? && ClosedAll(c.parts)
  }

  predicate ClosedAll(ps: Contracts) {
    ps.Part? ==> Closed(ps.head) && ClosedAll(ps.tail)
  }

  predicate Known(c: Contract) {
    c.Node? && c.tag != "" && KnownAll(c.parts)
  }

  predicate KnownAll(ps: Contracts) {
    ps.Part? ==> Known(ps.head) && KnownAll(ps.tail)
  }

  /** The parameter of a contract that is not instantiated is unknown. */
  function Actual(actual: map<string, Contract>, name: string): Contract {
    if name in actual then actual[name] else Node("", NoParts)
  }

  function Subst(c: Contract, actual: map<string, Contract>): Contract {
    match c
    case Parameter(name) => Actual(actual, name)
    case Node(tag, parts) => Node(tag, SubstAll(parts, actual))
  }

  function SubstAll(ps: Contracts, actual: map<string, Contract>): Contracts {
    match ps
    case NoParts => NoParts
    case Part(c, rest) => Part(Subst(c, actual), SubstAll(rest, actual))
  }

  /** The contract that an instantiation stands for. */
  function Tree(i: Instantiation): Contract {
    Subst(i.contract, Trees(i.arguments))
  }

  function Trees(bs: Bindings): map<string, Contract> {
    if bs.Unbound? then map[] else Trees(bs.rest)[bs.name := Tree(bs.value)]
  }

  /** Every node whose key is built at run time has a tag that both functions quote alike, and so have
      the arguments of the parameters that occur. */
  predicate Alike(c: Contract, json: Quoting, quote: Quoting, arguments: set<string>) {
    match c
    case Parameter(name) => name in arguments
    case Node(tag, parts) => Closed(c) || (json(tag) == quote(tag) && AlikeAll(parts, json, quote, arguments))
  }

  predicate AlikeAll(ps: Contracts, json: Quoting, quote: Quoting, arguments: set<string>) {
    ps.Part? ==> Alike(ps.head, json, quote, arguments) && AlikeAll(ps.tail, json, quote, arguments)
  }

  predicate AllAlike(i: Instantiation, json: Quoting, quote: Quoting) {
    Alike(i.contract, json, quote, AlikeNames(i.arguments, json, quote))
  }

  /** The parameters whose arguments are quoted alike. */
  function AlikeNames(bs: Bindings, json: Quoting, quote: Quoting): set<string> {
    if bs.Unbound? then {}
    else if AllAlike(bs.value, json, quote) then AlikeNames(bs.rest, json, quote) + {bs.name}
    else AlikeNames(bs.rest, json, quote) - {bs.name}
  }

  // ----- quoted text -----

  /** Index after the closing quote of a literal scanned from `i`, or 0. */
  function AfterQuote(s: string, i: nat): nat
    decreases |s| - i
  {
    if i >= |s| then 0
    else if s[i] == '"' then i + 1
    else if s[i] == '\\' then AfterQuote(s, i + 2)
    else AfterQuote(s, i + 1)
  }

  /** A quoted literal, and nothing else. */
  predicate IsQuoted(s: string) {
    |s| >= 2 && s[0] == '"' && AfterQuote(s, 1) == |s|
  }

  ghost predicate Quotes(q: Quoting) {
    forall tag :: IsQuoted(q(tag))
  }

  ghost predicate Distinct(q: Quoting) {
    forall a, b :: q(a) == q(b) ==> a == b
  }

  lemma {:induction false} ScanIgnoresRest(s: string, rest: string, i: nat)
    requires 0 < AfterQuote(s, i) <= |s|
    ensures AfterQuote(s + rest, i) == AfterQuote(s, i)
    decreases |s| - i
  {
    assert (s + rest)[i] == s[i];
    if s[i] != '"' { ScanIgnoresRest(s, rest, if s[i] == '\\' then i + 2 else i + 1); }
  }

  lemma QuotedPrefix(a: string, x: string, b: string, y: string)
    requires IsQuoted(a) && IsQuoted(b) && a + x == b + y
    ensures a == b && x == y
  {
    ScanIgnoresRest(a, x, 1);
    ScanIgnoresRest(b, y, 1);
    assert a == (a + x)[..|a|] && b == (b + y)[..|b|];
    assert x == (a + x)[|a|..] && y == (b + y)[|b|..];
  }

  // ----- keys as text of trees of quoted tags -----

  datatype Written = Written(tag: string, parts: Texts)
  datatype Texts = NoText | More(head: Written, tail: Texts)

  predicate Quoted(t: Written) {
    IsQuoted(t.tag) && QuotedAll(t.parts)
  }

  predicate QuotedAll(ts: Texts) {
    ts.More? ==> Quoted(ts.head) && QuotedAll(ts.tail)
  }

  function Write(t: Written): string {
    "[" + t.tag + WriteAll(t.parts) + "]"
  }

  function WriteAll(ts: Texts): string {
    if ts.NoText? then "" else "," + Write(ts.head) + WriteAll(ts.tail)
  }

  /** A key can be read back: no key is a proper prefix of another. */
  lemma {:induction false} WriteDistinct(a: Written, x: string, b: Written, y: string)
    requires Quoted(a) && Quoted(b) && Write(a) + x == Write(b) + y
    ensures a == b && x == y
    decreases a
  {
    var restA, restB := WriteAll(a.parts) + "]" + x, WriteAll(b.parts) + "]" + y;
    assert Write(a) + x == "[" + (a.tag + restA) && Write(b) + y == "[" + (b.tag + restB);
    assert a.tag + restA == (Write(a) + x)[1..] && b.tag + restB == (Write(b) + y)[1..];
    QuotedPrefix(a.tag, restA, b.tag, restB);
    WriteAllDistinct(a.parts, x, b.parts, y);
  }

  lemma {:induction false} WriteAllDistinct(a: Texts, x: string, b: Texts, y: string)
    requires QuotedAll(a) && QuotedAll(b) && WriteAll(a) + "]" + x == WriteAll(b) + "]" + y
    ensures a == b && x == y
    decreases a
  {
    var left, right := WriteAll(a) + "]" + x, WriteAll(b) + "]" + y;
    assert a.NoText? ==> left[0] == ']' && left[1..] == x;
    assert b.NoText? ==> right[0] == ']' && right[1..] == y;
    assert a.More? ==> left[0] == ',';
    assert b.More? ==> right[0] == ',';
    if a.More? {
      var restA, restB := WriteAll(a.tail) + "]" + x, WriteAll(b.tail) + "]" + y;
      assert left == "," + (Write(a.head) + restA) && right == "," + (Write(b.head) + restB);
      assert left[1..] == Write(a.head) + restA && right[1..] == Write(b.head) + restB;
      WriteDistinct(a.head, restA, b.head, restB);
      WriteAllDistinct(a.tail, x, b.tail, y);
    }
  }

  // ----- keys written at compile time -----

  function TextOf(c: Contract, json: Quoting): Written {
    match c
    case Parameter(_) => Written("", NoText)
    case Node(tag, parts) => Written(json(tag), TextAll(parts, json))
  }

  function TextAll(ps: Contracts, json: Quoting): Texts {
    match ps
    case NoParts => NoText
    case Part(c, rest) => More(TextOf(c, json), TextAll(rest, json))
  }

  /** A closed contract has a literal key, which is the text of its tree, or empty if a part is
      unknown; anything else with a literal key is unknown. */
  lemma {:induction false} LiteralMeans(c: Contract, json: Quoting)
    ensures Known(c) ==> Closed(c) && Literal(c, json) == Some(Write(TextOf(c, json)))
    ensures Closed(c) ==> Literal(c, json).Some?
    ensures Literal(c, json).Some? && !Known(c) ==> Literal(c, json) == Some("")
  {
    if c.Node? { LiteralPartsMean(c.parts, json, "[" + json(c.tag)); }
  }

  lemma {:induction false} LiteralPartsMean(ps: Contracts, json: Quoting, key: string)
    requires key != ""
    ensures KnownAll(ps) ==> ClosedAll(ps) && LiteralParts(ps, json, key) == Some(key + WriteAll(TextAll(ps, json)) + "]")
    ensures ClosedAll(ps) ==> LiteralParts(ps, json, key).Some?
    ensures LiteralParts(ps, json, key).Some? && !KnownAll(ps) ==> LiteralParts(ps, json, key) == Some("")
  {
    if ps.Part? {
      LiteralMeans(ps.head, json);
      if KnownAll(ps) {
        var part, rest := Write(TextOf(ps.head, json)), WriteAll(TextAll(ps.tail, json));
        assert part[0] == '[';
        LiteralPartsMean(ps.tail, json, key + "," + part);
        assert key + "," + part + rest + "]" == key + ("," + part + rest) + "]";
      } else if Literal(ps.head, json).Some? && Literal(ps.head, json).value != "" {
        LiteralPartsMean(ps.tail, json, key + "," + Literal(ps.head, json).value);
      }
      if ClosedAll(ps.tail) { LiteralPartsMean(ps.tail, json, "x"); }
    } else {
      assert key + "" == key;
    }
  }

  lemma {:induction false} TextDetermines(a: Contract, b: Contract, json: Quoting)
    requires Known(a) && Known(b) && Quotes(json)
    ensures Quoted(TextOf(a, json))
    ensures Distinct(json) && TextOf(a, json) == TextOf(b, json) ==> a == b
  {
    TextsDetermine(a.parts, b.parts, json);
  }

  lemma {:induction false} TextsDetermine(a: Contracts, b: Contracts, json: Quoting)
    requires KnownAll(a) && KnownAll(b) && Quotes(json)
    ensures QuotedAll(TextAll(a, json))
    ensures Distinct(json) && TextAll(a, json) == TextAll(b, json) ==> a == b
  {
    if a.Part? && b.Part? {
      TextDetermines(a.head, b.head, json);
      TextsDetermine(a.tail, b.tail, json);
    } else if a.Part? {
      TextDetermines(a.head, a.head, json);
      TextsDetermine(a.tail, a.tail, json);
    }
  }

  /** Two known keys are equal exactly when the contract trees are. */
  lemma KnownKeysAreFaithful(a: Contract, b: Contract, json: Quoting)
    requires Known(a) && Known(b) && Quotes(json) && Distinct(json)
    ensures Literal(a, json).Some? && Literal(b, json).Some?
    ensures Literal(a, json) == Literal(b, json) <==> a == b
  {
    LiteralMeans(a, json);
    LiteralMeans(b, json);
    TextDetermines(a, b, json);
    TextDetermines(b, a, json);
    if Literal(a, json) == Literal(b, json) {
      assert Write(TextOf(a, json)) + "" == Write(TextOf(b, json)) + "";
      WriteDistinct(TextOf(a, json), "", TextOf(b, json), "");
    }
  }

  // ----- keys built at run time -----

  lemma {:induction false} JoinedFirst(k: string, ks: seq<string>)
    ensures Joined([k] + ks) == "," + k + Joined(ks)
  {
    var all := [k] + ks;
    if ks == [] {
      assert all[..0] == [];
      assert "" + "," + k == "," + k;
    } else {
      assert all[..|all| - 1] == [k] + ks[..|ks| - 1];
      JoinedFirst(k, ks[..|ks| - 1]);
    }
  }

  /** The text of a key built at run time, given the texts of the keys passed on. */
  function RunText(c: Contract, json: Quoting, quote: Quoting, texts: map<string, Written>): Written {
    match c
    case Parameter(name) => if name in texts then texts[name] else Written("", NoText)
    case Node(tag, parts) => if Closed(c) then TextOf(c, json) else Written(quote(tag), RunTexts(parts, json, quote, texts))
  }

  function RunTexts(ps: Contracts, json: Quoting, quote: Quoting, texts: map<string, Written>): Texts {
    match ps
    case NoParts => NoText
    case Part(c, rest) => More(RunText(c, json, quote, texts), RunTexts(rest, json, quote, texts))
  }

  function KeyText(i: Instantiation, json: Quoting, quote: Quoting): Written {
    RunText(i.contract, json, quote, KeyTexts(i.arguments, json, quote))
  }

  function KeyTexts(bs: Bindings, json: Quoting, quote: Quoting): map<string, Written> {
    if bs.Unbound? then map[] else KeyTexts(bs.rest, json, quote)[bs.name := KeyText(bs.value, json, quote)]
  }

  /** A key is the text of a contract, or empty if that is unknown. */
  predicate KeyOf(key: string, text: Written, c: Contract) {
    Closed(c) && key == (if Known(c) then Write(text) else "") && (Known(c) ==> Quoted(text))
  }

  /** Each parameter holds a key of the contract it stands for. */
  ghost predicate Holds(env: map<string, string>, texts: map<string, Written>, actual: map<string, Contract>) {
    forall name :: (name in env <==> name in actual) && (name in texts <==> name in actual)
      && (name in actual ==> KeyOf(env[name], texts[name], actual[name]))
  }

  lemma {:induction false} ClosedSubst(c: Contract, actual: map<string, Contract>)
    requires Closed(c)
    ensures Subst(c, actual) == c
  {
    ClosedSubstAll(c.parts, actual);
  }

  lemma {:induction false} ClosedSubstAll(ps: Contracts, actual: map<string, Contract>)
    requires ClosedAll(ps)
    ensures SubstAll(ps, actual) == ps
  {
    if ps.Part? { ClosedSubst(ps.head, actual); ClosedSubstAll(ps.tail, actual); }
  }

  lemma {:induction false} SubstCloses(c: Contract, env: map<string, string>, texts: map<string, Written>, actual: map<string, Contract>)
    requires Holds(env, texts, actual)
    ensures Closed(Subst(c, actual))
  {
    if c.Node? { SubstClosesAll(c.parts, env, texts, actual); }
  }

  lemma {:induction false} SubstClosesAll(ps: Contracts, env: map<string, string>, texts: map<string, Written>, actual: map<string, Contract>)
    requires Holds(env, texts, actual)
    ensures ClosedAll(SubstAll(ps, actual))
  {
    if ps.Part? { SubstCloses(ps.head, env, texts, actual); SubstClosesAll(ps.tail, env, texts, actual); }
  }

  /** An unknown part makes the whole key unknown; otherwise the key is the text built at run time. */
  lemma {:induction false} EvalMeans(c: Contract, json: Quoting, quote: Quoting, env: map<string, string>, texts: map<string, Written>, actual: map<string, Contract>)
    requires Holds(env, texts, actual)
    ensures Eval(c, json, quote, env) == if Known(Subst(c, actual)) then Write(RunText(c, json, quote, texts)) else ""
  {
    if c.Node? {
      LiteralMeans(c, json);
      if Closed(c) { ClosedSubst(c, actual); }
      if Literal(c, json).Some? {
        if !Closed(c) { UnknownStays(c, json, actual); }
      } else {
        EvalPartsMean(c.parts, json, quote, env, texts, actual);
      }
    }
  }

  lemma {:induction false} EvalPartsMean(ps: Contracts, json: Quoting, quote: Quoting, env: map<string, string>, texts: map<string, Written>, actual: map<string, Contract>)
    requires Holds(env, texts, actual)
    ensures var keys := EvalParts(ps, json, quote, env);
            && ("" in keys <==> !KnownAll(SubstAll(ps, actual)))
            && (KnownAll(SubstAll(ps, actual)) ==> Joined(keys) == WriteAll(RunTexts(ps, json, quote, texts)))
  {
    if ps.Part? {
      EvalMeans(ps.head, json, quote, env, texts, actual);
      EvalPartsMean(ps.tail, json, quote, env, texts, actual);
      JoinedFirst(Eval(ps.head, json, quote, env), EvalParts(ps.tail, json, quote, env));
    }
  }

  /** A contract with a literal key that is not closed has something unknown in it, whatever its
      parameters stand for. */
  lemma {:induction false} UnknownStays(c: Contract, json: Quoting, actual: map<string, Contract>)
    requires Literal(c, json) == Some("")
    ensures !Known(Subst(c, actual))
  {
    if c.tag != "" { UnknownStaysAll(c.parts, json, "[" + json(c.tag), actual); }
  }

  lemma {:induction false} UnknownStaysAll(ps: Contracts, json: Quoting, key: string, actual: map<string, Contract>)
    requires LiteralParts(ps, json, key) == Some("") && key != ""
    ensures !KnownAll(SubstAll(ps, actual))
  {
    if ps.Part? {
      if Literal(ps.head, json) == Some("") { UnknownStays(ps.head, json, actual); }
      else { UnknownStaysAll(ps.tail, json, key + "," + Literal(ps.head, json).value, actual); }
    }
  }

  /** The texts passed on are those of the compile-time keys exactly for these parameters. */
  ghost predicate AgreeOn(texts: map<string, Written>, actual: map<string, Contract>, json: Quoting, names: set<string>) {
    forall name :: name in actual && name in texts && Known(actual[name]) ==> (texts[name] == TextOf(actual[name], json) <==> name in names)
  }

  lemma {:induction false} RunTextMatches(c: Contract, json: Quoting, quote: Quoting, env: map<string, string>, texts: map<string, Written>,
                                          actual: map<string, Contract>, names: set<string>)
    requires Known(Subst(c, actual)) && Quotes(json) && Quotes(quote) && Holds(env, texts, actual) && AgreeOn(texts, actual, json, names)
    ensures Quoted(RunText(c, json, quote, texts)) && Quoted(TextOf(Subst(c, actual), json))
    ensures RunText(c, json, quote, texts) == TextOf(Subst(c, actual), json) <==> Alike(c, json, quote, names)
  {
    TextDetermines(Subst(c, actual), Subst(c, actual), json);
    if c.Node? {
      if Closed(c) { ClosedSubst(c, actual); } else { RunTextsMatch(c.parts, json, quote, env, texts, actual, names); }
    }
  }

  lemma {:induction false} RunTextsMatch(ps: Contracts, json: Quoting, quote: Quoting, env: map<string, string>, texts: map<string, Written>,
                                         actual: map<string, Contract>, names: set<string>)
    requires KnownAll(SubstAll(ps, actual)) && Quotes(json) && Quotes(quote) && Holds(env, texts, actual) && AgreeOn(texts, actual, json, names)
    ensures QuotedAll(RunTexts(ps, json, quote, texts)) && QuotedAll(TextAll(SubstAll(ps, actual), json))
    ensures RunTexts(ps, json, quote, texts) == TextAll(SubstAll(ps, actual), json) <==> AlikeAll(ps, json, quote, names)
  {
    if ps.Part? {
      RunTextMatches(ps.head, json, quote, env, texts, actual, names);
      RunTextsMatch(ps.tail, json, quote, env, texts, actual, names);
    }
  }

  /** However deep keys are passed on, a key is the text built of the contract it stands for, or empty if
      that is unknown; the text is the compile-time one exactly if all tags are quoted alike. */
  lemma {:induction false} KeyMeans(i: Instantiation, json: Quoting, quote: Quoting)
    requires Quotes(json) && Quotes(quote)
    ensures KeyOf(Key(i, json, quote), KeyText(i, json, quote), Tree(i))
    ensures Known(Tree(i)) ==> (KeyText(i, json, quote) == TextOf(Tree(i), json) <==> AllAlike(i, json, quote))
    decreases i
  {
    var env, texts, actual := Keys(i.arguments, json, quote), KeyTexts(i.arguments, json, quote), Trees(i.arguments);
    var names := AlikeNames(i.arguments, json, quote);
    KeysMean(i.arguments, json, quote);
    SubstCloses(i.contract, env, texts, actual);
    EvalMeans(i.contract, json, quote, env, texts, actual);
    if Known(Tree(i)) { RunTextMatches(i.contract, json, quote, env, texts, actual, names); }
  }

  lemma {:induction false} KeysMean(bs: Bindings, json: Quoting, quote: Quoting)
    requires Quotes(json) && Quotes(quote)
    ensures Holds(Keys(bs, json, quote), KeyTexts(bs, json, quote), Trees(bs))
    ensures AgreeOn(KeyTexts(bs, json, quote), Trees(bs), json, AlikeNames(bs, json, quote))
    decreases bs
  {
    if bs.Bound? {
      KeyMeans(bs.value, json, quote);
      KeysMean(bs.rest, json, quote);
    }
  }

  /** The key that the program builds, from keys that were written or built by its callers, is the
      compile-time key of the instantiated contract exactly when that contract is unknown, or every tag
      quoted at run time, here or in a caller, is quoted alike at compile time. */
  lemma KeysAgree(i: Instantiation, json: Quoting, quote: Quoting)
    requires Quotes(json) && Quotes(quote)
    ensures var whole := Tree(i);
            Literal(whole, json).Some? && (Literal(whole, json) == Some("") <==> !Known(whole))
            && (Key(i, json, quote) == Literal(whole, json).value <==> !Known(whole) || AllAlike(i, json, quote))
  {
    var whole := Tree(i);
    KeyMeans(i, json, quote);
    LiteralMeans(whole, json);
    if Known(whole) {
      TextDetermines(whole, whole, json);
      var built, written := KeyText(i, json, quote), TextOf(whole, json);
      if Write(built) == Write(written) {
        assert Write(built) + "" == Write(written) + "";
        WriteDistinct(built, "", written, "");
      }
    }
  }

  /** `tag` over a parameter that is instantiated by a plain type. */
  function Applied(tag: string, name: string): Instantiation {
    Instantiation(Node(tag, Part(Parameter(name), NoParts)), Bound(name, Instantiation(Node("int", NoParts), Unbound), Unbound))
  }

  lemma AppliedIsKnown(tag: string, name: string)
    requires tag != ""
    ensures Known(Tree(Applied(tag, name))) && !Closed(Applied(tag, name).contract)
  {
    var trees := Trees(Applied(tag, name).arguments);
    assert Trees(Unbound) == map[] && KnownAll(NoParts) && SubstAll(NoParts, map[]) == NoParts;
    assert Tree(Instantiation(Node("int", NoParts), Unbound)) == Node("int", NoParts);
    assert trees[name] == Node("int", NoParts);
    assert !ClosedAll(Part(Parameter(name), NoParts));
    assert SubstAll(NoParts, trees) == NoParts;
    assert SubstAll(Part(Parameter(name), NoParts), trees) == Part(Node("int", NoParts), NoParts);
  }

  /** A key that its caller built of a tag quoted differently stays different when it is passed on. */
  lemma PassedKeysDiffer(name: string, tag: string, json: Quoting, quote: Quoting)
    requires Quotes(json) && Quotes(quote) && tag != "" && json(tag) != quote(tag)
    ensures var passed := Instantiation(Parameter(name), Bound(name, Applied(tag, name), Unbound));
            Some(Key(passed, json, quote)) != Literal(Tree(passed), json)
  {
    var passed := Instantiation(Parameter(name), Bound(name, Applied(tag, name), Unbound));
    AppliedIsKnown(tag, name);
    assert Tree(passed) == Tree(Applied(tag, name));
    assert !AllAlike(Applied(tag, name), json, quote);
    KeysAgree(passed, json, quote);
  }

  // ----- the downcast guard -----

  /** __kinmokuseiKnownContracts. */
  method KnownContracts(values: seq<string>) returns (known: bool)
    ensures known <==> "" !in values
  {
    for i := 0 to |values|
      invariant "" !in values[..i]
    {
      if values[i] == "" { return false; }
      assert values[..i + 1] == values[..i] + [values[i]];
    }
    assert values[..|values|] == values;
    return true;
  }

  /** The guard of a checked downcast: no contracts are asked for, or those asked for are known and
      are the actual ones. */
  method Guard(contracts: Option<seq<string>>, actual: seq<string>) returns (accepted: bool)
    ensures accepted <==> contracts.None? || ("" !in contracts.value && contracts.value == actual)
  {
    if contracts.Some? {
      var known := KnownContracts(contracts.value);
      if !known || actual != contracts.value { return false; }
    }
    return true;
  }

  function KeysOf(cs: seq<Contract>, json: Quoting): seq<string>
    requires forall i :: 0 <= i < |cs| ==> Closed(cs[i])
  {
    seq(|cs|, i requires 0 <= i < |cs| => var k := Literal(cs[i], json); if k.Some? then k.value else "")
  }

  /** On the keys of type arguments, the guard accepts exactly equal known arguments. */
  lemma GuardAcceptsEqualKnown(wanted: seq<Contract>, actual: seq<Contract>, json: Quoting)
    requires |wanted| == |actual| && Quotes(json) && Distinct(json)
    requires forall i :: 0 <= i < |wanted| ==> Closed(wanted[i]) && Closed(actual[i])
    ensures "" !in KeysOf(wanted, json) && KeysOf(wanted, json) == KeysOf(actual, json)
            <==> wanted == actual && forall i :: 0 <= i < |wanted| ==> Known(wanted[i])
  {
    forall i | 0 <= i < |wanted|
      ensures KeysOf(wanted, json)[i] != "" <==> Known(wanted[i])
      ensures Known(wanted[i]) ==> (KeysOf(wanted, json)[i] == KeysOf(actual, json)[i] <==> wanted[i] == actual[i])
    {
      LiteralMeans(wanted[i], json);
      LiteralMeans(actual[i], json);
      if Known(wanted[i]) && Known(actual[i]) { KnownKeysAreFaithful(wanted[i], actual[i], json); }
    }
    var a, b := KeysOf(wanted, json), KeysOf(actual, json);
    if "" !in a && a == b {
      forall i | 0 <= i < |wanted| ensures wanted[i] == actual[i] && Known(wanted[i]) { assert a[i] in a; }
    }
  }
}
