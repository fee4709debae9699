/** Emitted spelling of source identifiers. */
module GoNames {

  const KEYWORDS: set<string> := {
    "break", "case", "chan", "const", "continue", "default", "defer", "else", "fallthrough", "for", "func", "go", "goto",
    "if", "import", "interface", "map", "package", "range", "return", "select", "struct", "switch", "type", "var" }

  const CALLABLES: set<string> := {
    "append", "cap", "clear", "close", "complex", "copy", "delete", "imag", "len", "make", "max", "min", "new", "panic",
    "print", "println", "real", "recover" }

  predicate Reserved(name: string) {
    name in KEYWORDS || name in CALLABLES
  }

  function Identifier(name: string): string {
    if Reserved(name) then name + "_" else name
  }

  predicate EndsInUnderscore(name: string) {
    name != "" && name[|name| - 1] == '_'
  }

  /** A reserved name with the underscore that escapes it. */
  predicate Escaped(name: string) {
    EndsInUnderscore(name) && Reserved(name[..|name| - 1])
  }

  lemma ReservedEndInLetters(name: string)
    requires Reserved(name)
    ensures name != "" && !EndsInUnderscore(name)
  {
  }

  /** Identifier is not one-to-one: `len` and `len_` are both spelled `len_`, and these pairs are the
      only ones. No source name is spelled like a reserved one. */
  lemma Collisions(a: string, b: string)
    ensures !Reserved(Identifier(a))
    ensures Identifier(a) == Identifier(b) <==> a == b || (Reserved(a) && b == a + "_") || (Reserved(b) && a == b + "_")
  {
    if Reserved(a) {
      ReservedEndInLetters(a);
      assert (a + "_")[|a + "_"| - 1] == '_';
      if Reserved(a + "_") { ReservedEndInLetters(a + "_"); }
    }
    if Reserved(b) {
      ReservedEndInLetters(b);
      assert (b + "_")[|b + "_"| - 1] == '_';
      if Reserved(b + "_") { ReservedEndInLetters(b + "_"); }
    }
    if Reserved(a) && Reserved(b) && a + "_" == b + "_" {
      assert a == (a + "_")[..|a|] == (b + "_")[..|b|] == b;
    }
  }

  /** Only the name itself is spelled like a name that is neither reserved nor escaped. */
  lemma SpelledAs(name: string, spelling: string)
    requires Identifier(name) == spelling
    ensures !Reserved(spelling) && (name == spelling || Escaped(spelling))
  {
    Collisions(name, name);
    if Reserved(name) {
      assert spelling[..|spelling| - 1] == name && spelling[|spelling| - 1] == '_';
    }
  }
}
