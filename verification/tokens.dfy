/**
  The SwiftSyntax tokens the two declaration scanners tell apart. A source
  file reaches a scanner as the sequence of its tokens in source order (the
  syntax walk calls `visit` once per token); every token kind the scanners do
  not name is `Other`.
*/
module Tokens {

  datatype Token =
    | StructKeyword
    | ClassKeyword
    | EnumKeyword
    | ExtensionKeyword
    | ImportKeyword
    | ContextualKeyword(word: string)
    | Identifier(text: string)
    | Period
    | LeftBrace
    | Other

  /** The keywords after which a type declaration or extension names a type: `struct`, `class`, `enum`, `actor`, `extension`. */
  predicate IntroducesType(t: Token) {
    t.StructKeyword? || t.ClassKeyword? || t.EnumKeyword? || t == ContextualKeyword("actor") || t.ExtensionKeyword?
  }

  /** `kw Name: C1, C2, … { }` — a type introduced by `kw`, its conformance list, and an empty body. */
  function Declaration(kw: Token, name: string, conformances: seq<string>): seq<Token> {
    [kw, Identifier(name)] + ConformanceList(conformances) + [LeftBrace, Other]
  }

  /** `: C1, C2, …`: each conformance preceded by its punctuation token. */
  function ConformanceList(conformances: seq<string>): (ts: seq<Token>)
    ensures |ts| == 2 * |conformances|
    ensures forall k :: 0 <= k < |conformances| ==> ts[2 * k] == Other && ts[2 * k + 1] == Identifier(conformances[k])
    decreases |conformances|
  {
    if conformances == [] then []
    else
      var last := |conformances| - 1;
      ConformanceList(conformances[..last]) + [Other, Identifier(conformances[last])]
  }

  /** `A.B.C`: the parts of a dotted path, separated by periods. */
  function DottedPath(path: seq<string>): seq<Token>
    decreases |path|
  {
    if path == [] then []
    else if |path| == 1 then [Identifier(path[0])]
    else DottedPath(path[..|path| - 1]) + [Period, Identifier(path[|path| - 1])]
  }
}
