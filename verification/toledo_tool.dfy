/**
  The declaration scanner and extension builder of the Toledo code
  generator. The scanner walks the tokens of one Swift source file, records
  every type declared (or extended) with one of the three dependency markers
  among its conformances, and forwards the file's imports; the builder turns
  what was found into a provider key and a container accessor per type.
*/
module ToledoTool {
  import opened Basics
  import opened Tokens

  /** `DependencyIdentifier`: the three markers, by raw value. */
  datatype DependencyIdentifier = AsyncThrowingDependency | ThrowingDependency | Dependency
  {
    function RawValue(): string {
      match this
      case AsyncThrowingDependency => "AsyncThrowingDependency"
      case ThrowingDependency => "ThrowingDependency"
      case Dependency => "Dependency"
    }

    /** The effects of the generated accessor. */
    function Signature(): string {
      match this
      case AsyncThrowingDependency => "async throws"
      case ThrowingDependency => "throws"
      case Dependency => ""
    }

    /** The keywords in front of the generated accessor's call to `getValue`. */
    function Prefix(): string {
      match this
      case AsyncThrowingDependency => "try await"
      case ThrowingDependency => "try"
      case Dependency => ""
    }
  }

  /** `DependencyIdentifier(rawValue:)`: the inverse of `RawValue`, and nothing else parses. */
  function ParseIdentifier(raw: string): (r: Option<DependencyIdentifier>)
    ensures forall d: DependencyIdentifier :: r == Some(d) <==> d.RawValue() == raw
  {
    if raw == "AsyncThrowingDependency" then Some(AsyncThrowingDependency)
    else if raw == "ThrowingDependency" then Some(ThrowingDependency)
    else if raw == "Dependency" then Some(Dependency)
    else None
  }

  /** The accessor of each marker may suspend exactly when its call awaits, and throw exactly when its call tries. */
  lemma SignatureMatchesPrefix(d: DependencyIdentifier)
    ensures d.Signature() == "async throws" <==> d.Prefix() == "try await"
    ensures d.Signature() == "throws" <==> d.Prefix() == "try"
    ensures d.Signature() == "" <==> d.Prefix() == ""
  {
  }

  datatype DependencyDefinition = DependencyDefinition(name: string, identifier: DependencyIdentifier)

  /** What the scanner collects from one file. */
  datatype DependencyData = DependencyData(definitions: seq<DependencyDefinition>, imports: seq<string>)

  /** `definitions.map(\.name)`. */
  function Names(defs: seq<DependencyDefinition>): (r: seq<string>)
    ensures |r| == |defs| && forall i :: 0 <= i < |defs| ==> r[i] == defs[i].name
  {
    seq(|defs|, i requires 0 <= i < |defs| => defs[i].name)
  }

  predicate Distinct(names: seq<string>) {
    forall i, j :: 0 <= i < j < |names| ==> names[i] != names[j]
  }

  /** `joined(separator:)`. */
  function Join(parts: seq<string>, separator: string): string
    decreases |parts|
  {
    if parts == [] then ""
    else if |parts| == 1 then parts[0]
    else Join(parts[..|parts| - 1], separator) + separator + parts[|parts| - 1]
  }

  // ---------------------------------------------------------------------
  // nextFullyQualifiedIdentifier

  /** Whether `nextFullyQualifiedIdentifier` steps over `t`: an identifier other than `final`, or a period. */
  predicate ContinuesName(t: Token) {
    (t.Identifier? && t.text != "final") || t.Period?
  }

  /** The end of the maximal run of name-continuing tokens that starts at `j`. */
  function NameRunEnd(tokens: seq<Token>, j: nat): (e: nat)
    requires j <= |tokens|
    ensures j <= e <= |tokens|
    ensures forall k :: j <= k < e ==> ContinuesName(tokens[k])
    ensures e == |tokens| || !ContinuesName(tokens[e])
    decreases |tokens| - j
  {
    if j == |tokens| || !ContinuesName(tokens[j]) then j else NameRunEnd(tokens, j + 1)
  }

  /** The texts of the identifiers among `ts`, in order. */
  function IdentifierTexts(ts: seq<Token>): seq<string>
    decreases |ts|
  {
    if ts == [] then []
    else
      var last := ts[|ts| - 1];
      IdentifierTexts(ts[..|ts| - 1]) + if last.Identifier? then [last.text] else []
  }

  function OptionList(o: Option<string>): seq<string> {
    if o.Some? then [o.value] else []
  }

  /** What `nextFullyQualifiedIdentifier` returns for the token at `i`: `initial`, then the identifiers of the dotted run that follows. */
  function QualifiedName(tokens: seq<Token>, i: nat, initial: Option<string>): seq<string>
    requires i < |tokens|
  {
    OptionList(initial) + IdentifierTexts(tokens[i + 1 .. NameRunEnd(tokens, i + 1)])
  }

  // ---------------------------------------------------------------------
  // DefinitionsLookup.visit

  /** The scanner's state: `_isScanning`, `_lastName` and `data`. */
  datatype Lookup = Lookup(isScanning: bool, lastName: Option<string>, data: DependencyData)

  function InitialLookup(): Lookup {
    Lookup(false, None, DependencyData([], []))
  }

  /** `visit` of the token at `i`: what it does to the scanner's state. */
  function VisitStep(st: Lookup, tokens: seq<Token>, i: nat): Lookup
    requires i < |tokens|
  {
    var t := tokens[i];
    if IntroducesType(t) then st.(isScanning := true)
    else if t.ImportKeyword? then
      st.(data := st.data.(imports := st.data.imports + [Join(QualifiedName(tokens, i, None), ".")]))
    else if t.Identifier? then
      if !st.isScanning then st
      else
        var name := if st.lastName == None then Some(Join(QualifiedName(tokens, i, Some(t.text)), "")) else st.lastName;
        var marker := ParseIdentifier(t.text);
        if marker.Some? && name.Some? && name.value !in Names(st.data.definitions) then
          var definitions := st.data.definitions + [DependencyDefinition(name.value, marker.value)];
          st.(lastName := name, data := st.data.(definitions := definitions))
        else st.(lastName := name)
    else if t.LeftBrace? then st.(isScanning := false, lastName := None)
    else st
  }

  /** The syntax walk over the tokens at positions `lo` up to `hi`. */
  function Walk(st: Lookup, tokens: seq<Token>, lo: nat, hi: nat): Lookup
    requires lo <= hi <= |tokens|
    decreases hi
  {
    if hi == lo then st else VisitStep(Walk(st, tokens, lo, hi - 1), tokens, hi - 1)
  }

  /** What the scanner has collected after walking a whole file. */
  function Scan(tokens: seq<Token>): DependencyData {
    Walk(InitialLookup(), tokens, 0, |tokens|).data
  }

  /** `DefinitionsLookup`. */
  class DefinitionsLookup {
    var isScanning: bool
    var lastName: Option<string>
    var data: DependencyData

    function State(): Lookup
      reads this
    {
      Lookup(isScanning, lastName, data)
    }

    constructor ()
      ensures State() == InitialLookup()
    {
      isScanning := false;
      lastName := None;
      data := DependencyData([], []);
    }

    /** `nextFullyQualifiedIdentifier`: `initial`, then the identifiers of the dotted name that follows the token at `i`. */
    method NextFullyQualifiedIdentifier(tokens: seq<Token>, i: nat, initial: Option<string>) returns (values: seq<string>)
      requires i < |tokens|
      ensures values == OptionList(initial) + IdentifierTexts(tokens[i + 1 .. NameRunEnd(tokens, i + 1)])
    {
      var local := i;
      values := OptionList(initial);
      while local + 1 < |tokens|
        invariant i <= local < |tokens|
        invariant local + 1 <= NameRunEnd(tokens, i + 1)
        invariant values == OptionList(initial) + IdentifierTexts(tokens[i + 1 .. local + 1])
        decreases |tokens| - local
      {
        var next := tokens[local + 1];
        var shouldExit: bool;
        match next {
          case Identifier(nextValue) =>
            if nextValue == "final" {
              shouldExit := true;
            } else {
              assert tokens[i + 1 .. local + 2][..local - i] == tokens[i + 1 .. local + 1];
              local := local + 1;
              values := values + [nextValue];
              shouldExit := false;
            }
          case Period =>
            assert tokens[i + 1 .. local + 2][..local - i] == tokens[i + 1 .. local + 1];
            local := local + 1;
            shouldExit := false;
          case _ =>
            shouldExit := true;
        }
        if shouldExit {
          break;
        }
      }
    }

    /** `visit(_ token:)` on the token at `i`; children are visited exactly while scanning. */
    method Visit(tokens: seq<Token>, i: nat) returns (visitChildren: bool)
      requires i < |tokens|
      modifies this
      ensures State() == VisitStep(old(State()), tokens, i)
      ensures visitChildren == isScanning
    {
      var token := tokens[i];
      if IntroducesType(token) {
        isScanning := true;
      } else if token.ImportKeyword? {
        var identifiers := NextFullyQualifiedIdentifier(tokens, i, None);
        data := data.(imports := data.imports + [Join(identifiers, ".")]);
      } else if token.Identifier? {
        if isScanning {
          if lastName == None {
            var identifiers := NextFullyQualifiedIdentifier(tokens, i, Some(token.text));
            lastName := Some(Join(identifiers, ""));
          }
          var marker := ParseIdentifier(token.text);
          if marker.Some? && lastName.Some? && lastName.value !in Names(data.definitions) {
            data := data.(definitions := data.definitions + [DependencyDefinition(lastName.value, marker.value)]);
          }
        }
      } else if token.LeftBrace? {
        isScanning := false;
        lastName := None;
      }
      visitChildren := isScanning;
    }

    /** `parse(source:)`, given the file's tokens: the syntax walk visits every token in order. */
    method Parse(tokens: seq<Token>)
      modifies this
      ensures State() == Walk(old(State()), tokens, 0, |tokens|)
    {
      for i := 0 to |tokens|
        invariant State() == Walk(old(State()), tokens, 0, i)
      {
        var _ := Visit(tokens, i);
      }
    }
  }

  // ---------------------------------------------------------------------
  // Properties of the scanner

  /**
    The rules of a visit: a type keyword starts a header, `{` ends it and
    forgets the pending name, identifiers outside a header change nothing,
    and inside one the first identifier fixes the name, which later ones
    never replace.
  */
  lemma VisitRules(st: Lookup, tokens: seq<Token>, i: nat)
    requires i < |tokens|
    ensures var r := VisitStep(st, tokens, i);
      && (IntroducesType(tokens[i]) ==> r == st.(isScanning := true))
      && (tokens[i].LeftBrace? ==> !r.isScanning && r.lastName == None && r.data == st.data)
      && (tokens[i].Identifier? && !st.isScanning ==> r == st)
      && (tokens[i].Identifier? && st.isScanning ==> r.isScanning && r.lastName.Some? && r.data.imports == st.data.imports)
      && (tokens[i].Identifier? && st.lastName.Some? ==> r.lastName == st.lastName)
      && (tokens[i].ImportKeyword? ==> r.isScanning == st.isScanning && r.lastName == st.lastName && r.data.definitions == st.data.definitions)
      && (|r.data.definitions| > |st.data.definitions| ==>
            tokens[i].Identifier? && st.isScanning && ParseIdentifier(tokens[i].text).Some?)
  {
  }

  /** The tokens of a dotted path continue a name, unless one of its parts is `final`. */
  lemma {:induction false} DottedPathContinues(path: seq<string>)
    requires forall k :: 0 <= k < |path| ==> path[k] != "final"
    ensures |DottedPath(path)| == if path == [] then 0 else 2 * |path| - 1
    ensures forall k :: 0 <= k < |DottedPath(path)| ==> ContinuesName(DottedPath(path)[k])
    ensures IdentifierTexts(DottedPath(path)) == path
    decreases |path|
  {
    if |path| > 1 {
      var front := path[..|path| - 1];
      DottedPathContinues(front);
      var last := [Period, Identifier(path[|path| - 1])];
      IdentifierTextsAppend(DottedPath(front), last);
      assert IdentifierTexts(last) == [path[|path| - 1]] by {
        assert last[..1] == [Period];
        assert IdentifierTexts([Period]) == [];
      }
      assert front + [path[|path| - 1]] == path;
    } else if |path| == 1 {
      assert IdentifierTexts(DottedPath(path)) == IdentifierTexts([]) + [path[0]] by {
        assert DottedPath(path)[..0] == [];
      }
    }
  }

  lemma {:induction false} IdentifierTextsAppend(a: seq<Token>, b: seq<Token>)
    ensures IdentifierTexts(a + b) == IdentifierTexts(a) + IdentifierTexts(b)
    decreases |b|
  {
    if b != [] {
      var front := b[..|b| - 1];
      IdentifierTextsAppend(a, front);
      assert (a + b)[..|a + b| - 1] == a + front;
    } else {
      assert a + b == a;
    }
  }

  /** A run of name-continuing tokens from `j` that stops at `e` ends at `e`. */
  lemma {:induction false} NameRunEndAt(tokens: seq<Token>, j: nat, e: nat)
    requires j <= e <= |tokens|
    requires forall k :: j <= k < e ==> ContinuesName(tokens[k])
    requires e == |tokens| || !ContinuesName(tokens[e])
    ensures NameRunEnd(tokens, j) == e
    decreases e - j
  {
    if j < e {
      NameRunEndAt(tokens, j + 1, e);
    }
  }

  /** Outside a header, identifiers and periods change nothing. */
  lemma {:induction false} PathWalkQuiet(st: Lookup, tokens: seq<Token>, lo: nat, hi: nat)
    requires lo <= hi <= |tokens| && !st.isScanning
    requires forall k :: lo <= k < hi ==> tokens[k].Identifier? || tokens[k].Period?
    ensures Walk(st, tokens, lo, hi) == st
    decreases hi
  {
    if lo < hi {
      PathWalkQuiet(st, tokens, lo, hi - 1);
    }
  }

  /**
    `import A.B.C` outside a declaration header appends `"A.B.C"` to the
    imports, joined with periods, and changes nothing else, whatever token
    ends the path.
  */
  lemma ImportScanned(st: Lookup, path: seq<string>, rest: seq<Token>)
    requires !st.isScanning
    requires forall k :: 0 <= k < |path| ==> path[k] != "final"
    requires rest == [] || !ContinuesName(rest[0])
    ensures var tokens := [ImportKeyword] + DottedPath(path) + rest;
      Walk(st, tokens, 0, 1 + |DottedPath(path)|)
        == st.(data := st.data.(imports := st.data.imports + [Join(path, ".")]))
  {
    var tokens := [ImportKeyword] + DottedPath(path) + rest;
    var e := 1 + |DottedPath(path)|;
    ImportPath(tokens, path, rest);
    var imported := st.(data := st.data.(imports := st.data.imports + [Join(path, ".")]));
    assert Walk(st, tokens, 0, 1) == imported by {
      assert Walk(st, tokens, 0, 0) == st;
      assert tokens[0] == ImportKeyword;
    }
    WalkSplit(st, tokens, 0, 1, e);
    PathWalkQuiet(imported, tokens, 1, e);
  }

  /** What `nextFullyQualifiedIdentifier` reads after `import`: the path's parts, and only them. */
  lemma ImportPath(tokens: seq<Token>, path: seq<string>, rest: seq<Token>)
    requires forall k :: 0 <= k < |path| ==> path[k] != "final"
    requires rest == [] || !ContinuesName(rest[0])
    requires tokens == [ImportKeyword] + DottedPath(path) + rest
    ensures 1 + |DottedPath(path)| <= |tokens|
    ensures forall k :: 1 <= k < 1 + |DottedPath(path)| ==> tokens[k].Identifier? || tokens[k].Period?
    ensures QualifiedName(tokens, 0, None) == path
  {
    var dp := DottedPath(path);
    var e := 1 + |dp|;
    DottedPathContinues(path);
    forall k | 1 <= k < e ensures ContinuesName(tokens[k]) {
      assert tokens[k] == dp[k - 1];
    }
    if e < |tokens| {
      assert tokens[e] == rest[0];
    }
    NameRunEndAt(tokens, 1, e);
    assert tokens[1 .. e] == dp;
    assert OptionList(None) == [];
  }

  /** A visit only appends: earlier definitions and imports are kept, and definition names stay distinct. */
  lemma VisitAppends(st: Lookup, tokens: seq<Token>, i: nat)
    requires i < |tokens|
    ensures st.data.definitions <= VisitStep(st, tokens, i).data.definitions
    ensures st.data.imports <= VisitStep(st, tokens, i).data.imports
    ensures Distinct(Names(st.data.definitions)) ==> Distinct(Names(VisitStep(st, tokens, i).data.definitions))
  {
  }

  /** Definition names are unique after any walk: a type is recorded once, with its first marker. */
  lemma {:induction false} WalkKeepsNamesDistinct(st: Lookup, tokens: seq<Token>, lo: nat, hi: nat)
    requires lo <= hi <= |tokens|
    requires Distinct(Names(st.data.definitions))
    ensures Distinct(Names(Walk(st, tokens, lo, hi).data.definitions))
    ensures st.data.definitions <= Walk(st, tokens, lo, hi).data.definitions
    ensures st.data.imports <= Walk(st, tokens, lo, hi).data.imports
    decreases hi
  {
    if hi > lo {
      WalkKeepsNamesDistinct(st, tokens, lo, hi - 1);
      VisitAppends(Walk(st, tokens, lo, hi - 1), tokens, hi - 1);
    }
  }

  /** The definitions collected from any file have distinct names. */
  lemma ScanNamesDistinct(tokens: seq<Token>)
    ensures Distinct(Names(Scan(tokens).definitions))
  {
    WalkKeepsNamesDistinct(InitialLookup(), tokens, 0, |tokens|);
  }

  /** Walking two adjacent stretches of a file is walking their union. */
  lemma {:induction false} WalkSplit(st: Lookup, tokens: seq<Token>, lo: nat, mid: nat, hi: nat)
    requires lo <= mid <= hi <= |tokens|
    ensures Walk(st, tokens, lo, hi) == Walk(Walk(st, tokens, lo, mid), tokens, mid, hi)
    decreases hi
  {
    if hi > mid {
      WalkSplit(st, tokens, lo, mid, hi - 1);
    }
  }

  /** The first marker among `ids`, if any. */
  function FirstMarker(ids: seq<string>): (r: Option<DependencyIdentifier>)
    decreases |ids|
  {
    if ids == [] then None
    else
      var before := FirstMarker(ids[..|ids| - 1]);
      if before.Some? then before else ParseIdentifier(ids[|ids| - 1])
  }

  /** What scanning `name` and then the conformances `ids` adds to `defs`: one definition with the first marker, unless `name` is already recorded. */
  function Recorded(defs: seq<DependencyDefinition>, name: string, ids: seq<string>): seq<DependencyDefinition> {
    if name in Names(defs) then []
    else match FirstMarker(ids)
      case Some(m) => [DependencyDefinition(name, m)]
      case None => []
  }

  /** The tokens of a declaration line, position by position. */
  lemma DeclarationAt(kw: Token, name: string, cs: seq<string>)
    ensures var d := Declaration(kw, name, cs);
      && |d| == 2 * |cs| + 4
      && d[0] == kw && d[1] == Identifier(name)
      && (forall k :: 0 <= k < |cs| ==> d[2 * k + 2] == Other && d[2 * k + 3] == Identifier(cs[k]))
      && d[2 * |cs| + 2] == LeftBrace && d[2 * |cs| + 3] == Other
  {
    var d := Declaration(kw, name, cs);
    var list := ConformanceList(cs);
    assert d == [kw, Identifier(name)] + list + [LeftBrace, Other];
    forall k | 0 <= k < |cs| ensures d[2 * k + 2] == Other && d[2 * k + 3] == Identifier(cs[k]) {
      assert d[2 * k + 2] == list[2 * k];
      assert d[2 * k + 3] == list[2 * k + 1];
    }
  }

  lemma TokenAt(tokens: seq<Token>, a: nat, d: seq<Token>, j: nat)
    requires a + |d| <= |tokens| && tokens[a .. a + |d|] == d && j < |d|
    ensures tokens[a + j] == d[j]
  {
    assert tokens[a .. a + |d|][j] == tokens[a + j];
  }

  /** The tokens of the conformance at index `k` of a declaration starting at `a`. */
  lemma ConformanceTokensAt(tokens: seq<Token>, a: nat, kw: Token, name: string, cs: seq<string>, k: nat)
    requires a + 2 * |cs| + 4 <= |tokens| && tokens[a .. a + 2 * |cs| + 4] == Declaration(kw, name, cs)
    requires k < |cs|
    ensures tokens[a + 2 * k + 2] == Other && tokens[a + 2 * k + 3] == Identifier(cs[k])
  {
    DeclarationAt(kw, name, cs);
    var d := Declaration(kw, name, cs);
    TokenAt(tokens, a, d, 2 * k + 2);
    TokenAt(tokens, a, d, 2 * k + 3);
  }

  /** In a header whose type name is pending as `name`, the conformance `c` records `name` exactly as `Recorded` says. */
  lemma ConformanceStep(defs: seq<DependencyDefinition>, imports: seq<string>, name: string, ids: seq<string>, c: string, tokens: seq<Token>, p: nat)
    requires p + 1 < |tokens| && tokens[p] == Other && tokens[p + 1] == Identifier(c)
    ensures var before := Lookup(true, Some(name), DependencyData(defs + Recorded(defs, name, ids), imports));
      VisitStep(VisitStep(before, tokens, p), tokens, p + 1)
        == Lookup(true, Some(name), DependencyData(defs + Recorded(defs, name, ids + [c]), imports))
  {
    assert (ids + [c])[..|ids|] == ids;
    var recorded := Recorded(defs, name, ids);
    if name in Names(defs) {
      var j :| 0 <= j < |defs| && Names(defs)[j] == name;
      assert recorded == [];
      assert defs + recorded == defs;
    } else if FirstMarker(ids).Some? {
      assert recorded == [DependencyDefinition(name, FirstMarker(ids).value)];
      assert Names(defs + recorded)[|defs|] == name;
    } else {
      assert recorded == [];
      assert defs + recorded == defs;
      assert FirstMarker(ids + [c]) == ParseIdentifier(c);
    }
  }

  /** The conformance step, as part of a walk starting at `lo`. */
  lemma ConformanceWalkStep(st: Lookup, tokens: seq<Token>, lo: nat, p: nat, name: string, ids: seq<string>, c: string)
    requires lo <= p && p + 1 < |tokens| && tokens[p] == Other && tokens[p + 1] == Identifier(c)
    requires Walk(st, tokens, lo, p)
      == Lookup(true, Some(name), st.data.(definitions := st.data.definitions + Recorded(st.data.definitions, name, ids)))
    ensures Walk(st, tokens, lo, p + 2)
      == Lookup(true, Some(name), st.data.(definitions := st.data.definitions + Recorded(st.data.definitions, name, ids + [c])))
  {
    ConformanceStep(st.data.definitions, st.data.imports, name, ids, c, tokens, p);
  }

  /** Walking a declaration's keyword and type name leaves the name pending and records it if the name itself is a marker. */
  lemma HeaderScanned(st: Lookup, tokens: seq<Token>, a: nat, kw: Token, name: string, cs: seq<string>)
    requires IntroducesType(kw) && !st.isScanning && st.lastName == None
    requires a + 2 * |cs| + 4 <= |tokens| && tokens[a .. a + 2 * |cs| + 4] == Declaration(kw, name, cs)
    ensures Walk(st, tokens, a, a + 2)
      == Lookup(true, Some(name), st.data.(definitions := st.data.definitions + Recorded(st.data.definitions, name, [name])))
  {
    DeclarationAt(kw, name, cs);
    var d := Declaration(kw, name, cs);
    TokenAt(tokens, a, d, 0);
    TokenAt(tokens, a, d, 1);
    TokenAt(tokens, a, d, 2);
    if cs == [] {
      assert d[2 * |cs| + 2] == LeftBrace;
    } else {
      assert d[2 * 0 + 2] == Other;
    }
    assert Walk(st, tokens, a, a) == st;
    assert Walk(st, tokens, a, a + 1) == st.(isScanning := true);
    assert NameRunEnd(tokens, a + 2) == a + 2;
    assert IdentifierTexts(tokens[a + 2 .. a + 2]) == [];
    assert QualifiedName(tokens, a + 1, Some(name)) == [name];
    assert FirstMarker([name]) == ParseIdentifier(name);
  }

  /** Walking the name and the first `k` conformances of a declaration whose keyword has been seen. */
  lemma {:induction false} ConformancesScanned(st: Lookup, tokens: seq<Token>, a: nat, kw: Token, name: string, cs: seq<string>, k: nat)
    requires IntroducesType(kw) && !st.isScanning && st.lastName == None
    requires a + 2 * |cs| + 4 <= |tokens| && tokens[a .. a + 2 * |cs| + 4] == Declaration(kw, name, cs)
    requires k <= |cs|
    ensures Walk(st, tokens, a, a + 2 * k + 2)
      == Lookup(true, Some(name), st.data.(definitions := st.data.definitions + Recorded(st.data.definitions, name, [name] + cs[..k])))
    decreases k
  {
    if k == 0 {
      HeaderScanned(st, tokens, a, kw, name, cs);
      assert [name] + cs[..0] == [name];
    } else {
      ConformancesScanned(st, tokens, a, kw, name, cs, k - 1);
      NextConformanceScanned(st, tokens, a, kw, name, cs, k);
    }
  }

  /** The inductive step of `ConformancesScanned`: the k-th conformance. */
  lemma NextConformanceScanned(st: Lookup, tokens: seq<Token>, a: nat, kw: Token, name: string, cs: seq<string>, k: nat)
    requires a + 2 * |cs| + 4 <= |tokens| && tokens[a .. a + 2 * |cs| + 4] == Declaration(kw, name, cs)
    requires 0 < k <= |cs|
    requires Walk(st, tokens, a, a + 2 * k)
      == Lookup(true, Some(name), st.data.(definitions := st.data.definitions + Recorded(st.data.definitions, name, [name] + cs[..k - 1])))
    ensures Walk(st, tokens, a, a + 2 * k + 2)
      == Lookup(true, Some(name), st.data.(definitions := st.data.definitions + Recorded(st.data.definitions, name, [name] + cs[..k])))
  {
    ConformanceTokensAt(tokens, a, kw, name, cs, k - 1);
    var ids := [name] + cs[..k - 1];
    assert [name] + cs[..k] == ids + [cs[k - 1]];
    ConformanceWalkStep(st, tokens, a, a + 2 * k, name, ids, cs[k - 1]);
  }

  /**
    Scanning a declaration `kw Name: C1, …, Cn { }` from a state that is not
    inside a declaration header records `Name` once, with the first marker
    among `Name, C1, …, Cn`, unless `Name` is already recorded, and leaves the
    scanner outside any header again.
  */
  lemma DeclarationScanned(st: Lookup, tokens: seq<Token>, a: nat, kw: Token, name: string, cs: seq<string>)
    requires IntroducesType(kw) && !st.isScanning && st.lastName == None
    requires a + 2 * |cs| + 4 <= |tokens| && tokens[a .. a + 2 * |cs| + 4] == Declaration(kw, name, cs)
    ensures Walk(st, tokens, a, a + 2 * |cs| + 4)
      == st.(data := st.data.(definitions := st.data.definitions + Recorded(st.data.definitions, name, [name] + cs)))
  {
    ConformancesScanned(st, tokens, a, kw, name, cs, |cs|);
    assert cs[..|cs|] == cs;
    ClosingTokensAt(tokens, a, kw, name, cs);
    var data := st.data.(definitions := st.data.definitions + Recorded(st.data.definitions, name, [name] + cs));
    CloseHeader(st, tokens, a, a + 2 * |cs| + 2, name, data);
  }

  /** The `{` and the body that close a declaration starting at `a`. */
  lemma ClosingTokensAt(tokens: seq<Token>, a: nat, kw: Token, name: string, cs: seq<string>)
    requires a + 2 * |cs| + 4 <= |tokens| && tokens[a .. a + 2 * |cs| + 4] == Declaration(kw, name, cs)
    ensures tokens[a + 2 * |cs| + 2] == LeftBrace && tokens[a + 2 * |cs| + 3] == Other
  {
    DeclarationAt(kw, name, cs);
    var d := Declaration(kw, name, cs);
    TokenAt(tokens, a, d, 2 * |cs| + 2);
    TokenAt(tokens, a, d, 2 * |cs| + 3);
  }

  /** `{` ends a header and drops the pending name; the body token after it changes nothing. */
  lemma CloseHeader(st: Lookup, tokens: seq<Token>, lo: nat, mid: nat, name: string, data: DependencyData)
    requires lo <= mid && mid + 2 <= |tokens| && tokens[mid] == LeftBrace && tokens[mid + 1] == Other
    requires Walk(st, tokens, lo, mid) == Lookup(true, Some(name), data)
    ensures Walk(st, tokens, lo, mid + 2) == Lookup(false, None, data)
  {
    assert Walk(st, tokens, lo, mid + 1) == Lookup(false, None, data);
  }

  // ---------------------------------------------------------------------
  // lowercasedFirstLetter

  predicate IsUpper(ch: char) {
    'A' <= ch <= 'Z'
  }

  /** `lowercased()` of one character, over the ASCII letters. */
  function LowercaseChar(ch: char): (r: char)
    ensures !IsUpper(r)
    ensures IsUpper(ch) ==> 'a' <= r <= 'z' && r as int - 'a' as int == ch as int - 'A' as int
    ensures !IsUpper(ch) ==> r == ch
  {
    if IsUpper(ch) then (ch as int - 'A' as int + 'a' as int) as char else ch
  }

  /** `lowercasedFirstLetter()`: the first character lowercased, the rest kept. */
  function LowercasedFirstLetter(s: string): (r: string)
    ensures |r| == |s|
    ensures s != [] ==> r[0] == LowercaseChar(s[0]) && r[1..] == s[1..]
  {
    if s == [] then [] else [LowercaseChar(s[0])] + s[1..]
  }

  /** A name is left as it is exactly when it does not start with a capital. */
  lemma LowercasedFirstLetterFixes(s: string)
    ensures LowercasedFirstLetter(s) == s <==> s == [] || !IsUpper(s[0])
  {
    if s != [] && LowercasedFirstLetter(s) == s {
      assert LowercasedFirstLetter(s)[0] == s[0];
    }
  }

  /** Lowercasing the first letter twice is lowercasing it once. */
  lemma LowercasedFirstLetterIdempotent(s: string)
    ensures LowercasedFirstLetter(LowercasedFirstLetter(s)) == LowercasedFirstLetter(s)
  {
    LowercasedFirstLetterFixes(LowercasedFirstLetter(s));
  }

  // ---------------------------------------------------------------------
  // ExtensionBuilder.build

  /** The name of the provider key struct generated for `d`: `<name><raw value>ProviderKey`. */
  function KeyName(d: DependencyDefinition): string {
    d.name + d.identifier.RawValue() + "ProviderKey"
  }

  /** What the builder generates for one definition. */
  datatype Accessor = Accessor(
    keyName: string,        // the `DependencyKey` struct
    providerType: string,   // the type of its `defaultValue`
    accessorName: string,   // the `SharedContainer` method
    signature: string,      // the method's effects
    prefix: string,         // the keywords in front of `getValue`
    resolvedType: string)   // the method's result type

  /** The generated file: the forwarded imports, then a key and an accessor per definition. */
  datatype Extensions = Extensions(imports: seq<string>, accessors: seq<Accessor>)

  function Generate(d: DependencyDefinition, key: string): Accessor {
    Accessor(key, "_" + d.identifier.RawValue() + "Provider<" + d.name + ">",
             LowercasedFirstLetter(d.name), d.identifier.Signature(), d.identifier.Prefix(), d.name + ".ResolvedTo")
  }

  /** `build()`: nothing when no definition was found; otherwise the generated declarations, in the order found. */
  function Build(data: DependencyData): (r: Option<Extensions>)
    ensures r.None? <==> data.definitions == []
    ensures r.Some? ==> r.value.imports == data.imports && |r.value.accessors| == |data.definitions|
    ensures r.Some? ==> forall i :: 0 <= i < |data.definitions| ==>
      var d := data.definitions[i];
      && r.value.accessors[i].keyName == KeyName(d)
      && r.value.accessors[i].providerType == "_" + d.identifier.RawValue() + "Provider<" + d.name + ">"
      && r.value.accessors[i].accessorName == LowercasedFirstLetter(d.name)
      && r.value.accessors[i].signature == d.identifier.Signature()
      && r.value.accessors[i].prefix == d.identifier.Prefix()
      && r.value.accessors[i].resolvedType == d.name + ".ResolvedTo"
  {
    if data.definitions == [] then None
    else Some(Extensions(data.imports,
      seq(|data.definitions|, i requires 0 <= i < |data.definitions| => Generate(data.definitions[i], KeyName(data.definitions[i])))))
  }

  function KeyNames(accessors: seq<Accessor>): (r: seq<string>)
    ensures |r| == |accessors| && forall i :: 0 <= i < |accessors| ==> r[i] == accessors[i].keyName
  {
    seq(|accessors|, i requires 0 <= i < |accessors| => accessors[i].keyName)
  }

  /** Every type found in a file gets its own accessor result type: the generated accessors never clash on the type they resolve. */
  lemma BuildOfScanResolvesDistinctTypes(tokens: seq<Token>)
    ensures var r := Build(Scan(tokens));
      r.Some? ==> forall i, j :: 0 <= i < j < |r.value.accessors| ==> r.value.accessors[i].resolvedType != r.value.accessors[j].resolvedType
  {
    ScanNamesDistinct(tokens);
    var defs := Scan(tokens).definitions;
    forall i, j | 0 <= i < j < |defs|
      ensures defs[i].name + ".ResolvedTo" != defs[j].name + ".ResolvedTo"
    {
      assert Names(defs)[i] != Names(defs)[j];
      SuffixCancels(defs[i].name, defs[j].name, ".ResolvedTo");
    }
  }

  /** Two strings with the same suffix appended are equal only if they were equal. */
  lemma SuffixCancels(a: string, b: string, suffix: string)
    ensures a + suffix == b + suffix ==> a == b
  {
    if a + suffix == b + suffix {
      assert (a + suffix)[..|a|] == a;
      assert (b + suffix)[..|b|] == b;
    }
  }

  lemma ConcatSlices<T>(x: seq<T>, y: seq<T>)
    ensures (x + y)[0 .. |x|] == x && (x + y)[|x| .. |x| + |y|] == y
  {
  }

  /** Scanning a file of two declarations records each name as `Recorded` says, the first before the second. */
  lemma TwoDeclarationsScanned(tokens: seq<Token>, kw1: Token, name1: string, cs1: seq<string>, kw2: Token, name2: string, cs2: seq<string>)
    requires IntroducesType(kw1) && IntroducesType(kw2)
    requires tokens == Declaration(kw1, name1, cs1) + Declaration(kw2, name2, cs2)
    ensures var first := Recorded([], name1, [name1] + cs1);
      Scan(tokens).definitions == first + Recorded(first, name2, [name2] + cs2)
  {
    var d1 := Declaration(kw1, name1, cs1);
    var d2 := Declaration(kw2, name2, cs2);
    ConcatSlices(d1, d2);
    DeclarationsAt(tokens, |d1|, kw1, name1, cs1, kw2, name2, cs2);
  }

  /** The two-declaration scan, given where the second declaration starts. */
  lemma DeclarationsAt(tokens: seq<Token>, m: nat, kw1: Token, name1: string, cs1: seq<string>, kw2: Token, name2: string, cs2: seq<string>)
    requires IntroducesType(kw1) && IntroducesType(kw2)
    requires m == 2 * |cs1| + 4 && |tokens| == m + 2 * |cs2| + 4
    requires tokens[0 .. m] == Declaration(kw1, name1, cs1) && tokens[m .. |tokens|] == Declaration(kw2, name2, cs2)
    ensures var first := Recorded([], name1, [name1] + cs1);
      Scan(tokens).definitions == first + Recorded(first, name2, [name2] + cs2)
  {
    var first := Recorded([], name1, [name1] + cs1);
    FirstDeclarationScanned(tokens, m, kw1, name1, cs1);
    var st1 := Lookup(false, None, DependencyData(first, []));
    DeclarationScanned(st1, tokens, m, kw2, name2, cs2);
    WalkSplit(InitialLookup(), tokens, 0, m, |tokens|);
  }

  /** The first declaration of a file, scanned from the initial state. */
  lemma FirstDeclarationScanned(tokens: seq<Token>, m: nat, kw1: Token, name1: string, cs1: seq<string>)
    requires IntroducesType(kw1)
    requires m == 2 * |cs1| + 4 <= |tokens| && tokens[0 .. m] == Declaration(kw1, name1, cs1)
    ensures Walk(InitialLookup(), tokens, 0, m) == Lookup(false, None, DependencyData(Recorded([], name1, [name1] + cs1), []))
  {
    DeclarationScanned(InitialLookup(), tokens, 0, kw1, name1, cs1);
  }

  /**
    Two declarations `struct A: ThrowingDependency {}` and
    `struct AThrowing: Dependency {}` in one file (for any type name `A`
    that is not itself a marker): both are found, under different names,
    and the builder gives both the key `AThrowingDependencyProviderKey`, so
    the generated file declares that struct twice.
  */
  lemma KeyNameCollision(tokens: seq<Token>, kw1: Token, kw2: Token, name: string)
    requires IntroducesType(kw1) && IntroducesType(kw2) && ParseIdentifier(name) == None
    requires tokens == Declaration(kw1, name, ["ThrowingDependency"]) + Declaration(kw2, name + "Throwing", ["Dependency"])
    ensures var r := Build(Scan(tokens));
      && r.Some? && |r.value.accessors| == 2
      && Scan(tokens).definitions[0].name != Scan(tokens).definitions[1].name
      && r.value.accessors[0].keyName == r.value.accessors[1].keyName
  {
    CollidingFileScanned(tokens, kw1, kw2, name);
    var first := DependencyDefinition(name, ThrowingDependency);
    var second := DependencyDefinition(name + "Throwing", Dependency);
    assert KeyName(first) == KeyName(second);
  }

  /** The two declarations of the collision are both recorded, each with its own marker. */
  lemma CollidingFileScanned(tokens: seq<Token>, kw1: Token, kw2: Token, name: string)
    requires IntroducesType(kw1) && IntroducesType(kw2) && ParseIdentifier(name) == None
    requires tokens == Declaration(kw1, name, ["ThrowingDependency"]) + Declaration(kw2, name + "Throwing", ["Dependency"])
    ensures Scan(tokens).definitions
      == [DependencyDefinition(name, ThrowingDependency), DependencyDefinition(name + "Throwing", Dependency)]
  {
    var name2 := name + "Throwing";
    TwoDeclarationsScanned(tokens, kw1, name, ["ThrowingDependency"], kw2, name2, ["Dependency"]);
    var ids1 := [name] + ["ThrowingDependency"];
    assert ids1[..1] == [name] && [name][..0] == [];
    assert FirstMarker([name]) == None;
    assert ParseIdentifier(ids1[1]) == Some(ThrowingDependency);
    var first := DependencyDefinition(name, ThrowingDependency);
    assert Recorded([], name, ids1) == [first];
    var ids2 := [name2] + ["Dependency"];
    assert ids2[..1] == [name2] && [name2][..0] == [];
    assert ParseIdentifier(name2) == None by {
      assert name2[|name2| - 1] == 'g';
    }
    assert FirstMarker([name2]) == None;
    assert ParseIdentifier(ids2[1]) == Some(Dependency);
    assert Names([first]) == [name];
    assert |name2| != |name|;
    var second := DependencyDefinition(name2, Dependency);
    assert Recorded([first], name2, ids2) == [second];
  }

  /** The evidently intended key name: the raw value first, then the type name. */
  function CorrectedKeyName(d: DependencyDefinition): string {
    d.identifier.RawValue() + d.name + "ProviderKey"
  }

  /** The corrected key names the definition: different definitions never share a key. */
  lemma CorrectedKeyNameInjective(d1: DependencyDefinition, d2: DependencyDefinition)
    ensures CorrectedKeyName(d1) == CorrectedKeyName(d2) ==> d1 == d2
  {
    var k1, k2 := CorrectedKeyName(d1), CorrectedKeyName(d2);
    if k1 == k2 {
      var r1, r2 := d1.identifier.RawValue(), d2.identifier.RawValue();
      assert k1[0] == r1[0] && k2[0] == r2[0];
      assert d1.identifier == d2.identifier;
      var n := |k1| - |"ProviderKey"|;
      assert k1[|r1| .. n] == d1.name;
      assert k2[|r2| .. n] == d2.name;
    }
  }

  /** `build()` with the corrected key name. */
  function BuildCorrected(data: DependencyData): (r: Option<Extensions>)
    ensures r.None? <==> data.definitions == []
    ensures r.Some? ==> r.value.imports == data.imports && |r.value.accessors| == |data.definitions|
    ensures r.Some? ==> forall i :: 0 <= i < |data.definitions| ==>
      r.value.accessors[i] == Build(data).value.accessors[i].(keyName := CorrectedKeyName(data.definitions[i]))
  {
    if data.definitions == [] then None
    else Some(Extensions(data.imports,
      seq(|data.definitions|, i requires 0 <= i < |data.definitions| => Generate(data.definitions[i], CorrectedKeyName(data.definitions[i])))))
  }

  /** With the corrected key name, the keys generated for any file are pairwise distinct. */
  lemma CorrectedKeysDistinct(tokens: seq<Token>)
    ensures var r := BuildCorrected(Scan(tokens));
      r.Some? ==> Distinct(KeyNames(r.value.accessors))
  {
    ScanNamesDistinct(tokens);
    var defs := Scan(tokens).definitions;
    forall i, j | 0 <= i < j < |defs|
      ensures CorrectedKeyName(defs[i]) != CorrectedKeyName(defs[j])
    {
      assert Names(defs)[i] != Names(defs)[j];
      CorrectedKeyNameInjective(defs[i], defs[j]);
    }
  }
}
