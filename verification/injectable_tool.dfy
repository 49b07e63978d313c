/**
  The declaration scanner of the Injectable code generator. It walks the
  tokens of one Swift source file and records, for every type declared (or
  extended) in it, one definition per dependency marker among the tokens of
  its header, in order. It expects every identifier it meets to sit inside
  such a header; a debug build traps on the first one that does not.
*/
module InjectableTool {
  import opened Basics
  import opened Tokens

  /** `DependencyIdentifier`: the three markers, by raw value. */
  datatype DependencyIdentifier = AsyncFailableDependency | FailableDependency | Dependency
  {
    function RawValue(): string {
      match this
      case AsyncFailableDependency => "AsyncFailableDependency"
      case FailableDependency => "FailableDependency"
      case Dependency => "Dependency"
    }
  }

  /** `DependencyIdentifier(rawValue:)`: the inverse of `RawValue`, and nothing else parses. */
  function ParseIdentifier(raw: string): (r: Option<DependencyIdentifier>)
    ensures forall d: DependencyIdentifier :: r == Some(d) <==> d.RawValue() == raw
  {
    if raw == "AsyncFailableDependency" then Some(AsyncFailableDependency)
    else if raw == "FailableDependency" then Some(FailableDependency)
    else if raw == "Dependency" then Some(Dependency)
    else None
  }

  datatype DependencyDefinition = DependencyDefinition(name: string, identifier: DependencyIdentifier)

  /** The scanner's state: `_isScanning`, `_lastName` and `definitions`. */
  datatype Finder = Finder(isScanning: bool, lastName: Option<string>, definitions: seq<DependencyDefinition>)

  function InitialFinder(): Finder {
    Finder(false, None, [])
  }

  /** The `assert(_isScanning)` a visit makes on meeting an identifier. */
  predicate Admits(st: Finder, t: Token) {
    t.Identifier? ==> st.isScanning
  }

  /** `visit` of one token, when its assertion holds. */
  function Step(st: Finder, t: Token): Finder
    requires Admits(st, t)
  {
    if IntroducesType(t) then st.(isScanning := true)
    else if t.Identifier? then
      var name := if st.lastName == None then t.text else st.lastName.value;
      match ParseIdentifier(t.text)
      case Some(m) => st.(lastName := Some(name), definitions := st.definitions + [DependencyDefinition(name, m)])
      case None => st.(lastName := Some(name))
    else if t.LeftBrace? then st.(isScanning := false, lastName := None)
    else st
  }

  /** The syntax walk over `tokens`: the final state, or `None` if some visit's assertion fails. */
  function Run(st: Finder, tokens: seq<Token>): Option<Finder>
    decreases |tokens|
  {
    if tokens == [] then Some(st)
    else
      match Run(st, tokens[..|tokens| - 1])
      case None => None
      case Some(mid) =>
        var t := tokens[|tokens| - 1];
        if Admits(mid, t) then Some(Step(mid, t)) else None
  }

  /** What the scanner collects from a whole file, if it gets through it. */
  function Definitions(tokens: seq<Token>): Option<seq<DependencyDefinition>> {
    match Run(InitialFinder(), tokens)
    case None => None
    case Some(st) => Some(st.definitions)
  }

  /** `DefinitionsFinder`. */
  class DefinitionsFinder {
    var isScanning: bool
    var lastName: Option<string>
    var definitions: seq<DependencyDefinition>

    function State(): Finder
      reads this
    {
      Finder(isScanning, lastName, definitions)
    }

    constructor ()
      ensures State() == InitialFinder()
    {
      isScanning := false;
      lastName := None;
      definitions := [];
    }

    /** `visit(_:)`: one token; the result says whether the walk descends, which is whether a header is being scanned. */
    method Visit(token: Token) returns (visitChildren: bool)
      requires Admits(State(), token)
      modifies this
      ensures State() == Step(old(State()), token)
      ensures visitChildren == isScanning
    {
      if IntroducesType(token) {
        isScanning := true;
      } else if token.Identifier? {
        if lastName == None {
          lastName := Some(token.text);
        }
        var marker := ParseIdentifier(token.text);
        if marker.Some? {
          definitions := definitions + [DependencyDefinition(lastName.value, marker.value)];
        }
      } else if token.LeftBrace? {
        isScanning := false;
        lastName := None;
      }
      visitChildren := isScanning;
    }

    /** `parse(source:)`, given the file's tokens, for a file on which no visit's assertion fails. */
    method Parse(tokens: seq<Token>)
      requires Run(State(), tokens).Some?
      modifies this
      ensures Some(State()) == Run(old(State()), tokens)
    {
      for i := 0 to |tokens|
        invariant Some(State()) == Run(old(State()), tokens[..i])
      {
        RunPrefix(old(State()), tokens, i + 1);
        assert tokens[..i + 1][..i] == tokens[..i];
        var _ := Visit(tokens[i]);
      }
      assert tokens[..|tokens|] == tokens;
    }
  }

  // ---------------------------------------------------------------------
  // Properties of the scanner

  /**
    The rules of a visit: a type keyword starts a header, `{` ends it and
    forgets the pending name, the first identifier of a header fixes the name,
    and every marker identifier appends one definition under that name.
  */
  lemma StepRules(st: Finder, t: Token)
    requires Admits(st, t)
    ensures var r := Step(st, t);
      && (IntroducesType(t) ==> r == st.(isScanning := true))
      && (t.LeftBrace? ==> !r.isScanning && r.lastName == None && r.definitions == st.definitions)
      && (t.Identifier? ==> r.isScanning && r.lastName == Some(if st.lastName.Some? then st.lastName.value else t.text))
      && (t.Identifier? && ParseIdentifier(t.text).Some? ==>
            r.definitions == st.definitions + [DependencyDefinition(r.lastName.value, ParseIdentifier(t.text).value)])
      && (!(t.Identifier? && ParseIdentifier(t.text).Some?) ==> r.definitions == st.definitions)
  {
  }

  /** A walk that gets through a file gets through each of its prefixes. */
  lemma {:induction false} RunPrefix(st: Finder, tokens: seq<Token>, n: nat)
    requires n <= |tokens| && Run(st, tokens).Some?
    ensures Run(st, tokens[..n]).Some?
    decreases |tokens|
  {
    if n < |tokens| {
      var front := tokens[..|tokens| - 1];
      RunPrefix(st, front, n);
      assert front[..n] == tokens[..n];
    } else {
      assert tokens[..n] == tokens;
    }
  }

  /** Walking two files one after the other is walking their concatenation. */
  lemma {:induction false} RunAppend(st: Finder, a: seq<Token>, b: seq<Token>)
    ensures Run(st, a + b) == match Run(st, a) case None => None case Some(mid) => Run(mid, b)
    decreases |b|
  {
    if b == [] {
      assert a + b == a;
    } else {
      var front := b[..|b| - 1];
      RunAppend(st, a, front);
      assert (a + b)[..|a + b| - 1] == a + front;
    }
  }

  /** The definitions one header adds: `name` with each marker among `ids`, in order. */
  function Markers(name: string, ids: seq<string>): (r: seq<DependencyDefinition>)
    ensures |r| <= |ids|
    ensures forall k :: 0 <= k < |r| ==> r[k].name == name
    decreases |ids|
  {
    if ids == [] then []
    else
      var last := |ids| - 1;
      Markers(name, ids[..last]) + match ParseIdentifier(ids[last])
        case Some(m) => [DependencyDefinition(name, m)]
        case None => []
  }

  /** Walking two tokens is visiting one and then the other. */
  lemma RunPair(st: Finder, t1: Token, t2: Token)
    ensures Run(st, [t1, t2])
      == if Admits(st, t1) && Admits(Step(st, t1), t2) then Some(Step(Step(st, t1), t2)) else None
  {
    var one := [t1];
    assert one[..0] == [];
    assert Run(st, one) == if Admits(st, t1) then Some(Step(st, t1)) else None;
    assert [t1, t2][..1] == one;
  }

  /** The markers of a header grow by the marker, if any, of its next identifier. */
  lemma MarkersSnoc(name: string, ids: seq<string>, c: string)
    ensures Markers(name, ids + [c]) == Markers(name, ids) + match ParseIdentifier(c)
      case Some(m) => [DependencyDefinition(name, m)]
      case None => []
  {
    assert (ids + [c])[..|ids|] == ids;
  }

  /** The conformance `c` in a header whose type name `name` is pending records `name` with the marker `c`, if it is one. */
  lemma ConformanceRun(st: Finder, prefix: seq<Token>, name: string, ids: seq<string>, c: string)
    requires Run(st, prefix) == Some(Finder(true, Some(name), st.definitions + Markers(name, ids)))
    ensures Run(st, prefix + [Other, Identifier(c)]) == Some(Finder(true, Some(name), st.definitions + Markers(name, ids + [c])))
  {
    var mid := Finder(true, Some(name), st.definitions + Markers(name, ids));
    RunAppend(st, prefix, [Other, Identifier(c)]);
    assert Run(st, prefix + [Other, Identifier(c)]) == Run(mid, [Other, Identifier(c)]);
    RunPair(mid, Other, Identifier(c));
    assert Step(mid, Other) == mid;
    var marked := match ParseIdentifier(c) case Some(m) => [DependencyDefinition(name, m)] case None => [];
    assert Step(mid, Identifier(c)) == mid.(definitions := mid.definitions + marked);
    MarkersSnoc(name, ids, c);
    assert st.definitions + Markers(name, ids + [c]) == mid.definitions + marked;
  }

  /** The header `kw Name: C1, …, Ck` leaves the scanner inside the header, with `Name` pending and its markers recorded. */
  lemma {:induction false} HeaderRun(st: Finder, kw: Token, name: string, cs: seq<string>)
    requires IntroducesType(kw) && !st.isScanning && st.lastName == None
    ensures Run(st, [kw, Identifier(name)] + ConformanceList(cs))
      == Some(Finder(true, Some(name), st.definitions + Markers(name, [name] + cs)))
    decreases |cs|
  {
    var header := [kw, Identifier(name)];
    if cs == [] {
      assert header + ConformanceList(cs) == header;
      RunPair(st, kw, Identifier(name));
      var scanning := st.(isScanning := true);
      assert Step(st, kw) == scanning;
      var marked := match ParseIdentifier(name) case Some(m) => [DependencyDefinition(name, m)] case None => [];
      assert Step(scanning, Identifier(name)) == Finder(true, Some(name), st.definitions + marked);
      MarkersSnoc(name, [], name);
      assert [] + [name] == [name] + cs;
      assert Markers(name, []) == [];
      assert Markers(name, [name] + cs) == marked;
      assert Run(st, header) == Some(Finder(true, Some(name), st.definitions + marked));
    } else {
      var last := |cs| - 1;
      HeaderRun(st, kw, name, cs[..last]);
      var prefix := header + ConformanceList(cs[..last]);
      assert header + ConformanceList(cs) == prefix + [Other, Identifier(cs[last])];
      ConformanceRun(st, prefix, name, [name] + cs[..last], cs[last]);
      assert ([name] + cs[..last]) + [cs[last]] == [name] + cs;
    }
  }

  /** A whole declaration `kw Name: C1, …, Cn { }` adds `Name` with each marker among `Name, C1, …, Cn`, in order, and leaves the header. */
  lemma DeclarationRun(st: Finder, kw: Token, name: string, cs: seq<string>)
    requires IntroducesType(kw) && !st.isScanning && st.lastName == None
    ensures Run(st, Declaration(kw, name, cs)) == Some(st.(definitions := st.definitions + Markers(name, [name] + cs)))
  {
    var header := [kw, Identifier(name)] + ConformanceList(cs);
    HeaderRun(st, kw, name, cs);
    RunAppend(st, header, [LeftBrace, Other]);
    assert [LeftBrace, Other][..1] == [LeftBrace] && [LeftBrace][..0] == [];
  }

  /** A declaration after a stretch of a file that ends outside any header adds its markers. */
  lemma DeclarationAppended(st: Finder, prefix: seq<Token>, found: seq<DependencyDefinition>, kw: Token, name: string, cs: seq<string>)
    requires IntroducesType(kw) && !st.isScanning && st.lastName == None
    requires Run(st, prefix) == Some(st.(definitions := st.definitions + found))
    ensures Run(st, prefix + Declaration(kw, name, cs))
      == Some(st.(definitions := st.definitions + found + Markers(name, [name] + cs)))
  {
    var mid := st.(definitions := st.definitions + found);
    RunAppend(st, prefix, Declaration(kw, name, cs));
    assert Run(st, prefix + Declaration(kw, name, cs)) == Run(mid, Declaration(kw, name, cs));
    DeclarationRun(mid, kw, name, cs);
  }

  /** One declaration of a file: its keyword, type name and conformances. */
  datatype Decl = Decl(keyword: Token, name: string, conformances: seq<string>)

  /** The tokens of a file made of the declarations `decls`, in order. */
  function File(decls: seq<Decl>): (ts: seq<Token>)
    decreases |decls|
  {
    if decls == [] then []
    else
      var d := decls[|decls| - 1];
      File(decls[..|decls| - 1]) + Declaration(d.keyword, d.name, d.conformances)
  }

  /** All the definitions the declarations `decls` make, in order. */
  function AllMarkers(decls: seq<Decl>): seq<DependencyDefinition>
    decreases |decls|
  {
    if decls == [] then []
    else
      var d := decls[|decls| - 1];
      AllMarkers(decls[..|decls| - 1]) + Markers(d.name, [d.name] + d.conformances)
  }

  lemma AppendAssociates<T>(a: seq<T>, b: seq<T>, c: seq<T>)
    ensures a + b + c == a + (b + c)
  {
  }

  /** A file of declarations is scanned without tripping the assertion, and yields each declaration's markers in file order. */
  lemma {:induction false} FileRun(st: Finder, decls: seq<Decl>)
    requires !st.isScanning && st.lastName == None
    requires forall k :: 0 <= k < |decls| ==> IntroducesType(decls[k].keyword)
    ensures Run(st, File(decls)) == Some(st.(definitions := st.definitions + AllMarkers(decls)))
    decreases |decls|
  {
    if decls != [] {
      var front := decls[..|decls| - 1];
      var d := decls[|decls| - 1];
      assert IntroducesType(d.keyword);
      FileRun(st, front);
      assert File(decls) == File(front) + Declaration(d.keyword, d.name, d.conformances);
      DeclarationAppended(st, File(front), AllMarkers(front), d.keyword, d.name, d.conformances);
      var added := Markers(d.name, [d.name] + d.conformances);
      assert AllMarkers(decls) == AllMarkers(front) + added;
      AppendAssociates(st.definitions, AllMarkers(front), added);
    } else {
      assert st.definitions + AllMarkers(decls) == st.definitions;
    }
  }

  /** What the scanner collects from a file of declarations: their markers, in file order. */
  lemma FileDefinitions(decls: seq<Decl>)
    requires forall k :: 0 <= k < |decls| ==> IntroducesType(decls[k].keyword)
    ensures Definitions(File(decls)) == Some(AllMarkers(decls))
  {
    var st := Finder(false, None, []);
    FileRun(st, decls);
    assert st.definitions + AllMarkers(decls) == AllMarkers(decls);
  }

  /**
    The file of the scanner's test: `struct Test {}` and then `Test0` to
    `Test4`, declared with `struct`, `class`, `enum`, `actor` and
    `extension`, each conforming to `Dependency, AsyncFailableDependency,
    FailableDependency`. It yields the fifteen definitions the test expects:
    for each type in order, its three markers in the order written. The
    type names are parameters here: any six names that are not markers
    themselves, such as `Test` and `Test0` to `Test4`, give the same shape.
  */
  lemma TestBasic(test: string, t0: string, t1: string, t2: string, t3: string, t4: string, decls: seq<Decl>)
    requires forall n :: n in [test, t0, t1, t2, t3, t4] ==> ParseIdentifier(n) == None
    requires
      var cs := ["Dependency", "AsyncFailableDependency", "FailableDependency"];
      decls == [Decl(StructKeyword, test, []), Decl(StructKeyword, t0, cs), Decl(ClassKeyword, t1, cs),
                Decl(EnumKeyword, t2, cs), Decl(ContextualKeyword("actor"), t3, cs), Decl(ExtensionKeyword, t4, cs)]
    ensures Definitions(File(decls)) == Some(TestLine(t0) + TestLine(t1) + TestLine(t2) + TestLine(t3) + TestLine(t4))
  {
    FileDefinitions(decls);
    var rest := decls[1..];
    assert decls == [decls[0]] + rest;
    var names := [t0, t1, t2, t3, t4];
    var cs := ["Dependency", "AsyncFailableDependency", "FailableDependency"];
    assert forall k :: 0 <= k < 5 ==> rest[k].name == names[k] && rest[k].conformances == cs;
    AllMarkersAppend([decls[0]], rest);
    assert [test] + [] == [test] && [test][..0] == [];
    assert [decls[0]][..0] == [];
    assert AllMarkers([decls[0]]) == [];
    UniformMarkers(rest, names);
    assert AllMarkers(decls) == TestLines(names);
    var n1, n2, n3, n4 := [t0], [t0, t1], [t0, t1, t2], [t0, t1, t2, t3];
    assert n1[..0] == [] && n2[..1] == n1 && n3[..2] == n2 && n4[..3] == n3 && names[..4] == n4;
    assert TestLines(n1) == TestLine(t0);
    assert TestLines(n2) == TestLine(t0) + TestLine(t1);
    assert TestLines(n3) == TestLine(t0) + TestLine(t1) + TestLine(t2);
    assert TestLines(n4) == TestLine(t0) + TestLine(t1) + TestLine(t2) + TestLine(t3);
  }

  /** The definitions of two stretches of declarations, one after the other. */
  lemma {:induction false} AllMarkersAppend(a: seq<Decl>, b: seq<Decl>)
    ensures AllMarkers(a + b) == AllMarkers(a) + AllMarkers(b)
    decreases |b|
  {
    if b == [] {
      assert a + b == a;
    } else {
      var front := b[..|b| - 1];
      var d := b[|b| - 1];
      AllMarkersAppend(a, front);
      assert (a + b)[..|a + b| - 1] == a + front;
      var added := Markers(d.name, [d.name] + d.conformances);
      assert AllMarkers(a + b) == AllMarkers(a + front) + added;
      assert AllMarkers(b) == AllMarkers(front) + added;
      AppendAssociates(AllMarkers(a), AllMarkers(front), added);
    }
  }

  /** Declarations of non-marker type names that all conform to the three markers in the test's order yield the test's triples. */
  lemma {:induction false} UniformMarkers(decls: seq<Decl>, names: seq<string>)
    requires |decls| == |names|
    requires forall k :: 0 <= k < |decls| ==>
      && decls[k].name == names[k] && ParseIdentifier(names[k]) == None
      && decls[k].conformances == ["Dependency", "AsyncFailableDependency", "FailableDependency"]
    ensures AllMarkers(decls) == TestLines(names)
    decreases |decls|
  {
    if decls != [] {
      var n := |decls| - 1;
      UniformMarkers(decls[..n], names[..n]);
      TestLineMarkers(names[n]);
    }
  }

  /** The three definitions the test expects for one type: `Dependency`, `AsyncFailableDependency`, `FailableDependency`, in that order. */
  function TestLine(name: string): seq<DependencyDefinition> {
    [DependencyDefinition(name, Dependency), DependencyDefinition(name, AsyncFailableDependency), DependencyDefinition(name, FailableDependency)]
  }

  function TestLines(names: seq<string>): seq<DependencyDefinition>
    decreases |names|
  {
    if names == [] then [] else TestLines(names[..|names| - 1]) + TestLine(names[|names| - 1])
  }

  /** The markers of `Name: Dependency, AsyncFailableDependency, FailableDependency`, for a type name that is not a marker. */
  lemma TestLineMarkers(name: string)
    requires ParseIdentifier(name) == None
    ensures Markers(name, [name] + ["Dependency", "AsyncFailableDependency", "FailableDependency"]) == TestLine(name)
  {
    var ids := [name] + ["Dependency", "AsyncFailableDependency", "FailableDependency"];
    assert ids[..0] == [];
    assert ids[..1] == [name];
    assert ids[..1][..0] == [];
    assert ids[..2][..1] == ids[..1] && ids[..3][..2] == ids[..2] && ids[..4][..3] == ids[..3];
    assert ids[..4] == ids;
    assert Markers(name, ids[..1]) == [];
    assert Markers(name, ids[..2]) == [DependencyDefinition(name, Dependency)];
    assert Markers(name, ids[..3]) == [DependencyDefinition(name, Dependency), DependencyDefinition(name, AsyncFailableDependency)];
  }

  /** An identifier outside any header stops the scanner: a file that starts with one is never scanned. */
  lemma StrayIdentifierTraps(tokens: seq<Token>)
    requires tokens != [] && tokens[0].Identifier?
    ensures Definitions(tokens) == None
  {
    RunAppend(InitialFinder(), [tokens[0]], tokens[1..]);
    assert [tokens[0]] + tokens[1..] == tokens;
    assert [tokens[0]][..0] == [];
  }

  /** The test itself, with its own type names. */
  lemma TestBasicAsWritten()
    ensures
      var cs := ["Dependency", "AsyncFailableDependency", "FailableDependency"];
      var decls := [Decl(StructKeyword, "Test", []), Decl(StructKeyword, "Test0", cs), Decl(ClassKeyword, "Test1", cs),
                    Decl(EnumKeyword, "Test2", cs), Decl(ContextualKeyword("actor"), "Test3", cs), Decl(ExtensionKeyword, "Test4", cs)];
      Definitions(File(decls)) == Some(TestLine("Test0") + TestLine("Test1") + TestLine("Test2") + TestLine("Test3") + TestLine("Test4"))
  {
    var cs := ["Dependency", "AsyncFailableDependency", "FailableDependency"];
    var decls := [Decl(StructKeyword, "Test", []), Decl(StructKeyword, "Test0", cs), Decl(ClassKeyword, "Test1", cs),
                  Decl(EnumKeyword, "Test2", cs), Decl(ContextualKeyword("actor"), "Test3", cs), Decl(ExtensionKeyword, "Test4", cs)];
    TestBasic("Test", "Test0", "Test1", "Test2", "Test3", "Test4", decls);
  }
}
