/**
 * The tool registry of tools.py: the guarded constructors, each of which
 * turns a failure into an absent tool, the calculator wrapper that never
 * raises, and the assembly of the ordered tool list with the browser group
 * and its two handles.
 */
module Tools {
  import opened Wrappers
  import opened Text

  /** A tool as the worker sees it: a name and a description. */
  datatype Tool = Tool(name: string, description: string)

  /** A live object of the browser automation library (a browser, or the driver process). */
  datatype Handle = Handle(id: nat)

  /** What the browser group yields when it starts: its tools and the two handles. */
  datatype BrowserKit = BrowserKit(tools: seq<Tool>, browser: Handle, playwright: Handle)

  /**
   * What each library call inside the guarded constructors does this time:
   * returns, or raises with a message. The file toolkit depends on the
   * sandbox directory it is created in.
   */
  datatype Backends = Backends(
    fileToolkit: string -> Result<seq<Tool>, string>,
    serper: Result<(), string>,
    wikipedia: Result<Tool, string>,
    pythonRepl: Result<Tool, string>,
    arxiv: Result<Tool, string>,
    playwright: Result<BrowserKit, string>)

  const SearchTool: Tool :=
    Tool("search", "Use this tool when you want to get the results of an online web search")
  const CalculatorTool: Tool :=
    Tool("calculator", "Use this tool when you want to do math, provide the expression as a string")
  const CalculatorErrorPrefix: string := "Error: Unable to evaluate expression '"
  /** The directory the file tools work in unless the caller names another. */
  const DefaultSandboxDir: string := "sandbox"

  /**
   * The calculator never raises: it returns the evaluator's text for the
   * result, or an error text that names the expression and quotes the
   * exception. `evaluate` stands for sympy's parse, evaluation and `str`.
   */
  function SafeMathCalculator(expression: string, evaluate: string -> Result<string, string>): (r: string)
    ensures evaluate(expression).Success? ==> r == evaluate(expression).value
    ensures evaluate(expression).Failure? ==>
      && IsPrefix(CalculatorErrorPrefix + expression + "'.", r)
      && IsInfix(evaluate(expression).error, r)
  {
    match evaluate(expression)
    case Success(v) => v
    case Failure(e) =>
      var head := CalculatorErrorPrefix + expression + "'.";
      PrefixOfConcat(head, " " + e);
      InfixAtEnd(head + " ", e);
      assert head + " " + e == head + (" " + e);
      head + " " + e
  }

  /** The web search tool, built on the search wrapper; absent when the wrapper raises. */
  function CreateSearchTool(serper: Result<(), string>): Option<Tool>
  {
    if serper.Success? then Some(SearchTool) else None
  }

  /** The math tools: the calculator alone. */
  function CreateMathTool(): seq<Tool>
  {
    [CalculatorTool]
  }

  /** The file tools of the sandbox; none when the toolkit raises. */
  function CreateFileTools(toolkit: Result<seq<Tool>, string>): seq<Tool>
  {
    match toolkit
    case Success(ts) => ts
    case Failure(_) => []
  }

  /** A tool the library builds (encyclopedia, code runner, paper search); absent when building raises. */
  function CreateLibraryTool(built: Result<Tool, string>): Option<Tool>
  {
    match built
    case Success(t) => Some(t)
    case Failure(_) => None
  }

  /** The browser group: its tools and both handles, or no tools and no handles when starting raises. */
  function CreatePlaywrightTools(kit: Result<BrowserKit, string>): (r: (seq<Tool>, Option<Handle>, Option<Handle>))
    ensures kit.Failure? ==> r == ([], None, None)
    ensures kit.Success? ==> r == (kit.value.tools, Some(kit.value.browser), Some(kit.value.playwright))
    ensures r.1.Some? <==> r.2.Some?
  {
    match kit
    case Success(k) => (k.tools, Some(k.browser), Some(k.playwright))
    case Failure(_) => ([], None, None)
  }

  /** An optional tool as a list of zero or one tools. */
  function Present(t: Option<Tool>): seq<Tool>
  {
    if t.Some? then [t.value] else []
  }

  /** The tool list in its fixed order: file tools, search, calculator, encyclopedia, code runner, paper search. */
  function Registry(b: Backends, sandboxDir: string): seq<Tool>
  {
    CreateFileTools(b.fileToolkit(sandboxDir))
    + Present(CreateSearchTool(b.serper))
    + CreateMathTool()
    + Present(CreateLibraryTool(b.wikipedia))
    + Present(CreateLibraryTool(b.pythonRepl))
    + Present(CreateLibraryTool(b.arxiv))
  }

  /** The registry, built step by step: extend with the file tools, append each present tool. */
  method GetTools(b: Backends, sandboxDir: string) returns (tools: seq<Tool>)
    ensures tools == Registry(b, sandboxDir)
  {
    tools := [];
    var fileTools := CreateFileTools(b.fileToolkit(sandboxDir));
    tools := tools + fileTools;
    assert tools == fileTools;
    var searchTool := CreateSearchTool(b.serper);
    if searchTool.Some? {
      tools := tools + [searchTool.value];
    }
    assert tools == fileTools + Present(searchTool);
    var mathTool := CreateMathTool();
    tools := tools + mathTool;
    var wikiTool := CreateLibraryTool(b.wikipedia);
    if wikiTool.Some? {
      tools := tools + [wikiTool.value];
    }
    assert tools == fileTools + Present(searchTool) + mathTool + Present(wikiTool);
    var pythonTool := CreateLibraryTool(b.pythonRepl);
    if pythonTool.Some? {
      tools := tools + [pythonTool.value];
    }
    assert tools == fileTools + Present(searchTool) + mathTool + Present(wikiTool) + Present(pythonTool);
    var arxivTool := CreateLibraryTool(b.arxiv);
    if arxivTool.Some? {
      tools := tools + [arxivTool.value];
    }
    assert tools == fileTools + Present(searchTool) + mathTool + Present(wikiTool) + Present(pythonTool) + Present(arxivTool);
  }

  /** The registry followed by the browser tools, with the browser group's two handles. */
  function AllToolsWithBrowser(b: Backends, sandboxDir: string): (seq<Tool>, Option<Handle>, Option<Handle>)
  {
    var group := CreatePlaywrightTools(b.playwright);
    (Registry(b, sandboxDir) + group.0, group.1, group.2)
  }

  /** The registry, then the browser group appended to it. */
  method GetAllToolsWithBrowser(b: Backends, sandboxDir: string)
    returns (tools: seq<Tool>, browser: Option<Handle>, playwright: Option<Handle>)
    ensures (tools, browser, playwright) == AllToolsWithBrowser(b, sandboxDir)
  {
    tools := GetTools(b, sandboxDir);
    var group := CreatePlaywrightTools(b.playwright);
    tools := tools + group.0;
    browser, playwright := group.1, group.2;
  }

  /** The calculator is always in the registry, right after the file tools and the search tool. */
  lemma CalculatorAlwaysIncluded(b: Backends, sandboxDir: string)
    ensures var k := |CreateFileTools(b.fileToolkit(sandboxDir))| + |Present(CreateSearchTool(b.serper))|;
      k < |Registry(b, sandboxDir)| && Registry(b, sandboxDir)[k] == CalculatorTool
    ensures CalculatorTool in Registry(b, sandboxDir)
  {
  }

  /**
   * A tool is in the registry exactly when it is a file tool, or one of the
   * optional constructors built it, or it is the calculator.
   */
  lemma RegistryMembers(b: Backends, sandboxDir: string, t: Tool)
    ensures t in Registry(b, sandboxDir) <==>
      || t in CreateFileTools(b.fileToolkit(sandboxDir))
      || (b.serper.Success? && t == SearchTool)
      || t == CalculatorTool
      || b.wikipedia == Success(t)
      || b.pythonRepl == Success(t)
      || b.arxiv == Success(t)
  {
  }

  /** Every present optional tool is appended exactly once: the size counts the ones that were built. */
  lemma RegistrySize(b: Backends, sandboxDir: string)
    ensures |Registry(b, sandboxDir)| ==
      |CreateFileTools(b.fileToolkit(sandboxDir))| + 1
      + (if b.serper.Success? then 1 else 0)
      + (if b.wikipedia.Success? then 1 else 0)
      + (if b.pythonRepl.Success? then 1 else 0)
      + (if b.arxiv.Success? then 1 else 0)
  {
  }

  /** The optional single tools of the registry. */
  datatype Optional = Search | Wikipedia | PythonRepl | Arxiv

  /** The constructor for `slot` succeeds. */
  predicate Builds(b: Backends, slot: Optional)
  {
    match slot
    case Search => b.serper.Success?
    case Wikipedia => b.wikipedia.Success?
    case PythonRepl => b.pythonRepl.Success?
    case Arxiv => b.arxiv.Success?
  }

  /** The same backends, except that the library call for `slot` raises `e`. */
  function Break(b: Backends, slot: Optional, e: string): Backends
  {
    match slot
    case Search => b.(serper := Failure(e))
    case Wikipedia => b.(wikipedia := Failure(e))
    case PythonRepl => b.(pythonRepl := Failure(e))
    case Arxiv => b.(arxiv := Failure(e))
  }

  /** Where the tool of `slot` sits in the registry when it is built. */
  function Position(b: Backends, sandboxDir: string, slot: Optional): nat
  {
    var files := |CreateFileTools(b.fileToolkit(sandboxDir))|;
    var search := |Present(CreateSearchTool(b.serper))|;
    var wiki := |Present(CreateLibraryTool(b.wikipedia))|;
    var python := |Present(CreateLibraryTool(b.pythonRepl))|;
    match slot
    case Search => files
    case Wikipedia => files + search + 1
    case PythonRepl => files + search + 1 + wiki
    case Arxiv => files + search + 1 + wiki + python
  }

  /** The registry's six parts, concatenated in order. */
  function Assemble(files: seq<Tool>, search: seq<Tool>, math: seq<Tool>, wiki: seq<Tool>, python: seq<Tool>, arxiv: seq<Tool>): seq<Tool>
  {
    files + search + math + wiki + python + arxiv
  }

  lemma RegistryParts(b: Backends, sandboxDir: string)
    ensures Registry(b, sandboxDir) == Assemble(
      CreateFileTools(b.fileToolkit(sandboxDir)), Present(CreateSearchTool(b.serper)), CreateMathTool(),
      Present(CreateLibraryTool(b.wikipedia)), Present(CreateLibraryTool(b.pythonRepl)), Present(CreateLibraryTool(b.arxiv)))
  {
  }

  lemma Splice(front: seq<Tool>, x: Tool, rest: seq<Tool>)
    ensures var r := front + [x] + rest;
      |front| < |r| && r[..|front|] + r[|front| + 1..] == front + rest
  {
    var r := front + [x] + rest;
    assert r[..|front|] == front;
    assert r[|front| + 1..] == rest;
  }

  /** Dropping the one tool of the search part of an assembly. */
  lemma DropSearchPart(f: seq<Tool>, x: Tool, m: seq<Tool>, w: seq<Tool>, p: seq<Tool>, a: seq<Tool>)
    ensures var r := Assemble(f, [x], m, w, p, a);
      |f| < |r| && r[..|f|] + r[|f| + 1..] == Assemble(f, [], m, w, p, a)
  {
    assert Assemble(f, [x], m, w, p, a) == f + [x] + (m + w + p + a);
    assert Assemble(f, [], m, w, p, a) == f + (m + w + p + a);
    Splice(f, x, m + w + p + a);
  }

  lemma DropWikiPart(f: seq<Tool>, s: seq<Tool>, m: seq<Tool>, x: Tool, p: seq<Tool>, a: seq<Tool>)
    ensures var r := Assemble(f, s, m, [x], p, a);
      var k := |f| + |s| + |m|;
      k < |r| && r[..k] + r[k + 1..] == Assemble(f, s, m, [], p, a)
  {
    assert Assemble(f, s, m, [x], p, a) == (f + s + m) + [x] + (p + a);
    assert Assemble(f, s, m, [], p, a) == (f + s + m) + (p + a);
    Splice(f + s + m, x, p + a);
  }

  lemma DropPythonPart(f: seq<Tool>, s: seq<Tool>, m: seq<Tool>, w: seq<Tool>, x: Tool, a: seq<Tool>)
    ensures var r := Assemble(f, s, m, w, [x], a);
      var k := |f| + |s| + |m| + |w|;
      k < |r| && r[..k] + r[k + 1..] == Assemble(f, s, m, w, [], a)
  {
    assert Assemble(f, s, m, w, [x], a) == (f + s + m + w) + [x] + a;
    assert Assemble(f, s, m, w, [], a) == (f + s + m + w) + a;
    Splice(f + s + m + w, x, a);
  }

  lemma DropArxivPart(f: seq<Tool>, s: seq<Tool>, m: seq<Tool>, w: seq<Tool>, p: seq<Tool>, x: Tool)
    ensures var r := Assemble(f, s, m, w, p, [x]);
      var k := |f| + |s| + |m| + |w| + |p|;
      k < |r| && r[..k] + r[k + 1..] == Assemble(f, s, m, w, p, [])
  {
    assert Assemble(f, s, m, w, p, [x]) == (f + s + m + w + p) + [x] + [];
    assert Assemble(f, s, m, w, p, []) == (f + s + m + w + p) + [];
    Splice(f + s + m + w + p, x, []);
  }

  lemma OmitSearch(b: Backends, sandboxDir: string, e: string)
    requires Builds(b, Search)
    ensures var r := Registry(b, sandboxDir);
      var k := Position(b, sandboxDir, Search);
      k < |r| && Registry(Break(b, Search, e), sandboxDir) == r[..k] + r[k + 1..]
  {
    var f := CreateFileTools(b.fileToolkit(sandboxDir));
    var s := Present(CreateSearchTool(b.serper));
    var m := CreateMathTool();
    var w := Present(CreateLibraryTool(b.wikipedia));
    var p := Present(CreateLibraryTool(b.pythonRepl));
    var a := Present(CreateLibraryTool(b.arxiv));
    RegistryParts(b, sandboxDir);
    var broken := b.(serper := Failure(e));
    assert Present(CreateSearchTool(broken.serper)) == [];
    RegistryParts(broken, sandboxDir);
    assert Registry(broken, sandboxDir) == Assemble(f, [], m, w, p, a);
    assert s == [SearchTool];
    DropSearchPart(f, SearchTool, m, w, p, a);
  }

  lemma OmitWikipedia(b: Backends, sandboxDir: string, e: string)
    requires Builds(b, Wikipedia)
    ensures var r := Registry(b, sandboxDir);
      var k := Position(b, sandboxDir, Wikipedia);
      k < |r| && Registry(Break(b, Wikipedia, e), sandboxDir) == r[..k] + r[k + 1..]
  {
    var f := CreateFileTools(b.fileToolkit(sandboxDir));
    var s := Present(CreateSearchTool(b.serper));
    var m := CreateMathTool();
    var w := Present(CreateLibraryTool(b.wikipedia));
    var p := Present(CreateLibraryTool(b.pythonRepl));
    var a := Present(CreateLibraryTool(b.arxiv));
    RegistryParts(b, sandboxDir);
    RegistryParts(b.(wikipedia := Failure(e)), sandboxDir);
    assert w == [b.wikipedia.value];
    DropWikiPart(f, s, m, b.wikipedia.value, p, a);
  }

  lemma OmitPythonRepl(b: Backends, sandboxDir: string, e: string)
    requires Builds(b, PythonRepl)
    ensures var r := Registry(b, sandboxDir);
      var k := Position(b, sandboxDir, PythonRepl);
      k < |r| && Registry(Break(b, PythonRepl, e), sandboxDir) == r[..k] + r[k + 1..]
  {
    var f := CreateFileTools(b.fileToolkit(sandboxDir));
    var s := Present(CreateSearchTool(b.serper));
    var m := CreateMathTool();
    var w := Present(CreateLibraryTool(b.wikipedia));
    var p := Present(CreateLibraryTool(b.pythonRepl));
    var a := Present(CreateLibraryTool(b.arxiv));
    RegistryParts(b, sandboxDir);
    RegistryParts(b.(pythonRepl := Failure(e)), sandboxDir);
    assert p == [b.pythonRepl.value];
    DropPythonPart(f, s, m, w, b.pythonRepl.value, a);
  }

  lemma OmitArxiv(b: Backends, sandboxDir: string, e: string)
    requires Builds(b, Arxiv)
    ensures var r := Registry(b, sandboxDir);
      var k := Position(b, sandboxDir, Arxiv);
      k < |r| && Registry(Break(b, Arxiv, e), sandboxDir) == r[..k] + r[k + 1..]
  {
    var f := CreateFileTools(b.fileToolkit(sandboxDir));
    var s := Present(CreateSearchTool(b.serper));
    var m := CreateMathTool();
    var w := Present(CreateLibraryTool(b.wikipedia));
    var p := Present(CreateLibraryTool(b.pythonRepl));
    var a := Present(CreateLibraryTool(b.arxiv));
    RegistryParts(b, sandboxDir);
    RegistryParts(b.(arxiv := Failure(e)), sandboxDir);
    assert a == [b.arxiv.value];
    DropArxivPart(f, s, m, w, p, b.arxiv.value);
  }

  /**
   * One failing constructor costs only its own tool: the registry with that
   * constructor raising is the registry with it succeeding, less the one tool
   * at its position; every other tool keeps its order.
   */
  lemma FailureOmitsOnlyThatTool(b: Backends, sandboxDir: string, slot: Optional, e: string)
    requires Builds(b, slot)
    ensures var r := Registry(b, sandboxDir);
      var k := Position(b, sandboxDir, slot);
      k < |r| && Registry(Break(b, slot, e), sandboxDir) == r[..k] + r[k + 1..]
  {
    match slot {
      case Search => OmitSearch(b, sandboxDir, e);
      case Wikipedia => OmitWikipedia(b, sandboxDir, e);
      case PythonRepl => OmitPythonRepl(b, sandboxDir, e);
      case Arxiv => OmitArxiv(b, sandboxDir, e);
    }
  }

  /**
   * The browser tools come after the whole registry; when the browser group
   * fails there are no browser tools and neither handle, otherwise both
   * handles are the group's own.
   */
  lemma BrowserGroupLast(b: Backends, sandboxDir: string)
    ensures var (tools, browser, playwright) := AllToolsWithBrowser(b, sandboxDir);
      && tools[..|Registry(b, sandboxDir)|] == Registry(b, sandboxDir)
      && (b.playwright.Failure? ==> tools == Registry(b, sandboxDir) && browser == None && playwright == None)
      && (b.playwright.Success? ==>
            && tools[|Registry(b, sandboxDir)|..] == b.playwright.value.tools
            && browser == Some(b.playwright.value.browser)
            && playwright == Some(b.playwright.value.playwright))
  {
    var r := Registry(b, sandboxDir);
    var group := CreatePlaywrightTools(b.playwright);
    assert (r + group.0)[..|r|] == r;
    assert (r + group.0)[|r|..] == group.0;
    if b.playwright.Failure? {
      assert r + [] == r;
    }
  }
}
