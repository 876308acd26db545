/**
 * The decorator-style code generator: it loads a user package, keeps the
 * exported symbols (typically the variables the SDK wrappers return) whose
 * type is a plain HTTP handler or a Pub/Sub handler, and renders, for those triggers, a discovery program each and
 * the header, routes and `main` of one HTTP server program.
 *
 * Templates are rendered as string concatenation: `text/template` inserts
 * the fields verbatim and its parse and execute steps cannot fail on these
 * fixed templates and struct inputs, so the renderers return strings.
 */
module DecoratorDiscovery {
  import opened Wrappers
  import opened Text
  import opened GoModel
  import opened GoPackages
  import Sdk

  const HttpTriggerType := "func(net/http.ResponseWriter, *net/http.Request)"
  const PubSubTriggerType := "func(ctx context.Context, data encoding/json.RawMessage)"
  const TriggerTypes := [HttpTriggerType, PubSubTriggerType]

  function UnsupportedMessage(typeName: string): string
  {
    "Unsupported trigger type: " + typeName
  }

  /** `isTrigger`: an exported symbol whose type is one of the two trigger types. */
  predicate IsTrigger(sym: Symbol)
    ensures IsTrigger(sym) <==> sym.exported && (sym.typeString == HttpTriggerType || sym.typeString == PubSubTriggerType)
  {
    ListedExport(sym, TriggerTypes)
  }

  /**
   * `loadExports` as written: on package errors it returns the (nil) error
   * of the successful load, so no error and no symbols come back.
   */
  method LoadExportsAsWritten(pkg: Package) returns (r: Result<seq<Symbol>, string>)
    ensures pkg.loadError.None? && pkg.errorCount > 0 ==> r == Success([])
    ensures pkg.loadError.Some? || pkg.errorCount == 0 ==> r == Exports(pkg, IsTrigger)
  {
    if pkg.loadError.Some? {
      return Failure(pkg.loadError.value);
    }
    if pkg.errorCount > 0 {
      return Success([]);
    }
    var results := CollectExports(pkg.scope, IsTrigger);
    if results == [] {
      return Failure(NoExportedMemberMessage);
    }
    return Success(results);
  }

  /** A trigger found in package `pkg`: an HTTP handler or a Pub/Sub handler named `funcName`. */
  datatype Trigger = HTTPTrigger(pkg: string, funcName: string) | PubSubTrigger(pkg: string, funcName: string)
  {
    /** The trigger is identified by its kind, its package and the name `Name` reports. */
    function Name(): (name: string)
      ensures this == HTTPTrigger(pkg, name) || this == PubSubTrigger(pkg, name)
    {
      funcName
    }

    /**
     * The discovery program as evidently intended: the handler's arguments
     * in the order its type declares (`discover(nil, req)` for an HTTP
     * handler) and only the imports `main` uses (no `fmt` for Pub/Sub). It
     * ends by calling the handler with arguments that fit it.
     */
    function Discover(): (text: string)
      ensures ArgsFit(CorrectedDiscoveryArgs(HTTPTrigger?), TriggerParams(HTTPTrigger?))
      ensures OccursAt(DiscoverInvocation(CorrectedDiscoveryArgs(HTTPTrigger?)), text,
        |text| - |DiscoverInvocation(CorrectedDiscoveryArgs(HTTPTrigger?))|)
    {
      InvocationEndsProgram(pkg, funcName, HTTPTrigger?, CorrectedDiscoveryImports(HTTPTrigger?), CorrectedDiscoveryArgs(HTTPTrigger?));
      DiscoveryProgram(pkg, funcName, HTTPTrigger?, CorrectedDiscoveryImports(HTTPTrigger?), CorrectedDiscoveryArgs(HTTPTrigger?))
    }

    /**
     * The discovery program as the templates write it: `discover(req, nil)`
     * for an HTTP handler, and an import of `fmt` for a Pub/Sub one.
     */
    function DiscoverAsWritten(): (text: string)
      ensures OccursAt(DiscoverInvocation(DiscoveryArgs(HTTPTrigger?)), text,
        |text| - |DiscoverInvocation(DiscoveryArgs(HTTPTrigger?))|)
    {
      InvocationEndsProgram(pkg, funcName, HTTPTrigger?, DiscoveryImports(HTTPTrigger?), DiscoveryArgs(HTTPTrigger?));
      DiscoveryProgram(pkg, funcName, HTTPTrigger?, DiscoveryImports(HTTPTrigger?), DiscoveryArgs(HTTPTrigger?))
    }

    /** The HTTP route of the generated server: a handler named after the trigger that calls it. */
    function Route(): (text: string)
      ensures OccursAt(RouteOpening(Name()), text, 0)
      ensures exists k :: OccursAt(CallLine(Name(), HTTPTrigger?), text, k)
    {
      var call := CallLine(funcName, HTTPTrigger?);
      if HTTPTrigger? then
        OccursInMiddle(RouteOpening(funcName), call, "}\n");
        RouteOpening(funcName) + call + "}\n"
      else
        OccursInMiddle(RouteOpening(funcName) + PubSubRouteReadBody, call, PubSubRouteTail);
        RouteOpening(funcName) + PubSubRouteReadBody + call + PubSubRouteTail
    }
  }

  /** The line of a route that calls the user function: with the writer and request, or the context and body. */
  function CallLine(name: string, http: bool): string
  {
    "\talias." + name + "(" + (if http then "w, r" else "r.Context(), data") + ")\n"
  }

  function AliasImport(pkg: string): string
  {
    "\talias \"" + pkg + "\"\n"
  }

  /** An import of a discovery program: its path, and the name its package declares. */
  datatype GoImport = GoImport(path: string, name: string)

  const ContextImport := GoImport("context", "context")
  const HttpImport := GoImport("net/http", "http")
  const FmtImport := GoImport("fmt", "fmt")

  /** The standard imports the discovery templates list: `net/http` for HTTP, `fmt` for Pub/Sub. */
  function DiscoveryImports(http: bool): seq<GoImport>
  {
    if http then [ContextImport, HttpImport] else [ContextImport, FmtImport]
  }

  /** The standard imports the discovery programs use: the Pub/Sub one has no use for `fmt`. */
  function CorrectedDiscoveryImports(http: bool): seq<GoImport>
  {
    if http then [ContextImport, HttpImport] else [ContextImport]
  }

  function ImportPaths(imports: seq<GoImport>): (paths: seq<string>)
    ensures |paths| == |imports| && forall i :: 0 <= i < |imports| ==> paths[i] == imports[i].path
  {
    seq(|imports|, i requires 0 <= i < |imports| => imports[i].path)
  }

  const DiscoveryOpening := "package main\n\nimport (\n"

  /** The package clause and the standard imports, up to the blank line before the `alias` import. */
  function DiscoveryHead(imports: seq<GoImport>): string
  {
    DiscoveryOpening + Concat(ImportLines(ImportPaths(imports))) + "\n"
  }

  const DiscoverSelect := "\tdiscover := alias."

  function DiscoverLine(name: string): string
  {
    DiscoverSelect + name + "\n"
  }

  /** An argument a discovery program passes to `discover`. */
  datatype CallArg = NilArg | CtxArg | ReqArg
  {
    /** The Go expression the template writes for it. */
    function Text(): string
    {
      match this
      case NilArg => "nil"
      case CtxArg => "ctx"
      case ReqArg => "req"
    }
  }

  /** The two arguments of the `discover(...)` call. */
  datatype CallArgs = CallArgs(first: CallArg, second: CallArg)

  /** `json.RawMessage`, a byte slice. */
  const RawMessageType := Named("encoding/json.RawMessage")

  /** The parameter types of a trigger's function: the HTTP handler's, or `(context.Context, json.RawMessage)`. */
  function TriggerParams(http: bool): seq<GoType>
  {
    if http then HttpHandlerType.params else [ContextType, RawMessageType]
  }

  /**
   * Whether an argument can be passed for a parameter: `nil` fits the
   * interface, pointer and slice parameters of the two trigger types, `ctx`
   * (a `context.Context`) fits only `context.Context`, and `req` (an
   * `*http.Request`, which has no `Header`, `Write` or `WriteHeader` method)
   * fits only `*http.Request`.
   */
  predicate Fits(a: CallArg, param: GoType)
  {
    match a
    case NilArg => param.Ptr? || param.Func? || param in {ContextType, ResponseWriterType, RawMessageType}
    case CtxArg => param == ContextType
    case ReqArg => param == Ptr(RequestType)
  }

  predicate ArgsFit(args: CallArgs, params: seq<GoType>)
  {
    |params| == 2 && Fits(args.first, params[0]) && Fits(args.second, params[1])
  }

  /** The arguments the discovery templates pass: `(req, nil)` for HTTP, `(ctx, nil)` for Pub/Sub. */
  function DiscoveryArgs(http: bool): CallArgs
  {
    if http then CallArgs(ReqArg, NilArg) else CallArgs(CtxArg, NilArg)
  }

  /** The arguments in the order the handler types declare: `(nil, req)` for HTTP, `(ctx, nil)` for Pub/Sub. */
  function CorrectedDiscoveryArgs(http: bool): CallArgs
  {
    if http then CallArgs(NilArg, ReqArg) else CallArgs(CtxArg, NilArg)
  }

  /** The closing line of a discovery program: the call of the handler, and the end of `main`. */
  function DiscoverInvocation(args: CallArgs): string
  {
    "\tdiscover(" + args.first.Text() + ", " + args.second.Text() + ")\n}\n"
  }

  const DiscoveryMainOpening := ")\n\nfunc main() {\n"

  /** What follows the `alias` import: the end of the import block, and `main`. */
  function DiscoveryMain(name: string, http: bool, args: CallArgs): string
  {
    DiscoverySetup(name, http) + DiscoverInvocation(args)
  }

  /** `main` up to the call of the handler: its selection, the context and, for HTTP, the request. */
  function DiscoverySetup(name: string, http: bool): string
  {
    DiscoveryMainOpening + DiscoverLine(name) + DiscoveryContextLine + (if http then RequestLines else "")
  }

  /** The discovery program of function `name` in package `pkg`, importing `imports` and calling it with `args`. */
  function DiscoveryProgram(pkg: string, name: string, http: bool, imports: seq<GoImport>, args: CallArgs): string
  {
    DiscoveryHead(imports) + AliasImport(pkg) + DiscoveryMain(name, http, args)
  }

  /** A discovery program ends with its call of the handler. */
  lemma InvocationEndsProgram(pkg: string, name: string, http: bool, imports: seq<GoImport>, args: CallArgs)
    ensures OccursAt(DiscoverInvocation(args), DiscoveryProgram(pkg, name, http, imports, args),
      |DiscoveryProgram(pkg, name, http, imports, args)| - |DiscoverInvocation(args)|)
  {
    OccursLast(DiscoveryHead(imports) + AliasImport(pkg), DiscoverySetup(name, http), DiscoverInvocation(args));
  }

  /**
   * Each discovery program imports the user package as `alias`, takes the
   * trigger's function from it, and builds the discovery context before
   * calling it.
   */
  lemma DiscoveryProgramShape(t: Trigger)
    ensures OccursAt(AliasImport(t.pkg), t.Discover(), |DiscoveryHead(CorrectedDiscoveryImports(t.HTTPTrigger?))|)
    ensures exists k :: OccursAt(DiscoverLine(t.Name()), t.Discover(), k)
    ensures exists k :: OccursAt(DiscoveryContextLine, t.Discover(), k)
  {
    var http := t.HTTPTrigger?;
    var p1, p2, p3 := DiscoveryHead(CorrectedDiscoveryImports(http)), AliasImport(t.pkg), DiscoveryMainOpening;
    var p4, p5 := DiscoverLine(t.funcName), DiscoveryContextLine;
    var request, inv := if http then RequestLines else "", DiscoverInvocation(CorrectedDiscoveryArgs(http));
    var main := DiscoveryMain(t.funcName, http, CorrectedDiscoveryArgs(http));
    OccursInMiddle(p1, p2, main);
    OccursInMiddle(p3, p4, p5);
    OccursBefore(p4, p3 + p4 + p5, |p3|, request);
    OccursBefore(p4, DiscoverySetup(t.funcName, http), |p3|, inv);
    OccursAfter(p4, main, |p3|, p1 + p2);
    OccursInMiddle(p3 + p4, p5, request);
    OccursBefore(p5, DiscoverySetup(t.funcName, http), |p3 + p4|, inv);
    OccursAfter(p5, main, |p3 + p4|, p1 + p2);
    assert t.Discover() == p1 + p2 + main;
    assert DiscoverLine(t.Name()) == p4;
  }

  /** `ctx := context.WithValue(context.Background(), "firebase_discovery", true)` */
  const DiscoveryContextLine :=
    ContextSelect + "WithValue(context." + "Background(), \"" + DiscoveryKey + "\", true)\n"

  const ContextSelect := "\tctx := context."

  const RequestSelect := "\treq, err := http."

  /** The request the HTTP discovery program builds around the discovery context. */
  const RequestLines :=
    RequestSelect + "NewRequestWithContext(ctx, http.MethodGet, \"http://example\", nil)\n"
    + "\tif err != nil {\n\t\tpanic(err)\n\t}\n"

  /**
   * Every import's package is used: its name followed by a selector dot
   * occurs in `main`. Go refuses a program with an import not used so.
   */
  ghost predicate ImportsUsed(imports: seq<GoImport>, main: string)
  {
    forall i :: 0 <= i < |imports| ==> Uses(imports[i], main)
  }

  /** `main` selects from the package `imp` imports. */
  ghost predicate Uses(imp: GoImport, main: string)
  {
    exists k :: OccursAt(imp.name + ".", main, k)
  }

  /** The discovery context line, after its line break, holds no `m`. */
  lemma ContextLineHasNoM()
    ensures NoChar("\n" + DiscoveryContextLine, 'm')
  {
    var a1, a2, a3, a4 := ContextSelect, "WithValue(context.", "Background(), \"", "\", true)\n";
    forall i | 0 <= i < |a1| ensures a1[i] != 'm' { }
    forall i | 0 <= i < |a2| ensures a2[i] != 'm' { }
    forall i | 0 <= i < |a3| ensures a3[i] != 'm' { }
    forall i | 0 <= i < |a4| ensures a4[i] != 'm' { }
    forall i | 0 <= i < |DiscoveryKey| ensures DiscoveryKey[i] != 'm' { }
    NoCharConcat("\n", a1, 'm');
    NoCharConcat("\n" + a1, a2, 'm');
    NoCharConcat("\n" + a1 + a2, a3, 'm');
    NoCharConcat("\n" + a1 + a2 + a3, DiscoveryKey, 'm');
    NoCharConcat("\n" + a1 + a2 + a3 + DiscoveryKey, a4, 'm');
  }

  /** The call of the handler holds no `m`. */
  lemma InvocationHasNoM(args: CallArgs)
    ensures NoChar(DiscoverInvocation(args), 'm')
  {
    var i1, i2, i3 := "\tdiscover(", ", ", ")\n}\n";
    forall i | 0 <= i < |i1| ensures i1[i] != 'm' { }
    forall i | 0 <= i < |i2| ensures i2[i] != 'm' { }
    forall i | 0 <= i < |i3| ensures i3[i] != 'm' { }
    ArgTextPlain(args.first);
    ArgTextPlain(args.second);
    NoCharConcat(i1, args.first.Text(), 'm');
    NoCharConcat(i1 + args.first.Text(), i2, 'm');
    NoCharConcat(i1 + args.first.Text() + i2, args.second.Text(), 'm');
    NoCharConcat(i1 + args.first.Text() + i2 + args.second.Text(), i3, 'm');
  }

  /** What follows the handler's name in the Pub/Sub `main` holds no `fmt.`, and starts without a dot. */
  lemma PubSubRestHasNoFmtSelector(args: CallArgs)
    ensures Absent("fmt.", "\n" + DiscoveryContextLine + DiscoverInvocation(args))
    ensures forall j :: 0 <= j < 3 ==> ("\n" + DiscoveryContextLine + DiscoverInvocation(args))[j] != '.'
  {
    var line, inv := "\n" + DiscoveryContextLine, DiscoverInvocation(args);
    ContextLineHasNoM();
    InvocationHasNoM(args);
    NoCharConcat(line, inv, 'm');
    AbsentByChar("fmt.", line + inv, 1);
    assert line[..3] == "\n\tc";
    forall j | 0 <= j < 3 ensures (line + inv)[j] != '.' {
      assert (line + inv)[j] == line[..3][j];
    }
  }

  /** The Pub/Sub `main` selects nothing from a package named `fmt`. */
  lemma PubSubMainHasNoFmtSelector(name: string, args: CallArgs)
    requires NoChar(name, '.')
    ensures Absent("fmt.", DiscoveryMain(name, false, args))
  {
    var o, d := DiscoveryMainOpening, DiscoverSelect;
    forall i | 0 <= i < |o| ensures o[i] != '.' { }
    forall i | 0 <= i < |d| ensures d[i] != 'm' { }
    var r := "\n" + DiscoveryContextLine + DiscoverInvocation(args);
    PubSubRestHasNoFmtSelector(args);
    AbsentByChar("fmt.", name, 3);
    AbsentByChar("fmt.", d, 1);
    AbsentByChar("fmt.", o, 3);
    AbsentSplit("fmt.", name, r);
    forall j | 0 <= j < 3 && j < |name + r|
      ensures (name + r)[j] != '.'
    {
      if j >= |name| {
        assert (name + r)[j] == r[j - |name|];
      }
    }
    AbsentSplit("fmt.", d, name + r);
    assert d[..3] == "\tdi";
    forall j | 0 <= j < 3 ensures (d + (name + r))[j] != '.' {
      assert (d + (name + r))[j] == d[..3][j];
    }
    AbsentSplit("fmt.", o, d + (name + r));
    assert DiscoveryMain(name, false, args) == o + (d + (name + r));
  }

  /** The argument expressions select nothing: they hold neither a dot nor an `m`. */
  lemma ArgTextPlain(a: CallArg)
    ensures NoChar(a.Text(), 'm') && NoChar(a.Text(), '.')
  {
    var t := a.Text();
    forall i | 0 <= i < |t| ensures t[i] != 'm' && t[i] != '.' { }
  }

  /**
   * The Pub/Sub discovery template imports `fmt`, yet nothing after the
   * import block selects from it, whatever the handler's name (a Go
   * identifier, so without a dot) and arguments: Go refuses to build the
   * program ("imported and not used").
   */
  lemma PubSubDiscoveryFmtUnused(pkg: string, name: string, args: CallArgs)
    requires NoChar(name, '.')
    ensures OccursAt(ImportLine("fmt"), DiscoveryProgram(pkg, name, false, DiscoveryImports(false), args),
      |DiscoveryOpening| + |ImportLine("context")|)
    ensures forall k :: k >= |DiscoveryHead(DiscoveryImports(false)) + AliasImport(pkg)| ==>
      !OccursAt("fmt.", DiscoveryProgram(pkg, name, false, DiscoveryImports(false), args), k)
    ensures !ImportsUsed(DiscoveryImports(false), DiscoveryMain(name, false, args))
  {
    var main := DiscoveryMain(name, false, args);
    PubSubMainHasNoFmtSelector(name, args);
    var head := DiscoveryHead(DiscoveryImports(false)) + AliasImport(pkg);
    AbsentAfter("fmt.", head, main);
    assert DiscoveryProgram(pkg, name, false, DiscoveryImports(false), args) == head + main;
    PubSubProgramListsFmt(pkg, name, args);
    FmtUnusedIn(main);
  }

  /** A text without `fmt.` does not use the `fmt` import, so the Pub/Sub imports are not all used in it. */
  lemma FmtUnusedIn(main: string)
    requires Absent("fmt.", main)
    ensures !ImportsUsed(DiscoveryImports(false), main)
  {
    assert DiscoveryImports(false)[1].name + "." == "fmt.";
    assert !Uses(DiscoveryImports(false)[1], main);
  }

  /** The Pub/Sub discovery program lists `fmt` among its imports, after `context`. */
  lemma PubSubProgramListsFmt(pkg: string, name: string, args: CallArgs)
    ensures OccursAt(ImportLine("fmt"), DiscoveryProgram(pkg, name, false, DiscoveryImports(false), args),
      |DiscoveryOpening| + |ImportLine("context")|)
  {
    var rest := AliasImport(pkg) + DiscoveryMain(name, false, args);
    FmtImportListed(rest);
    assert DiscoveryProgram(pkg, name, false, DiscoveryImports(false), args) == DiscoveryHead(DiscoveryImports(false)) + rest;
  }

  /** The Pub/Sub template's import block lists `fmt`, after `context`. */
  lemma FmtImportListed(rest: string)
    ensures OccursAt(ImportLine("fmt"), DiscoveryHead(DiscoveryImports(false)) + rest,
      |DiscoveryOpening| + |ImportLine("context")|)
  {
    var lines := ImportLines(ImportPaths(DiscoveryImports(false)));
    assert lines == [ImportLine("context"), ImportLine("fmt")];
    assert Concat(lines) == ImportLine("context") + ImportLine("fmt") by {
      assert Concat(lines) == lines[0] + Concat(lines[1..]);
      assert Concat(lines[1..]) == lines[1] + Concat([]);
    }
    OccursInMiddle(DiscoveryOpening + ImportLine("context"), ImportLine("fmt"), "\n" + rest);
    assert DiscoveryHead(DiscoveryImports(false)) + rest
      == DiscoveryOpening + ImportLine("context") + ImportLine("fmt") + ("\n" + rest);
  }

  /**
   * With `fmt` dropped from the Pub/Sub template, every standard import of
   * either discovery program is used by its `main`: `context.` builds the
   * discovery context and `http.` the request.
   */
  lemma CorrectedDiscoveryImportsUsed(name: string, http: bool)
    ensures ImportsUsed(CorrectedDiscoveryImports(http), DiscoveryMain(name, http, CorrectedDiscoveryArgs(http)))
    ensures FmtImport !in CorrectedDiscoveryImports(http)
  {
    var imports := CorrectedDiscoveryImports(http);
    var main := DiscoveryMain(name, http, CorrectedDiscoveryArgs(http));
    var inv := DiscoverInvocation(CorrectedDiscoveryArgs(http));
    var pre := DiscoveryMainOpening + DiscoverLine(name);
    var request := if http then RequestLines else "";
    forall i | 0 <= i < |imports|
      ensures Uses(imports[i], main)
    {
      if i == 0 {
        ContextSelected(pre, request);
        OccursBefore("context.", DiscoverySetup(name, http), |pre| + 8, inv);
        assert imports[i].name + "." == "context.";
      } else {
        RequestSelectsHttp(pre + DiscoveryContextLine);
        OccursBefore("http.", DiscoverySetup(name, http), |pre + DiscoveryContextLine| + 13, inv);
        assert imports[i].name + "." == "http.";
      }
    }
  }

  /** The discovery context line selects from `context`. */
  lemma ContextSelected(pre: string, post: string)
    ensures OccursAt("context.", pre + DiscoveryContextLine + post, |pre| + 8)
  {
    var rest := DiscoveryContextLine[|ContextSelect|..];
    assert OccursAt("context.", ContextSelect, 8);
    assert OccursAt(ContextSelect, DiscoveryContextLine, 0);
    OccursWithin("context.", ContextSelect, 8, DiscoveryContextLine, 0);
    OccursInMiddle(pre, DiscoveryContextLine, post);
    OccursWithin("context.", DiscoveryContextLine, 8, pre + DiscoveryContextLine + post, |pre|);
  }

  /** The HTTP request lines select from `http`. */
  lemma RequestSelectsHttp(pre: string)
    ensures OccursAt("http.", pre + RequestLines, |pre| + 13)
  {
    var r2 := "NewRequestWithContext(ctx, http.MethodGet, \"http://example\", nil)\n";
    var r3 := "\tif err != nil {\n\t\tpanic(err)\n\t}\n";
    assert OccursAt("http.", RequestSelect, 13);
    OccursBefore("http.", RequestSelect, 13, r2);
    OccursBefore("http.", RequestSelect + r2, 13, r3);
    OccursAfter("http.", RequestLines, 13, pre);
  }



  function RouteOpening(name: string): string
  {
    "\nfunc " + name + "(w http.ResponseWriter, r *http.Request) {\n"
  }

  const PubSubRouteReadBody :=
    "\tdefer r.Body.Close()\n\tb, err := ioutil.ReadAll(r.Body)\n\tif err != nil {\n\t\tpanic(err)\n\t}\n\n"
    + "\tvar data json.RawMessage\n\tif err := json.Unmarshal(b, &data); err != nil {\n\t\tpanic(err)\n\t}\n\n"

  const PubSubRouteTail := "\tw.WriteHeader(http.StatusOK)\n}\n"

  /**
   * The HTTP discovery template passes the request in the writer's place and
   * `nil` in the request's: an `*http.Request` is not an
   * `http.ResponseWriter`, so the program does not compile, and were it to
   * run, the handler would be given no request at all.
   */
  lemma HttpDiscoveryArgsSwapped()
    ensures !ArgsFit(DiscoveryArgs(true), TriggerParams(true))
    ensures !Fits(DiscoveryArgs(true).first, ResponseWriterType)
    ensures DiscoveryArgs(true).second == NilArg
    ensures DiscoverInvocation(DiscoveryArgs(true)) == "\tdiscover(req, nil)\n}\n"
  {
  }

  /** The context the discovery programs build. */
  function DiscoveryContext(): Context
  {
    Context(map[DiscoveryKey := BoolValue(true)])
  }

  /** What `http.NewRequestWithContext(ctx, http.MethodGet, "http://example", nil)` builds: no body. */
  function DiscoveryRequest(): Request
  {
    Request(DiscoveryContext(), "")
  }

  /**
   * With the arguments in declared order, both discovery calls fit the
   * handler's type, and the HTTP one hands the SDK's `OnRequest` wrapper the
   * request carrying the discovery context, so the user handler is not
   * called, whatever the writer (the program passes `nil`).
   */
  lemma CorrectedHttpDiscoverySkipsHandler(callback: CallbackValue, w: ResponseWriter)
    ensures ArgsFit(CorrectedDiscoveryArgs(true), TriggerParams(true))
    ensures ArgsFit(CorrectedDiscoveryArgs(false), TriggerParams(false))
    ensures CorrectedDiscoveryArgs(true).second == ReqArg
    ensures Sdk.OnRequest(callback, w, DiscoveryRequest()) == []
  {
  }

  /**
   * The Pub/Sub discovery program's `discover(ctx, nil)`, where `discover` is
   * the handler `OnPubSubEvent` returned: the wrapper returns before decoding
   * the nil message, calls nothing and leaves its buffer as it was.
   */
  method RunPubSubDiscovery(h: Sdk.PubSubHandler, unmarshal: Sdk.Unmarshaler) returns (outcome: Outcome)
    requires h.Valid()
    modifies h, h.val
    ensures h.Valid()
    ensures outcome == Returned && h.calls == old(h.calls) && h.val.payload == old(h.val.payload)
  {
    assert IsDiscovery(DiscoveryContext());
    outcome := h.Handle(DiscoveryContext(), "", unmarshal);
  }

  /** The trigger a symbol of package `path` maps to, by its type string. */
  function ToTrigger(path: string, sym: Symbol): (t: Option<Trigger>)
    ensures t.Some? <==> sym.typeString in TriggerTypes
    ensures t.Some? ==> t.value.pkg == path && t.value.Name() == sym.name
    ensures t.Some? ==> (t.value.HTTPTrigger? <==> sym.typeString == HttpTriggerType)
  {
    if sym.typeString == HttpTriggerType then Some(HTTPTrigger(path, sym.name))
    else if sym.typeString == PubSubTriggerType then Some(PubSubTrigger(path, sym.name))
    else None
  }

  /** The loop of `extractTriggers` over the loaded exports. */
  method TriggersOf(path: string, exports: seq<Symbol>) returns (r: Result<seq<Trigger>, string>)
    ensures r.Success? <==> forall k :: 0 <= k < |exports| ==> ToTrigger(path, exports[k]).Some?
    ensures r.Success? ==>
      (|r.value| == |exports| && forall k :: 0 <= k < |exports| ==> ToTrigger(path, exports[k]) == Some(r.value[k]))
    ensures r.Failure? ==>
      (exists k :: 0 <= k < |exports| && ToTrigger(path, exports[k]).None? && r.error == UnsupportedMessage(exports[k].typeString))
  {
    var triggers: seq<Trigger> := [];
    var i := 0;
    while i < |exports|
      invariant 0 <= i <= |exports|
      invariant |triggers| == i
      invariant forall k :: 0 <= k < i ==> ToTrigger(path, exports[k]) == Some(triggers[k])
    {
      var trigger := ToTrigger(path, exports[i]);
      if trigger.None? {
        return Failure(UnsupportedMessage(exports[i].typeString));
      }
      triggers := triggers + [trigger.value];
      i := i + 1;
    }
    return Success(triggers);
  }

  /**
   * `extractTriggers` over the corrected loader: it fails exactly when
   * loading fails (every loaded export has a trigger type), and otherwise
   * yields one trigger per export, in order, named after it.
   */
  method ExtractTriggers(pkg: Package) returns (r: Result<seq<Trigger>, string>)
    ensures r.Success? <==> Exports(pkg, IsTrigger).Success?
    ensures r.Failure? ==> r.error == Exports(pkg, IsTrigger).error
    ensures r.Success? ==> |r.value| == |Exports(pkg, IsTrigger).value| && forall k :: 0 <= k < |r.value| ==>
      r.value[k].pkg == pkg.path && r.value[k].Name() == Exports(pkg, IsTrigger).value[k].name
      && (r.value[k].HTTPTrigger? <==> Exports(pkg, IsTrigger).value[k].typeString == HttpTriggerType)
  {
    var exports := LoadExports(pkg, IsTrigger);
    if exports.Failure? {
      return Failure(exports.error);
    }
    forall k | 0 <= k < |exports.value|
      ensures ToTrigger(pkg.path, exports.value[k]).Some?
    {
      assert exports.value[k] in exports.value;
    }
    r := TriggersOf(pkg.path, exports.value);
  }

  /**
   * `extractTriggers` as written: a package with errors yields no error and
   * no triggers, so generation goes on with an empty server.
   */
  method ExtractTriggersAsWritten(pkg: Package) returns (r: Result<seq<Trigger>, string>)
    ensures pkg.loadError.None? && pkg.errorCount > 0 ==> r == Success([]) && Exports(pkg, IsTrigger).Failure?
  {
    var exports := LoadExportsAsWritten(pkg);
    if exports.Failure? {
      return Failure(exports.error);
    }
    r := TriggersOf(pkg.path, exports.value);
  }

  /** The imports the header is meant to list, sorted. */
  function ExpectedImports(pubsub: bool): (imports: seq<string>)
    ensures Sorted(imports)
    ensures "log" in imports && "net/http" in imports
    ensures ("encoding/json" in imports <==> pubsub) && ("io/ioutil" in imports <==> pubsub)
  {
    if pubsub then ["encoding/json", "io/ioutil", "log", "net/http"] else ["log", "net/http"]
  }

  function ImportLine(path: string): string
  {
    "\t\"" + path + "\"\n"
  }

  function ImportLines(imports: seq<string>): (lines: seq<string>)
    ensures |lines| == |imports| && forall i :: 0 <= i < |imports| ==> lines[i] == ImportLine(imports[i])
  {
    seq(|imports|, i requires 0 <= i < |imports| => ImportLine(imports[i]))
  }

  const HeaderOpening := "\npackage main\n\nimport (\n"

  /** The `header` template over `imports` and the user package. */
  function RenderHeader(pkg: string, imports: seq<string>): string
  {
    HeaderOpening + Concat(ImportLines(imports)) + "\n" + AliasImport(pkg) + ")\n"
  }

  /** Each import of the header is one line of its import block, in the given order. */
  lemma HeaderListsImport(pkg: string, imports: seq<string>, i: nat)
    requires i < |imports|
    ensures OccursAt(ImportLine(imports[i]), RenderHeader(pkg, imports), |HeaderOpening| + Offset(ImportLines(imports), i))
    ensures i + 1 < |imports| ==>
      |HeaderOpening| + Offset(ImportLines(imports), i) < |HeaderOpening| + Offset(ImportLines(imports), i + 1)
  {
    var lines := ImportLines(imports);
    ConcatAt(lines, i);
    assert OccursAt(ImportLine(imports[i]), Concat(lines), Offset(lines, i));
    OccursShift(ImportLine(imports[i]), Concat(lines), Offset(lines, i), HeaderOpening, "\n" + AliasImport(pkg) + ")\n");
  }

  /**
   * `generateHeader`: the header imports "log" and "net/http", plus
   * "encoding/json" and "io/ioutil" when some trigger is a Pub/Sub one,
   * sorted, then the user package under the name `alias`.
   */
  method GenerateHeader(pkg: string, triggers: seq<Trigger>) returns (text: string)
    ensures text == RenderHeader(pkg, ExpectedImports(exists t :: t in triggers && t.PubSubTrigger?))
  {
    var imports := ["log", "net/http"];
    var pubsubAvailable := false;
    var i := 0;
    while i < |triggers|
      invariant 0 <= i <= |triggers|
      invariant !pubsubAvailable
      invariant forall k :: 0 <= k < i ==> !triggers[k].PubSubTrigger?
    {
      if triggers[i].PubSubTrigger? {
        pubsubAvailable := true;
        break;
      }
      i := i + 1;
    }
    assert pubsubAvailable <==> exists t :: t in triggers && t.PubSubTrigger?;
    if pubsubAvailable {
      imports := imports + ["io/ioutil"];
      imports := imports + ["encoding/json"];
    }
    assert imports == Collected(pubsubAvailable);
    imports := Sort(imports);
    SortedImports(pubsubAvailable);
    text := RenderHeader(pkg, imports);
  }

  /** The import list before sorting, in the order `generateHeader` appends it. */
  function Collected(pubsub: bool): seq<string>
  {
    if pubsub then ["log", "net/http", "io/ioutil", "encoding/json"] else ["log", "net/http"]
  }

  /** Sorting the collected imports gives the expected list. */
  lemma SortedImports(pubsub: bool)
    ensures Sort(Collected(pubsub)) == ExpectedImports(pubsub)
  {
    var c := Collected(pubsub);
    var e := ExpectedImports(pubsub);
    if pubsub {
      calc {
        multiset(c);
        multiset{"log", "net/http", "io/ioutil", "encoding/json"};
        multiset(e);
      }
    } else {
      assert c == e;
    }
    SortedUnique(Sort(c), e);
  }

  function Routes(triggers: seq<Trigger>): (routes: seq<string>)
    ensures |routes| == |triggers| && forall i :: 0 <= i < |triggers| ==> routes[i] == triggers[i].Route()
  {
    seq(|triggers|, i requires 0 <= i < |triggers| => triggers[i].Route())
  }

  /** `generateRoutes`: every trigger's route, in trigger order, separated by a blank line. */
  method GenerateRoutes(triggers: seq<Trigger>) returns (text: string)
    ensures text == Join(Routes(triggers), "\n")
  {
    var routes: seq<string> := [];
    var i := 0;
    while i < |triggers|
      invariant 0 <= i <= |triggers|
      invariant routes == Routes(triggers[..i])
    {
      routes := routes + [triggers[i].Route()];
      i := i + 1;
    }
    assert triggers[..i] == triggers;
    text := Join(routes, "\n");
  }

  /** The routes text defines one handler per trigger, named after it, in trigger order. */
  lemma RoutesDefineHandlers(triggers: seq<Trigger>, i: nat)
    requires i < |triggers|
    ensures OccursAt(RouteOpening(triggers[i].Name()), Join(Routes(triggers), "\n"), JoinOffset(Routes(triggers), "\n", i))
    ensures i + 1 < |triggers| ==> JoinOffset(Routes(triggers), "\n", i) < JoinOffset(Routes(triggers), "\n", i + 1)
  {
    var routes := Routes(triggers);
    var route := routes[i];
    var opening := RouteOpening(triggers[i].Name());
    var joined := Join(routes, "\n");
    var off := JoinOffset(routes, "\n", i);
    JoinOccurs(routes, "\n", i);
    assert OccursAt(route, joined, off);
    assert OccursAt(opening, route, 0);
    OccursWithin(opening, route, 0, joined, off);
  }

  function Names(triggers: seq<Trigger>): (names: seq<string>)
    ensures |names| == |triggers| && forall i :: 0 <= i < |triggers| ==> names[i] == triggers[i].Name()
  {
    seq(|triggers|, i requires 0 <= i < |triggers| => triggers[i].Name())
  }

  function HandleLine(name: string): string
  {
    "\tmux.HandleFunc(\"/" + name + "\", " + name + ")\n"
  }

  function ExposedLine(name: string): string
  {
    "\tlog.Println(\"Function " + name + " exposed at: /" + name + "\")\n"
  }

  function HandleLines(names: seq<string>): (lines: seq<string>)
    ensures |lines| == |names| && forall i :: 0 <= i < |names| ==> lines[i] == HandleLine(names[i])
  {
    seq(|names|, i requires 0 <= i < |names| => HandleLine(names[i]))
  }

  function ExposedLines(names: seq<string>): (lines: seq<string>)
    ensures |lines| == |names| && forall i :: 0 <= i < |names| ==> lines[i] == ExposedLine(names[i])
  {
    seq(|names|, i requires 0 <= i < |names| => ExposedLine(names[i]))
  }

  const MainOpening := "\nfunc main() {\n\tmux := http.NewServeMux()\n"
  const MainListening := "\n\tlog.Println(\"Listening on port: 8080\")\n"
  const MainClosing := "\n\thttp.ListenAndServe(\":8080\", mux)\n}\n"

  /** The `main` template over the trigger names. */
  function RenderMain(names: seq<string>): string
  {
    MainOpening + Concat(HandleLines(names)) + MainListening + Concat(ExposedLines(names)) + MainClosing
  }

  /** `main` mounts the handler of every name at "/" + name. */
  lemma MainMountsEveryName(names: seq<string>, i: nat)
    requires i < |names|
    ensures OccursAt(HandleLine(names[i]), RenderMain(names), |MainOpening| + Offset(HandleLines(names), i))
  {
    var lines := HandleLines(names);
    ConcatAt(lines, i);
    OccursShift(HandleLine(names[i]), Concat(lines), Offset(lines, i), MainOpening,
      MainListening + Concat(ExposedLines(names)) + MainClosing);
    assert MainOpening + Concat(lines) + (MainListening + Concat(ExposedLines(names)) + MainClosing) == RenderMain(names);
  }

  /** `generateMain`: the server `main` over the trigger names, in trigger order. */
  method GenerateMain(triggers: seq<Trigger>) returns (text: string)
    ensures text == RenderMain(Names(triggers))
  {
    var names: seq<string> := [];
    var i := 0;
    while i < |triggers|
      invariant 0 <= i <= |triggers|
      invariant names == Names(triggers[..i])
    {
      names := names + [triggers[i].Name()];
      i := i + 1;
    }
    assert triggers[..i] == triggers;
    text := RenderMain(names);
  }
}
