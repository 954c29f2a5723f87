/** The plugin object the module's factory returns (plugin.js:7-95): the
    usage flag its closure keeps, the `Function` visitor that raises it, and
    the `Program.exit` hook that applies the injection decision to the
    compilation unit. Parser-option registration and `Program.enter` are in
    the `Registrar` and `EngineOptions` modules. */
module FastAsync {
  import opened JsValues
  import opened EngineOptions
  import opened Runtime
  import opened Directives
  import opened InjectionPolicy

  /** The marker the engine leaves on a function it rewrote. */
  const WasAsyncKey: string := "$wasAsync"

  /** `path.node.$wasAsync` is truthy: only a node that carries the marker
      property counts. */
  function WasAsync(node: Value): (b: bool)
    ensures b ==> node.Obj? && HasKey(node.props, WasAsyncKey)
  {
    Truthy(Get(node, WasAsyncKey))
  }

  /** The flag after the visitor has seen `nodes` in order, starting from
      `flag`. */
  function FlagAfterVisits(flag: bool, nodes: seq<Value>): (r: bool)
    ensures flag ==> r
    ensures nodes != [] && WasAsync(nodes[0]) ==> r
    decreases |nodes|
  {
    if nodes == [] then flag else FlagAfterVisits(flag || WasAsync(nodes[0]), nodes[1..])
  }

  /** Across any run of visits the flag ends up true exactly when it started
      true or some visited function carried the marker: it never goes back
      to false. */
  lemma {:induction false} FlagAfterVisitsIsAny(flag: bool, nodes: seq<Value>)
    ensures FlagAfterVisits(flag, nodes) <==>
      flag || exists i :: 0 <= i < |nodes| && WasAsync(nodes[i])
    decreases |nodes|
  {
    if nodes != [] {
      FlagAfterVisitsIsAny(flag || WasAsync(nodes[0]), nodes[1..]);
      if exists i :: 0 <= i < |nodes[1..]| && WasAsync(nodes[1..][i]) {
        var i :| 0 <= i < |nodes[1..]| && WasAsync(nodes[1..][i]);
        assert WasAsync(nodes[i + 1]);
      }
      if exists i :: 0 <= i < |nodes| && WasAsync(nodes[i]) {
        var i :| 0 <= i < |nodes| && WasAsync(nodes[i]);
        if i > 0 {
          assert WasAsync(nodes[1..][i - 1]);
        }
      }
    }
  }

  /** A request made to the host's import facility: the module and the kind
      of binding. */
  datatype ImportRequest = ImportRequest(source: Value, binding: string)

  /** The compilation unit the exit hook works on: the program's statement
      list (`path.node.body`), its directive list (`path.node.directives`)
      and the imports the host has been asked to add (`state.addImport`). */
  class File {
    var body: seq<Value>
    var directives: seq<Directive>
    var imports: seq<ImportRequest>

    constructor (body: seq<Value>, directives: seq<Directive>)
      ensures this.body == body && this.directives == directives && imports == []
    {
      this.body := body;
      this.directives := directives;
      this.imports := [];
    }

    /** The loop of plugin.js:68-77, with `runtime` as the statement to
        prepend. */
    method ScanRuntimeDirectives(runtime: Value)
      modifies this
      ensures directives == Walked(old(directives))
      ensures body == if AnyRuntimeDirective(old(directives)) then [runtime] + old(body) else old(body)
      ensures imports == old(imports)
    {
      ghost var original := directives;
      var hasRuntime := false;
      var index := 0;
      WalkingStart(original);
      while index < |directives|
        invariant Walking(original, directives, index)
        invariant !hasRuntime ==> directives == original && index <= |original|
        invariant !hasRuntime ==> NoneBefore(original, index)
        invariant hasRuntime ==> AnyRuntimeDirective(original)
        invariant body == if hasRuntime then [runtime] + old(body) else old(body)
        invariant imports == old(imports)
        decreases |directives| + 1 - index
      {
        if directives[index].value == RuntimeDirective {
          if !hasRuntime {
            body := [runtime] + body;
            hasRuntime := true;
          }
          WalkingSplice(original, directives, index);
          directives := directives[..index] + directives[index + 1..];
        } else {
          WalkingSkip(original, directives, index);
          if !hasRuntime {
            NoneBeforeStep(original, index);
          }
        }
        index := index + 1;
      }
      WalkingDone(original, directives, index);
      if !hasRuntime {
        NoneBeforeAll(original);
      }
    }
  }

  class Plugin {
    /** `shouldIncludeRuntime` (plugin.js:11): shared by every file the
        plugin instance processes. */
    var shouldIncludeRuntime: bool

    constructor ()
      ensures !shouldIncludeRuntime
    {
      shouldIncludeRuntime := false;
    }

    /** The `Function` visitor (plugin.js:88-92). */
    method VisitFunction(node: Value)
      modifies this
      ensures shouldIncludeRuntime == (old(shouldIncludeRuntime) || WasAsync(node))
    {
      if WasAsync(node) {
        shouldIncludeRuntime := true;
      }
    }

    /** `Program.exit` (plugin.js:55-85). The runtime statement is built
        first, from the support function's source `src` and the engine's
        parser `parse`. `compiles(pattern)` says whether `new
        RegExp(pattern)` succeeds, which depends on the pattern alone; when it
        does not, the constructor throws, reported as `ok == false` with the
        unit untouched. `matches(filename, pattern)` is whether
        `filename.match(...)` finds a match. */
    method ProgramExit(file: File, state: StateOptions, filename: string, src: string,
                       parse: string -> Value, compiles: Value -> bool,
                       matches: (string, Value) -> bool)
      returns (ok: bool)
      modifies file
      ensures var runtime := GetRuntime(RuntimeSymbol, src, parse);
        match Decide(state.useModule, state.runtimePattern, shouldIncludeRuntime)
        case AddDefaultImport(m) =>
          && ok && file.imports == old(file.imports) + [ImportRequest(m, "default")]
          && file.body == old(file.body) && file.directives == old(file.directives)
        case PrependRuntime =>
          && ok && file.body == [runtime] + old(file.body)
          && file.directives == old(file.directives) && file.imports == old(file.imports)
        case ScanDirectives =>
          && ok && file.directives == Walked(old(file.directives))
          && file.body == (if AnyRuntimeDirective(old(file.directives))
                           then [runtime] + old(file.body) else old(file.body))
          && file.imports == old(file.imports)
        case TestFilename(p) =>
          && ok == compiles(p)
          && file.body == (if compiles(p) && matches(filename, p)
                           then [runtime] + old(file.body) else old(file.body))
          && file.directives == old(file.directives) && file.imports == old(file.imports)
        case NoAction =>
          ok && unchanged(file)
    {
      var runtime := GetRuntime(RuntimeSymbol, src, parse);
      ok := true;
      if Truthy(state.useModule) && shouldIncludeRuntime {
        file.imports := file.imports + [ImportRequest(state.useModule, "default")];
      } else if !Truthy(state.runtimePattern) && shouldIncludeRuntime {
        file.body := [runtime] + file.body;
      } else if state.runtimePattern == DirectiveMode {
        file.ScanRuntimeDirectives(runtime);
      } else if shouldIncludeRuntime {
        if !compiles(state.runtimePattern) {
          return false;
        }
        if matches(filename, state.runtimePattern) {
          file.body := [runtime] + file.body;
        }
      }
    }
  }

  /** A unit with one rewritten function and neither `useModule` nor
      `runtimePattern` set comes out with the runtime as its first statement,
      followed by the statements it had. */
  method DefaultConfigurationPrepends(body: seq<Value>, rewritten: Value, src: string,
                                      parse: string -> Value, compiles: Value -> bool,
                                      matches: (string, Value) -> bool)
    returns (ok: bool, result: seq<Value>)
    requires WasAsync(rewritten)
    ensures ok && result == [GetRuntime(RuntimeSymbol, src, parse)] + body
  {
    var plugin := new Plugin();
    var state := new StateOptions(Undefined, Undefined, Undefined, Undefined);
    var file := new File(body, []);
    plugin.VisitFunction(rewritten);
    ok := plugin.ProgramExit(file, state, "", src, parse, compiles, matches);
    result := file.body;
  }

  /** In directive mode the runtime is spliced in even when no function was
      rewritten: the directive branch does not consult the usage flag. */
  method DirectiveModeIgnoresFlag(body: seq<Value>, src: string,
                                  parse: string -> Value, compiles: Value -> bool,
                                      matches: (string, Value) -> bool)
    returns (ok: bool, result: seq<Value>, directives: seq<Directive>)
    ensures ok && result == [GetRuntime(RuntimeSymbol, src, parse)] + body && directives == []
  {
    var plugin := new Plugin();
    var state := new StateOptions(Undefined, Undefined, Undefined, DirectiveMode);
    var file := new File(body, [Directive(RuntimeDirective)]);
    assert AnyRuntimeDirective(file.directives) by {
      assert IsRuntimeDirective(file.directives[0]);
    }
    ok := plugin.ProgramExit(file, state, "", src, parse, compiles, matches);
    result := file.body;
    directives := file.directives;
  }
}
