/** `getRuntime` (plugin.js:13-24): the support function the rewritten code
    calls is turned into one line of source text, parsed by the engine and
    scrubbed of location properties. `Function.prototype.toString` and the
    engine's parser are outside the model: the function's source text is an
    input, and the parser is a function from text to the first statement of
    the parsed program (`compiler.parse(...).ast.body[0]`). */
module Runtime {
  import opened JsValues
  import opened Whitespace
  import opened LocationStrip

  /** The left-hand side the runtime is assigned to (plugin.js:56). */
  const RuntimeSymbol: string := "Function.prototype.$asyncbind"

  /** `symbol + '=' + src.replace(/[\s]+/g, ' ') + ';\n'` (plugin.js:14). */
  function RuntimeText(symbol: string, src: string): (r: string)
    ensures |r| == |symbol| + |Collapse(src)| + 3
    ensures r[..|symbol|] == symbol && r[|r| - 2..] == ";\n"
  {
    symbol + "=" + Collapse(src) + ";\n"
  }

  /** The line starts with the symbol and `=`, ends with `;` and a newline,
      and the function text between them has every whitespace run reduced
      to one space; with a symbol that has no newline, the trailing newline
      is the only one in the line. */
  lemma RuntimeTextShape(symbol: string, src: string)
    ensures var r := RuntimeText(symbol, src);
      && |r| == |symbol| + 1 + |Collapse(src)| + 2
      && r[..|symbol|] == symbol && r[|symbol|] == '='
      && r[|symbol| + 1..|r| - 2] == Collapse(src) && Compact(Collapse(src))
      && r[|r| - 2..] == ";\n"
    ensures var r := RuntimeText(symbol, src);
      '\n' !in symbol ==> forall i :: 0 <= i < |r| - 1 ==> r[i] != '\n'
  {
    CollapseIsCompact(src);
    var r := RuntimeText(symbol, src);
    var c := Collapse(src);
    assert r == symbol + ("=" + c + ";\n");
    forall i | 0 <= i < |r| - 1
      ensures '\n' !in symbol ==> r[i] != '\n'
    {
      if i < |symbol| {
        assert r[i] == symbol[i];
      } else if |symbol| < i < |symbol| + 1 + |c| {
        assert r[i] == c[i - |symbol| - 1];
        assert IsSpace('\n');
      }
    }
  }

  /** The runtime statement the exit hook splices in: whatever the parser
      returns, no object in it has a `start` or `end` property. */
  function GetRuntime(symbol: string, src: string, parse: string -> Value): (node: Value)
    ensures NoLocations(node)
  {
    var parsed := parse(RuntimeText(symbol, src));
    StripRemovesLocations(parsed);
    Strip(parsed)
  }
}
