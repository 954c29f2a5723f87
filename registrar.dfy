/** The parser-option hook (`manipulateOptions`, plugin.js:29-31): before
    the host parses a file, the plugin enables the async-function syntax
    extension by pushing its name onto the parser's plugin list. */
module Registrar {

  /** The name of the parser extension (plugin.js:10). */
  const ParserExtensionName: string := "asyncFunctions"

  /** The host's parser options; only the list of enabled syntax plugins
      is touched here. */
  class ParserOptions {
    var plugins: seq<string>

    constructor (plugins: seq<string>)
      ensures this.plugins == plugins
    {
      this.plugins := plugins;
    }
  }

  /** `parserOpts.plugins.push('asyncFunctions')`: exactly one entry is added
      at the end, every earlier entry stays where it was, and no check is made
      for an entry that is already there. */
  method ManipulateOptions(parserOpts: ParserOptions)
    modifies parserOpts
    ensures parserOpts.plugins == old(parserOpts.plugins) + [ParserExtensionName]
  {
    parserOpts.plugins := parserOpts.plugins + [ParserExtensionName];
  }

  /** The number of times an extension is enabled in a plugin list. */
  function Occurrences(plugins: seq<string>, name: string): (n: nat)
    ensures n <= |plugins|
    ensures n == 0 <==> name !in plugins
  {
    if plugins == [] then 0
    else (if plugins[0] == name then 1 else 0) + Occurrences(plugins[1..], name)
  }

  /** Each run of the hook enables the extension once more, whether or not
      it was already enabled. */
  lemma {:induction false} OccurrencesAppend(plugins: seq<string>, name: string)
    ensures Occurrences(plugins + [name], name) == Occurrences(plugins, name) + 1
  {
    if plugins == [] {
      assert [] + [name] == [name];
    } else {
      assert (plugins + [name])[1..] == plugins[1..] + [name];
      OccurrencesAppend(plugins[1..], name);
    }
  }

  /** Running the hook twice on the same parser options leaves two entries
      for the extension beside whatever was there: nothing de-duplicates. */
  lemma RegisteringTwice(plugins: seq<string>)
    ensures Occurrences(plugins + [ParserExtensionName] + [ParserExtensionName], ParserExtensionName)
         == Occurrences(plugins, ParserExtensionName) + 2
  {
    OccurrencesAppend(plugins, ParserExtensionName);
    OccurrencesAppend(plugins + [ParserExtensionName], ParserExtensionName);
  }
}
