# fast-async plugin core, modelled in Dafny

`fast-async` is a Babel 6 plugin that hands each whole program to the
`nodent` compiler, which rewrites `async` functions into promise-based code.
The rewrite itself happens inside nodent and is not modelled. What is
modelled is the plugin's own logic around that call:

- the parser hook that enables the `asyncFunctions` syntax extension;
- option assembly on entering the program: defaults for the engine's
  environment options, and the user's `compiler` overrides laid over the
  engine's options;
- the usage flag that the `Function` visitor raises when the engine marked a
  function as rewritten;
- the runtime statement: the support function's source collapsed onto one
  line, parsed, and scrubbed of `start`/`end` properties at every depth;
- the injection decision on leaving the program (module import, inline
  runtime, directive-gated, filename-pattern-gated, or nothing), including
  the directive loop that splices directives out of the list in place.

JavaScript values are one datatype (`JsValues.Value`). Objects are ordered
property lists in insertion order, which is the order `for…in` and
`JSON.stringify` follow for keys that are not array indices, the only keys
these option objects and tree nodes have.
State the source changes in place is a class field of type `seq`, changed by
methods: the parser's plugin list (`Registrar.ParserOptions`), the user's
`env` object and the pass's engine options (`EngineOptions.StateOptions`,
`EngineOptions.PluginPass`), the usage flag (`FastAsync.Plugin`), and the
program's body, directives and requested imports (`FastAsync.File`). Each
such method is proved against a function on values, and the properties are
proved about those functions.

Foreign calls are parameters:
- the options nodent's `parseCompilerOptions` returns are `engineOptions`;
- `compiler.parse(...).ast.body[0]` is `parse: string -> Value`;
- `Function.prototype.$asyncbind.toString()` is the string `src`;
- `new RegExp(pattern)` succeeding is `compiles: Value -> bool`, which
  depends on the pattern alone, and `filename.match(...)` finding a match is
  `matches: (string, Value) -> bool`;
- the bound `console.log` is the value `logger`.

Three behaviours of the code worth knowing; the model keeps them:
- `manipulateOptions` does not de-duplicate: running it twice enables the
  extension twice (`Registrar.RegisteringTwice`).
- The usage flag does not gate directive mode. With
  `runtimePattern === 'directive'` the directive loop runs, and may inline
  the runtime, even when no function was rewritten
  (`InjectionPolicy.DecideByMode`, `FastAsync.DirectiveModeIgnoresFlag`).
- The directive loop does not remove every `"use runtime-nodent"`
  directive. It advances its index after `splice`, so a matching directive
  directly after a removed one is kept (`Directives.AdjacentDirectiveSurvives`).
  It does remove all of them when no two are adjacent
  (`Directives.WalkedRemovesAllUnlessAdjacent`), and it always removes at
  least half of them (`Directives.WalkedRemovesMost`).

## Model

| member | source | states |
|---|---|---|
| `Registrar.ManipulateOptions` | plugin.js:29-31 | the plugin list gains exactly one `asyncFunctions` entry, at the end; earlier entries are unchanged |
| `Registrar.OccurrencesAppend` | plugin.js:29-31 | appending a name raises its count by one whether or not it was already there |
| `Registrar.RegisteringTwice` | plugin.js:29-31 | two runs of the hook leave two more `asyncFunctions` entries: no de-duplication |
| `EngineOptions.EnvObject` | plugin.js:36-37 | a falsy `env` becomes `{}`, an object is used as is, any other truthy value is the TypeError case of `in` |
| `EngineOptions.AddDefault` | plugin.js:37-38 | afterwards the key is present; the old properties are a prefix of the result; the key list grows by that key exactly when it was absent |
| `EngineOptions.WithEnvDefaults` | plugin.js:36-38 | both `log` and `dontInstallRequireHook` are present afterwards; the caller's properties keep their place; a key is added only when it was absent |
| `EngineOptions.EnvDefaultsLookup` | plugin.js:37-38 | every key the caller set reads as before; `log` reads as the logger, and `dontInstallRequireHook` as `true`, only when absent |
| `EngineOptions.FillEnvDefaults` | plugin.js:36-38 | the user's `env` object is filled in place with the defaults; a non-object truthy `env` throws and changes nothing |
| `JsValues.SetProp` | plugin.js:42 | `opts.babelTree = true` keeps the key list when the key exists and appends the key otherwise |
| `JsValues.SetPropLookup` | plugin.js:42 | after `opts.babelTree = true` that key reads `true` and every other key reads as before |
| `EngineOptions.OverlayProp` | plugin.js:47-48 | an option keeps its key; it takes the override's value when the override object has the key, and is unchanged otherwise |
| `EngineOptions.Overlay` | plugin.js:46-49 | the overlay has exactly one entry per engine option; `OverlayAt` and `OverlayLookup` state what each entry holds |
| `EngineOptions.OverlayAt` | plugin.js:46-49 | each engine option keeps its place and is replaced by the override of the same key when there is one |
| `EngineOptions.OverlaySnoc` | plugin.js:46-49 | the overlay handles the keys one at a time, in the order of the engine options |
| `EngineOptions.OverlayLookup` | plugin.js:46-49 | the key list is unchanged (override keys are never added); keys with an override read the override; all others read as before |
| `EngineOptions.OverlayCompiler` | plugin.js:46-49 | the `for…in` loop computes the overlay; a truthy non-object `compiler` throws on the first key before anything is replaced |
| `EngineOptions.ProgramEnter` | plugin.js:35-49 | the pass ends up holding the engine options with `babelTree` set and the overrides laid over them, with each TypeError path and the state it leaves |
| `Whitespace.Collapse` | plugin.js:14 | the rewrite is empty only for empty input, and whitespace left in it is a plain space |
| `Whitespace.CollapseIsCompact` | plugin.js:14 | no two whitespace characters are adjacent in the rewritten text |
| `Whitespace.CollapseKeepsVisible` | plugin.js:14 | the non-whitespace characters are kept, in order, and none is added |
| `Whitespace.CollapseRun` | plugin.js:14 | a maximal whitespace run between two pieces of text becomes exactly one space |
| `Whitespace.CollapseFixpoints` | plugin.js:14 | the rewrite changes text exactly when it is not already compact; applying it twice equals applying it once |
| `Runtime.RuntimeText` | plugin.js:14 | the line has the length of symbol, `=`, collapsed source, `;` and newline; it starts with the symbol and ends with `;` and a newline |
| `Runtime.RuntimeTextShape` | plugin.js:14 | the line is symbol, `=`, the collapsed source, `;` and a newline; with a newline-free symbol the trailing newline is the only one |
| `Runtime.GetRuntime` | plugin.js:13-24 | whatever the parser returns, the runtime statement has no `start` or `end` property at any depth |
| `LocationStrip.Strip` | plugin.js:20-22 | the scrub keeps each value's kind, keeps the number of array elements, and leaves non-container values untouched |
| `LocationStrip.StripItems` | plugin.js:20-22 | the replacer sees array elements under index keys, never `start`/`end`, so every element is kept (`StripItemsAt` gives what each becomes) |
| `LocationStrip.StripItemsAt` | plugin.js:20-22 | element i of a scrubbed array is the scrubbed element i |
| `LocationStrip.StripPropsKeys` | plugin.js:20-22 | the scrubbed object has exactly the non-location keys of the original, in their order |
| `LocationStrip.StripProps` | plugin.js:20-22 | no property of the scrubbed object is a location key, and none is added |
| `LocationStrip.StripRemovesLocations` | plugin.js:20-22 | the scrubbed tree has no `start` or `end` key at any depth |
| `LocationStrip.StripPropsLookup` | plugin.js:20-22 | at each object a location key is gone and every other key reads as its scrubbed former value |
| `LocationStrip.StripKeepsClean` | plugin.js:20-22 | a tree without location keys passes through unchanged |
| `LocationStrip.StripIdempotent` | plugin.js:20-22 | scrubbing twice equals scrubbing once |
| `Directives.Walked` | plugin.js:69-77 | the loop's result is never longer than the directive list; the lemmas below state what it keeps and removes |
| `Directives.WalkedShrinksIffMatch` | plugin.js:69-77 | the loop removes something exactly when some directive is `"use runtime-nodent"`: the first match is always examined |
| `Directives.WalkedKeepsOthers` | plugin.js:69-77 | the directives that do not match survive, in their order, and nothing is added |
| `Directives.WalkedRemovesMost` | plugin.js:69-77 | at most half of the matching directives survive; a lone match is always removed |
| `Directives.WalkedRemovesAllUnlessAdjacent` | plugin.js:69-77 | with no two matches side by side, the loop removes every match |
| `Directives.AdjacentDirectiveSurvives` | plugin.js:69-77 | the second of two adjacent matches is skipped and kept |
| `FastAsync.File.ScanRuntimeDirectives` | plugin.js:67-77 | the directive list becomes the walk's result; the runtime is prepended once exactly when a match existed; the rest of the body keeps its order |
| `InjectionPolicy.Decide` | plugin.js:58-84 | with the flag set, a truthy `useModule` requests the import, no options inline the runtime, and a non-directive pattern tests the filename; an import is requested only with the flag set; inline runtime needs the flag and neither option; directive mode runs whenever selected unless the import fired; nothing happens exactly when the flag is clear and directive mode is not selected |
| `InjectionPolicy.DecideByMode` | plugin.js:58-84 | with the flag set the chain does what the configured mode says; with it clear only directive mode acts |
| `FastAsync.Plugin.constructor` | plugin.js:11 | the usage flag starts false |
| `FastAsync.Plugin.VisitFunction` | plugin.js:88-92 | the flag becomes true on a function marked `$wasAsync` and is unchanged otherwise |
| `FastAsync.WasAsync` | plugin.js:89 | only an object that has the `$wasAsync` property can count as rewritten |
| `FastAsync.FlagAfterVisits` | plugin.js:88-92 | a flag that starts true stays true, and a first visited function carrying the marker sets it |
| `FastAsync.FlagAfterVisitsIsAny` | plugin.js:88-92 | after any run of visits the flag is true exactly when it was already true or some visited function was marked: it never returns to false |
| `FastAsync.Plugin.ProgramExit` | plugin.js:55-85 | the unit changes exactly as the decision says: one import request, or one prepended runtime, or the directive walk, or a prepend when the filename matches (and an error when the pattern does not compile), or nothing |
| `FastAsync.DefaultConfigurationPrepends` | plugin.js:58-66 | a unit with a rewritten function and default options starts with the runtime, followed by its old statements |
| `FastAsync.DirectiveModeIgnoresFlag` | plugin.js:67-77 | in directive mode the runtime is inlined and the directive removed although no function was rewritten |

## Left out

- nodent itself: `nodent(envOpts)`, `parseCompilerOptions`,
  `asynchronize` and `compiler.parse` (plugin.js:9, 17, 40-41, 52) are the
  external compiler. Their results are inputs, and the async rewrite of the
  tree is not modelled.
- `this.compiler = compiler` (plugin.js:44) only stores the engine for the
  exit hook, where it is the `parse` parameter.
- `opts.parser.ranges = false` and `opts.parser.locations = false`
  (plugin.js:15-16) are not modelled. They only influence the opaque parser,
  and the scrub removes locations whatever the parser returns.
- `JSON.stringify`/`JSON.parse` are modelled only through the replacer's
  effect. Other effects are left out: dropping `undefined` and function
  values, and number formatting.
- `console.log.bind(console)` (plugin.js:8) is I/O. It is the opaque value
  `logger`.
- Regular-expression compilation and matching (plugin.js:80-81) are the
  `compiles` and `matches` parameters.
- Strings are sequences of Unicode scalar values, not of UTF-16 code
  units, so lengths such as `RuntimeText`'s count characters where
  JavaScript's `.length` counts code units. The whitespace rewrite does not
  depend on this: every `\s` character lies in the Basic Multilingual Plane.
- Integer-like property keys, which JavaScript's `for…in` and
  `JSON.stringify` visit first in ascending order, are not modelled:
  objects keep insertion order for every key.
- Babel's path and state APIs become a `File` object. `unshiftContainer`
  prepends to `body`, and `addImport` appends an `ImportRequest` record.
- Babel 6 may pass the same object as `this` and `state` to the hooks. In
  that case `this.opts = opts` (plugin.js:43) would replace the plugin
  options with the engine options: the overlay loop would read
  `state.opts.compiler`, and the exit hook `state.opts.useModule` and
  `state.opts.runtimePattern` (plugin.js:58, 64, 67, 80), from the engine
  options. The model keeps the pass object and the plugin options apart.
- `in` on arrays and functions: the model treats a truthy `env` or
  `compiler` that is not a plain object as the TypeError case. In JavaScript
  these are objects that `in` accepts. Properties inherited through the
  prototype chain are also not seen by `in` here.
- Numbers are unbounded integers. Floating point is left out: NaN and -0
  are falsy in JavaScript.
- The order in which Babel visits functions is the host's. The model
  gives the visitor's effect per call and over any sequence of calls.
