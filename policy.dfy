/** The injection decision of `Program.exit` (plugin.js:58-84): an ordered
    if/else-if chain over the `useModule` and `runtimePattern` options and
    the usage flag, stated as a function that picks one action. */
module InjectionPolicy {
  import opened JsValues

  /** The sentinel value of `runtimePattern` that selects directive mode. */
  const DirectiveMode: Value := Str("directive")

  /** What the exit hook does to the compilation unit. */
  datatype ExitAction =
    | AddDefaultImport(source: Value)  // state.addImport(useModule, 'default')
    | PrependRuntime                   // path.unshiftContainer('body', runtime)
    | ScanDirectives                   // the directive loop
    | TestFilename(pattern: Value)     // prepend if the filename matches the pattern
    | NoAction

  /** The chain as written: `useModule && used`, then `!runtimePattern &&
      used`, then `runtimePattern === 'directive'` (which does not look at
      the flag), then `used`. */
  function Decide(useModule: Value, runtimePattern: Value, used: bool): (a: ExitAction)
    ensures a.AddDefaultImport? ==> used && a.source == useModule
    ensures used && Truthy(useModule) ==> a == AddDefaultImport(useModule)
    ensures used && !Truthy(useModule) && !Truthy(runtimePattern) ==> a == PrependRuntime
    ensures used && !Truthy(useModule) && Truthy(runtimePattern) && runtimePattern != DirectiveMode
        ==> a == TestFilename(runtimePattern)
    ensures a.PrependRuntime? ==> used && !Truthy(useModule) && !Truthy(runtimePattern)
    ensures a.TestFilename? ==>
      used && a.pattern == runtimePattern && Truthy(runtimePattern) && runtimePattern != DirectiveMode
    ensures a == ScanDirectives <==>
      runtimePattern == DirectiveMode && !(used && Truthy(useModule))
    ensures a == NoAction <==> !used && runtimePattern != DirectiveMode
  {
    if Truthy(useModule) && used then AddDefaultImport(useModule)
    else if !Truthy(runtimePattern) && used then PrependRuntime
    else if runtimePattern == DirectiveMode then ScanDirectives
    else if used then TestFilename(runtimePattern)
    else NoAction
  }

  /** The injection mode the configuration alone selects, one variant per
      injection mode the options can select. */
  datatype InjectionMode =
    | ModuleImport(source: Value)
    | Unconditional
    | DirectiveGated
    | PatternGated(pattern: Value)

  function ModeOf(useModule: Value, runtimePattern: Value): (m: InjectionMode)
    ensures m.ModuleImport? <==> Truthy(useModule)
    ensures m == DirectiveGated ==> runtimePattern == DirectiveMode
  {
    if Truthy(useModule) then ModuleImport(useModule)
    else if !Truthy(runtimePattern) then Unconditional
    else if runtimePattern == DirectiveMode then DirectiveGated
    else PatternGated(runtimePattern)
  }

  function ActionOf(mode: InjectionMode): (a: ExitAction)
    ensures a != NoAction
  {
    match mode
    case ModuleImport(m) => AddDefaultImport(m)
    case Unconditional => PrependRuntime
    case DirectiveGated => ScanDirectives
    case PatternGated(p) => TestFilename(p)
  }

  /** Once a function was rewritten, the chain does what the configured
      mode says; before that, only directive mode acts, and it acts whatever
      `useModule` says. */
  lemma DecideByMode(useModule: Value, runtimePattern: Value)
    ensures Decide(useModule, runtimePattern, true) == ActionOf(ModeOf(useModule, runtimePattern))
    ensures Decide(useModule, runtimePattern, false) ==
      if runtimePattern == DirectiveMode then ScanDirectives else NoAction
  {
  }
}
