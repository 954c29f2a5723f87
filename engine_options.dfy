/** Option assembly on entering the program node (`Program.enter`,
    plugin.js:35-53): environment defaults are filled into the `env`
    options, the engine's own options are marked for Babel trees, and the
    user's `compiler` options are laid over them key by key. The engine
    itself (`nodent(envOpts)`, `parseCompilerOptions`, `asynchronize`) is a
    black box: its option object is an input here. */
module EngineOptions {
  import opened JsValues

  /** The key of the log sink in the environment options. */
  const LogKey: string := "log"
  /** The key that stops the engine from installing a require hook. */
  const NoRequireHookKey: string := "dontInstallRequireHook"
  /** The engine option set on every pass before user overrides. */
  const BabelTreeKey: string := "babelTree"

  /** The plugin options the host hands to the pass (`state.opts`). Each
      field is `Undefined` when the user did not set it. `env` is written
      back when it is an object, since the source fills defaults into the
      user's own object. */
  class StateOptions {
    var env: Value
    var compiler: Value
    var useModule: Value
    var runtimePattern: Value

    constructor (env: Value, compiler: Value, useModule: Value, runtimePattern: Value)
      ensures this.env == env && this.compiler == compiler
      ensures this.useModule == useModule && this.runtimePattern == runtimePattern
    {
      this.env := env;
      this.compiler := compiler;
      this.useModule := useModule;
      this.runtimePattern := runtimePattern;
    }
  }

  /** What the pass keeps for the exit hook (`this.opts`). */
  class PluginPass {
    var opts: seq<Prop>

    constructor ()
      ensures opts == []
    {
      opts := [];
    }
  }

  /** `if (!(k in obj)) obj[k] = v`: the property is added, at the end,
      only when the key is absent. */
  function AddDefault(ps: seq<Prop>, k: string, v: Value): (r: seq<Prop>)
    ensures HasKey(r, k)
    ensures |ps| <= |r| && r[..|ps|] == ps
    ensures Keys(r) == Keys(ps) + (if HasKey(ps, k) then [] else [k])
  {
    if HasKey(ps, k) then ps
    else
      KeysAppend(ps, [Prop(k, v)]);
      ps + [Prop(k, v)]
  }

  /** The environment options with the two defaults filled in where the
      caller left a gap (plugin.js:37-38). */
  function WithEnvDefaults(env: seq<Prop>, logger: Value): (r: seq<Prop>)
    ensures HasKey(r, LogKey) && HasKey(r, NoRequireHookKey)
    ensures |env| <= |r| && r[..|env|] == env
    ensures Keys(r) == Keys(env)
      + (if HasKey(env, LogKey) then [] else [LogKey])
      + (if HasKey(env, NoRequireHookKey) then [] else [NoRequireHookKey])
  {
    var withLog := AddDefault(env, LogKey, logger);
    var r := AddDefault(withLog, NoRequireHookKey, Bool(true));
    assert HasKey(withLog, NoRequireHookKey) <==> HasKey(env, NoRequireHookKey) by {
      assert |LogKey| != |NoRequireHookKey|;
    }
    assert HasKey(r, LogKey) by {
      assert LogKey in Keys(withLog);
    }
    assert r[..|env|] == withLog[..|env|];
    r
  }

  /** Defaults only fill gaps: a key the caller set reads as before, `log`
      reads as the logger only when it was absent, and
      `dontInstallRequireHook` reads as `true` only when it was absent. */
  lemma EnvDefaultsLookup(env: seq<Prop>, logger: Value, k: string)
    ensures HasKey(env, k) ==> Lookup(WithEnvDefaults(env, logger), k) == Lookup(env, k)
    ensures !HasKey(env, LogKey) ==> Lookup(WithEnvDefaults(env, logger), LogKey) == Some(logger)
    ensures !HasKey(env, NoRequireHookKey)
        ==> Lookup(WithEnvDefaults(env, logger), NoRequireHookKey) == Some(Bool(true))
  {
    var withLog := AddDefault(env, LogKey, logger);
    forall j | j == k || j == LogKey || j == NoRequireHookKey
      ensures Lookup(withLog, j) == if HasKey(env, j) then Lookup(env, j)
                                    else if !HasKey(env, LogKey) && j == LogKey then Some(logger)
                                    else None
      ensures Lookup(AddDefault(withLog, NoRequireHookKey, Bool(true)), j)
           == if HasKey(withLog, j) then Lookup(withLog, j)
              else if !HasKey(withLog, NoRequireHookKey) && j == NoRequireHookKey then Some(Bool(true))
              else None
    {
      LookupAppend(env, Prop(LogKey, logger), j);
      LookupAppend(withLog, Prop(NoRequireHookKey, Bool(true)), j);
    }
  }

  /** One engine option after the user's overrides: replaced when the
      override object has the key, kept otherwise. */
  function OverlayProp(p: Prop, overrides: seq<Prop>): (q: Prop)
    ensures q.key == p.key
    ensures HasKey(overrides, p.key) ==> Some(q.val) == Lookup(overrides, p.key)
    ensures !HasKey(overrides, p.key) ==> q == p
  {
    match Lookup(overrides, p.key)
    case Some(w) => Prop(p.key, w)
    case None => p
  }

  /** The engine options after the `for…in` overlay of plugin.js:46-49. */
  function Overlay(opts: seq<Prop>, overrides: seq<Prop>): (r: seq<Prop>)
    ensures |r| == |opts|
  {
    if opts == [] then []
    else [OverlayProp(opts[0], overrides)] + Overlay(opts[1..], overrides)
  }

  /** The overlay never adds or removes a key, replaces exactly the keys the
      overrides also have, and leaves every other key as it was. */
  lemma {:induction false} OverlayLookup(opts: seq<Prop>, overrides: seq<Prop>, k: string)
    ensures Keys(Overlay(opts, overrides)) == Keys(opts)
    ensures Lookup(Overlay(opts, overrides), k) ==
      if HasKey(opts, k) && HasKey(overrides, k) then Lookup(overrides, k)
      else Lookup(opts, k)
  {
    if opts != [] {
      var r := Overlay(opts, overrides);
      assert r[1..] == Overlay(opts[1..], overrides);
      OverlayLookup(opts[1..], overrides, k);
    }
  }

  /** The object `state.opts.env || {}` denotes, or None when it is a
      truthy value that is not an object, on which `'log' in envOpts`
      throws a TypeError. */
  function EnvObject(env: Value): (r: Option<seq<Prop>>)
    ensures r.Some? <==> !Truthy(env) || env.Obj?
    ensures !Truthy(env) ==> r == Some([])
    ensures env.Obj? ==> r == Some(env.props)
  {
    if !Truthy(env) then Some([])
    else if env.Obj? then Some(env.props)
    else None
  }

  /** plugin.js:36-38: `envOpts = state.opts.env || {}` and the two
      defaults. The user's own `env` object is the one filled in. A truthy
      `env` that is not an object makes `'log' in envOpts` throw a TypeError,
      reported as `ok == false` with nothing changed. */
  method FillEnvDefaults(state: StateOptions, logger: Value) returns (ok: bool, envOpts: seq<Prop>)
    modifies state
    ensures ok <==> EnvObject(old(state.env)).Some?
    ensures ok ==> envOpts == WithEnvDefaults(EnvObject(old(state.env)).value, logger)
    ensures !ok ==> unchanged(state)
    ensures state.env == (if ok && old(state.env).Obj? then Obj(envOpts) else old(state.env))
    ensures state.compiler == old(state.compiler) && state.useModule == old(state.useModule)
    ensures state.runtimePattern == old(state.runtimePattern)
  {
    var env := state.env;
    if Truthy(env) && !env.Obj? {
      return false, [];
    }
    envOpts := if env.Obj? then env.props else [];
    if !HasKey(envOpts, LogKey) {
      envOpts := envOpts + [Prop(LogKey, logger)];
    }
    if !HasKey(envOpts, NoRequireHookKey) {
      envOpts := envOpts + [Prop(NoRequireHookKey, Bool(true))];
    }
    if env.Obj? {
      state.env := Obj(envOpts);
    }
    ok := true;
  }

  /** plugin.js:46-49: for each key of the engine options, in order, the
      value is replaced when the user's `compiler` object has that key.
      When `compiler` is truthy but not an object, `in` throws a TypeError on
      the first key, before anything is replaced. */
  method OverlayCompiler(pass: PluginPass, compiler: Value) returns (ok: bool)
    modifies pass
    ensures ok <==> !Truthy(compiler) || compiler.Obj? || old(pass.opts) == []
    ensures ok ==> pass.opts == Overlay(old(pass.opts), if compiler.Obj? then compiler.props else [])
    ensures !ok ==> pass.opts == old(pass.opts)
  {
    // `state.opts.compiler && (key in state.opts.compiler)`: a falsy
    // `compiler` has no keys, a truthy non-object makes `in` throw.
    var overrides := if compiler.Obj? then compiler.props else [];
    var throws := Truthy(compiler) && !compiler.Obj?;
    var opts := pass.opts;
    ghost var original := opts;
    var i := 0;
    while i < |opts|
      invariant 0 <= i <= |original| == |opts|
      invariant opts == OverlaidUpTo(original, overrides, i)
      invariant throws ==> i == 0
      invariant pass.opts == original
    {
      var key := opts[i].key;
      if throws {
        return false;
      }
      ghost var before := opts;
      if HasKey(overrides, key) {
        opts := opts[i := Prop(key, Lookup(overrides, key).value)];
      }
      OverlayStep(original, overrides, i, before, opts);
      i := i + 1;
    }
    OverlaidAll(original, overrides);
    pass.opts := opts;
    ok := true;
  }

  /** The engine options after the loop has handled the first `i` keys. */
  ghost function OverlaidUpTo(original: seq<Prop>, overrides: seq<Prop>, i: nat): seq<Prop>
    requires i <= |original|
  {
    Overlay(original[..i], overrides) + original[i..]
  }

  /** One step of the `for…in` loop: replacing the value of key `i` when
      the overrides have that key extends the overlay by one key. */
  lemma OverlayStep(original: seq<Prop>, overrides: seq<Prop>, i: nat, before: seq<Prop>, after: seq<Prop>)
    requires i < |original|
    requires before == OverlaidUpTo(original, overrides, i)
    requires after == if HasKey(overrides, before[i].key)
      then before[i := Prop(before[i].key, Lookup(overrides, before[i].key).value)]
      else before
    ensures after == OverlaidUpTo(original, overrides, i + 1)
  {
    assert original[..i + 1] == original[..i] + [original[i]];
    OverlaySnoc(original[..i], original[i], overrides);
    assert original[i..] == [original[i]] + original[i + 1..];
  }

  /** Each engine option keeps its place, and is replaced by the override
      of the same key when there is one. */
  lemma {:induction false} OverlayAt(opts: seq<Prop>, overrides: seq<Prop>, i: nat)
    requires i < |opts|
    ensures Overlay(opts, overrides)[i] == OverlayProp(opts[i], overrides)
  {
    if i > 0 {
      OverlayAt(opts[1..], overrides, i - 1);
    }
  }

  /** The overlay handles the keys one at a time, in order. */
  lemma {:induction false} OverlaySnoc(opts: seq<Prop>, p: Prop, overrides: seq<Prop>)
    ensures Overlay(opts + [p], overrides) == Overlay(opts, overrides) + [OverlayProp(p, overrides)]
  {
    if opts != [] {
      assert (opts + [p])[1..] == opts[1..] + [p];
      OverlaySnoc(opts[1..], p, overrides);
    }
  }

  lemma OverlaidAll(original: seq<Prop>, overrides: seq<Prop>)
    ensures OverlaidUpTo(original, overrides, |original|) == Overlay(original, overrides)
  {
    assert original[..|original|] == original;
  }

  /** `Program.enter` up to the engine call (plugin.js:35-49).
      `engineOptions` is what the engine's `parseCompilerOptions` returned;
      `logger` stands for the bound `console.log`. On success the pass holds
      the engine options with `babelTree` set and the user's overrides laid
      over them, and `envOpts` is the environment object the engine is built
      from. A TypeError from `in` on a non-object `env` or `compiler` yields
      `ok == false`, with the state as far as the source got before
      throwing. */
  method ProgramEnter(pass: PluginPass, state: StateOptions, engineOptions: seq<Prop>, logger: Value)
    returns (ok: bool, envOpts: seq<Prop>)
    modifies pass, state
    ensures state.compiler == old(state.compiler) && state.useModule == old(state.useModule)
    ensures state.runtimePattern == old(state.runtimePattern)
    ensures EnvObject(old(state.env)).None? ==> !ok && unchanged(state) && unchanged(pass)
    ensures EnvObject(old(state.env)).Some? ==>
      && envOpts == WithEnvDefaults(EnvObject(old(state.env)).value, logger)
      && state.env == (if old(state.env).Obj? then Obj(envOpts) else old(state.env))
    ensures ok <==> EnvObject(old(state.env)).Some? && (!Truthy(state.compiler) || state.compiler.Obj?)
    ensures EnvObject(old(state.env)).Some? && !ok ==>
      pass.opts == SetProp(engineOptions, BabelTreeKey, Bool(true))
    ensures ok ==> pass.opts == Overlay(SetProp(engineOptions, BabelTreeKey, Bool(true)),
                                         if state.compiler.Obj? then state.compiler.props else [])
  {
    ok, envOpts := FillEnvDefaults(state, logger);
    if !ok {
      return;
    }
    var opts := SetProp(engineOptions, BabelTreeKey, Bool(true));
    assert |opts| > 0 by {
      assert BabelTreeKey in Keys(opts);
    }
    pass.opts := opts;
    ok := OverlayCompiler(pass, state.compiler);
  }
}
