/**
 * `janeiro/app.py`: the composition root. An `AppBuilder` collects plugins
 * until it is built; building runs each plugin's `configure` and then its
 * `register`, plugin by plugin in insertion order, and happens at most once
 * successfully.
 *
 * The builder's names come from `janeiro/config.py` (its `ConfigOption`,
 * `Configuration` and `register_options`). Plugins are opaque: what a hook
 * does to the web application and the command-line group is not modelled,
 * only whether it raised, given by an `outcome` function per build.
 */
module App {
  import opened Types
  import FlatConfig

  /** A plugin as the builder sees it: a name and its optional option list. */
  datatype Plugin = Plugin(name: string, options: Option<seq<FlatConfig.ConfigOption>>)

  datatype Hook = Configure | Register

  /** One hook call on the plugin at a position of the builder's list. */
  datatype HookCall = HookCall(plugin: nat, hook: Hook)

  /** The hook calls one build made, in order, and the exception that ended it, if any. */
  datatype Run = Run(calls: seq<HookCall>, raised: Option<Error>)

  const NotAfterBuild := "You can't use this method once build method of AppBuilder has been called"

  /** `if plugin.options:` — None and an empty list both register nothing. */
  function PluginOptions(plugin: Plugin): (options: seq<FlatConfig.ConfigOption>)
    ensures plugin.options.None? ==> options == []
    ensures plugin.options.Some? ==> options == plugin.options.value
  {
    if plugin.options.Some? then plugin.options.value else []
  }

  /** The build loop over the first `n` plugins, stopping at the first hook that raises. */
  function RunHooks(n: nat, outcome: (nat, Hook) -> Option<Error>): Run {
    if n == 0 then Run([], None)
    else
      var before := RunHooks(n - 1, outcome);
      if before.raised.Some? then before
      else
        var configured := outcome(n - 1, Configure);
        if configured.Some? then Run(before.calls + [HookCall(n - 1, Configure)], configured)
        else Run(before.calls + [HookCall(n - 1, Configure), HookCall(n - 1, Register)], outcome(n - 1, Register))
  }

  /** Configure then register, plugin after plugin: plugin i registers before plugin i + 1 configures. */
  function InOrder(n: nat): (calls: seq<HookCall>)
    ensures |calls| == 2 * n
  {
    seq(2 * n, j requires 0 <= j < 2 * n => HookCall(j / 2, if j % 2 == 0 then Configure else Register))
  }

  lemma InOrderGrows(n: nat)
    ensures InOrder(n + 1) == InOrder(n) + [HookCall(n, Configure), HookCall(n, Register)]
  {
    var l, r := InOrder(n + 1), InOrder(n) + [HookCall(n, Configure), HookCall(n, Register)];
    forall j | 0 <= j < 2 * n + 2 ensures l[j] == r[j] {
      if j >= 2 * n {
        assert j / 2 == n;
      }
    }
  }

  predicate Succeeds(outcome: (nat, Hook) -> Option<Error>, call: HookCall) {
    outcome(call.plugin, call.hook).None?
  }

  /**
   * What a build does: its calls are a prefix of the in-order sequence; every
   * call but a failing last one succeeded; it raises exactly the last call's
   * exception, and it ends cleanly only after the whole sequence.
   */
  lemma {:induction false} RunShape(n: nat, outcome: (nat, Hook) -> Option<Error>)
    ensures var r := RunHooks(n, outcome);
            |r.calls| <= 2 * n && r.calls == InOrder(n)[..|r.calls|]
            && (forall j :: 0 <= j < |r.calls| - 1 ==> Succeeds(outcome, r.calls[j]))
            && (r.raised.None? ==> r.calls == InOrder(n) && forall j :: 0 <= j < |r.calls| ==> Succeeds(outcome, r.calls[j]))
            && (r.raised.Some? ==>
                  |r.calls| > 0 && r.raised == outcome(r.calls[|r.calls| - 1].plugin, r.calls[|r.calls| - 1].hook))
  {
    if n > 0 {
      RunShape(n - 1, outcome);
      InOrderGrows(n - 1);
      var before := RunHooks(n - 1, outcome);
      if before.raised.Some? {
        assert InOrder(n)[..|before.calls|] == InOrder(n - 1)[..|before.calls|];
      }
    }
  }

  /** A build raises exactly when some hook of some plugin would raise. */
  lemma {:induction false} RaisesIffSomeHookFails(n: nat, outcome: (nat, Hook) -> Option<Error>)
    ensures RunHooks(n, outcome).raised.Some? <==> exists i, h :: 0 <= i < n && outcome(i, h).Some?
  {
    if n > 0 {
      RaisesIffSomeHookFails(n - 1, outcome);
      if outcome(n - 1, Configure).Some? {
        assert outcome(n - 1, Configure).Some?;
      } else if outcome(n - 1, Register).Some? {
        assert outcome(n - 1, Register).Some?;
      } else {
        var last := n - 1;
        forall h: Hook ensures outcome(last, h).None? {
          assert h == Configure || h == Register;
        }
      }
    }
  }

  /** Once a build has raised, the plugins after the failing one are not reached. */
  lemma {:induction false} RunStopsAtFailure(n: nat, i: nat, outcome: (nat, Hook) -> Option<Error>)
    requires i <= n
    requires RunHooks(i, outcome).raised.Some?
    ensures RunHooks(n, outcome) == RunHooks(i, outcome)
    decreases n - i
  {
    if i < n {
      RunStopsAtFailure(n - 1, i, outcome);
    }
  }

  /** The web application object: only its identity matters here. */
  class ApiApp {
    constructor() {}
  }

  /** The command-line group object: only its identity matters here. */
  class CliGroup {
    constructor() {}
  }

  class AppBuilder {
    const api: ApiApp
    const cli: CliGroup
    const config: FlatConfig.Configuration
    var plugins: seq<Plugin>
    var built: bool
    /** Every hook call made so far, plugins named by their position in `plugins`. */
    ghost var calls: seq<HookCall>

    /** A fresh application and group, no plugins, not built. */
    constructor(config: FlatConfig.Configuration)
      ensures fresh(api) && fresh(cli) && this.config == config
      ensures plugins == [] && !built && calls == []
    {
      api := new ApiApp();
      cli := new CliGroup();
      this.config := config;
      plugins := [];
      built := false;
      calls := [];
    }

    /** `_ensure_not_built`: raises once the builder has been built. */
    method EnsureNotBuilt() returns (raised: Option<Error>)
      ensures built ==> raised == Some(PlainException(NotAfterBuild))
      ensures !built ==> raised == None
    {
      if built {
        return Some(PlainException(NotAfterBuild));
      }
      return None;
    }

    /**
     * `use_plugin`: after build it raises and changes nothing; before, it
     * registers the plugin's options globally and appends the plugin.
     */
    method UsePlugin(plugin: Plugin, registry: FlatConfig.OptionRegistry) returns (raised: Option<Error>)
      modifies this, registry
      ensures built == old(built) && calls == old(calls)
      ensures old(built) ==> raised == Some(PlainException(NotAfterBuild))
                             && plugins == old(plugins) && registry.options == old(registry.options)
      ensures !old(built) ==> raised == None && plugins == old(plugins) + [plugin]
                              && registry.options == old(registry.options) + PluginOptions(plugin)
    {
      raised := EnsureNotBuilt();
      if raised.Some? {
        return;
      }
      if plugin.options.Some? && plugin.options.value != [] {
        registry.RegisterOptions(plugin.options.value);
      }
      plugins := plugins + [plugin];
    }

    /**
     * `build_app`: nothing once built; otherwise configure then register each
     * plugin in order, and mark the builder built only if no hook raised.
     */
    method BuildApp(outcome: (nat, Hook) -> Option<Error>) returns (raised: Option<Error>)
      modifies this
      ensures plugins == old(plugins)
      ensures old(built) ==> built && raised == None && calls == old(calls)
      ensures !old(built) ==> var run := RunHooks(|plugins|, outcome);
                              calls == old(calls) + run.calls && raised == run.raised
                              && built == run.raised.None?
    {
      if built {
        return None;
      }
      ghost var done: seq<HookCall> := [];
      var i := 0;
      while i < |plugins|
        invariant 0 <= i <= |plugins| && !built && plugins == old(plugins)
        invariant calls == old(calls) + done && RunHooks(i, outcome) == Run(done, None)
      {
        calls := calls + [HookCall(i, Configure)];
        done := done + [HookCall(i, Configure)];
        raised := outcome(i, Configure);
        if raised.Some? {
          RunStopsAtFailure(|plugins|, i + 1, outcome);
          return;
        }
        calls := calls + [HookCall(i, Register)];
        done := done + [HookCall(i, Register)];
        raised := outcome(i, Register);
        if raised.Some? {
          RunStopsAtFailure(|plugins|, i + 1, outcome);
          return;
        }
        i := i + 1;
      }
      built := true;
      raised := None;
    }

    /** `create_api`: build, then hand back the application created with the builder. */
    method CreateApi(outcome: (nat, Hook) -> Option<Error>) returns (app: ApiApp, raised: Option<Error>)
      modifies this
      ensures app == api && plugins == old(plugins)
      ensures old(built) ==> built && raised == None && calls == old(calls)
      ensures !old(built) ==> var run := RunHooks(|plugins|, outcome);
                              calls == old(calls) + run.calls && raised == run.raised
                              && built == run.raised.None?
    {
      raised := BuildApp(outcome);
      app := api;
    }

    /** `create_cli`: build, then hand back the group created with the builder. */
    method CreateCli(outcome: (nat, Hook) -> Option<Error>) returns (group: CliGroup, raised: Option<Error>)
      modifies this
      ensures group == cli && plugins == old(plugins)
      ensures old(built) ==> built && raised == None && calls == old(calls)
      ensures !old(built) ==> var run := RunHooks(|plugins|, outcome);
                              calls == old(calls) + run.calls && raised == run.raised
                              && built == run.raised.None?
    {
      raised := BuildApp(outcome);
      group := cli;
    }
  }

  /**
   * Asking for the application and then the command line runs every hook
   * exactly once in total, in order, when no hook raises; both calls hand
   * back the builder's own objects.
   */
  method ApiThenCliBuildsOnce(builder: AppBuilder, first: (nat, Hook) -> Option<Error>,
                              second: (nat, Hook) -> Option<Error>)
      returns (app: ApiApp, apiRaised: Option<Error>, group: CliGroup, cliRaised: Option<Error>)
    requires !builder.built && builder.calls == []
    requires forall i, h :: 0 <= i < |builder.plugins| ==> first(i, h).None?
    modifies builder
    ensures app == builder.api && group == builder.cli && builder.built
    ensures apiRaised == None && cliRaised == None
    ensures builder.plugins == old(builder.plugins)
    ensures builder.calls == InOrder(|old(builder.plugins)|)
  {
    RaisesIffSomeHookFails(|builder.plugins|, first);
    RunShape(|builder.plugins|, first);
    app, apiRaised := builder.CreateApi(first);
    group, cliRaised := builder.CreateCli(second);
  }
}
