/**
 * `janeiro/plugins/__init__.py`: the base plugin of the hook generation.
 * `setup` names the plugin's logger after the application and the plugin,
 * then calls `configure`; the hooks themselves do nothing by default.
 */
module Plugins {
  import opened Types
  import Configuration
  import Api
  import Cli

  /**
   * `config.app_name + "." + self.__plugin__`: the application name, a dot,
   * the plugin name. An unnamed plugin (`__plugin__` None) cannot be
   * concatenated.
   */
  function LoggerName(appName: string, plugin: Option<string>): (r: Result<string>)
    ensures plugin.None? ==> r == Err(TypeError("can only concatenate str (not \"NoneType\") to str"))
    ensures plugin.Some? ==> r.Ok? && |r.value| == |appName| + 1 + |plugin.value|
                             && r.value[..|appName|] == appName && r.value[|appName|] == '.'
                             && r.value[|appName| + 1..] == plugin.value
  {
    if plugin.None? then Err(TypeError("can only concatenate str (not \"NoneType\") to str"))
    else Ok(appName + "." + plugin.value)
  }

  /** Within one application, the logger name tells the plugins apart. */
  lemma LoggerNamesAreDistinct(appName: string, a: string, b: string)
    requires LoggerName(appName, Some(a)) == LoggerName(appName, Some(b))
    ensures a == b
  {
    var n := LoggerName(appName, Some(a)).value;
    assert a == n[|appName| + 1..] == b;
  }

  class Plugin {
    /** `__plugin__`: None on the base class. */
    const name: Option<string>
    /** The name of the logger set up for the plugin, once `setup` has run. */
    var logger: Option<string>

    constructor(name: Option<string>)
      ensures this.name == name && logger == None
    {
      this.name := name;
      logger := None;
    }

    /** `_setup_logging`: the logger is named after the application and the plugin. */
    method SetupLogging(config: Configuration.Configuration) returns (raised: Option<Error>)
      modifies this
      ensures var n := LoggerName(config.appName, name);
              (n.Ok? ==> raised == None && logger == Some(n.value))
              && (n.Err? ==> raised == Some(n.error) && logger == old(logger))
    {
      var n := LoggerName(config.appName, name);
      if n.Err? {
        return Some(n.error);
      }
      logger := Some(n.value);
      raised := None;
    }

    /** `configure`: does nothing by default. */
    method Configure(config: Configuration.Configuration)
      ensures unchanged(this) && unchanged(config)
    {
    }

    /**
     * `setup`: logger first, then `configure`; a plugin without a name fails
     * on the logger and never reaches `configure`.
     */
    method Setup(config: Configuration.Configuration) returns (raised: Option<Error>)
      modifies this
      ensures var n := LoggerName(config.appName, name);
              (n.Ok? ==> raised == None && logger == Some(n.value))
              && (n.Err? ==> raised == Some(n.error) && logger == old(logger))
      ensures unchanged(config)
    {
      raised := SetupLogging(config);
      if raised.Some? {
        return;
      }
      Configure(config);
    }

    /** `extend_api`: registers nothing by default. */
    method ExtendApi(api: Api.ApiRegistry)
      ensures unchanged(this) && unchanged(api)
    {
    }

    /** `extend_cli`: registers nothing by default. */
    method ExtendCli(cli: Cli.CliRegistry)
      ensures unchanged(this) && unchanged(cli)
    {
    }

    /** `cleanup`: does nothing by default. */
    method Cleanup()
      ensures unchanged(this)
    {
    }
  }
}
