/**
 * `janeiro/plugins/defaults.py`: the API plugin's "start" command, the
 * healthcheck plugin's "health" command and route, and the URL the health
 * command probes.
 */
module DefaultsPlugins {
  import opened Types
  import Text
  import Cli
  import Api

  const ApiCommandGroup := "api"
  const ApiGroupDescription := "Commands to manage API"

  /** The shared `--port` option: an int defaulting to 8000. */
  const PortOption := Cli.CliOption(["--port"], Some("int"), Int(8000), Some("Port on which API server listens"))
  const HostOption := Cli.CliOption(["--host"], Some("str"), Str("127.0.0.1"))
  const DebugOption := Cli.CliOption(["--debug"], Some("bool"), Bool(false), isFlag := true)
  const WorkersOption := Cli.CliOption(["-w", "--workers"], Some("int"), Null,
                                       Some("Number of workers processes for the ASGI server."))

  const StartOptions := [PortOption, HostOption, DebugOption, WorkersOption]
  const StartCommand := Cli.Command("start", "Start API using ASGI server.", "cmd_start_api")
  const HealthCommand := Cli.Command("health", "Healthcheck API and fails with exit code 1 if API is down.",
                                     "cmd_healthcheck_api")

  /** "start" carries port, host, debug and workers, in that order, with their defaults. */
  lemma StartCommandOptions()
    ensures var c := Cli.Decorate(StartCommand, StartOptions);
            Cli.BaseOf(c).name == "start"
            && Cli.OptionsOf(c) == [PortOption, HostOption, DebugOption, WorkersOption]
            && Cli.OptionsOf(c)[0].default == Int(8000) && Cli.OptionsOf(c)[1].default == Str("127.0.0.1")
            && Cli.OptionsOf(c)[2].default == Bool(false) && Cli.OptionsOf(c)[2].isFlag
            && Cli.OptionsOf(c)[3].default == Null
  {
    Cli.DecorateRoundTrip(StartCommand, StartOptions);
  }

  /** "health" carries only the port option. */
  lemma HealthCommandOptions()
    ensures Cli.OptionsOf(Cli.Decorate(HealthCommand, [PortOption])) == [PortOption]
    ensures Cli.BaseOf(Cli.Decorate(HealthCommand, [PortOption])).name == "health"
  {
    Cli.DecorateRoundTrip(HealthCommand, [PortOption]);
  }

  class ApiPlugin {
    const asgiFactory: string

    constructor(asgiFactory: string)
      ensures this.asgiFactory == asgiFactory
    {
      this.asgiFactory := asgiFactory;
    }

    /** `extend_cli`: declare "api", then file "start" with its four options. */
    method ExtendCli(cli: Cli.CliRegistry)
      modifies cli
      ensures cli.description == old(cli.description)
      ensures cli.groupDescriptions == Cli.Declared(old(cli.groupDescriptions), ApiCommandGroup, Some(ApiGroupDescription))
      ensures cli.groupCommands
              == Cli.Filed(old(cli.groupCommands), Some(ApiCommandGroup), Cli.Decorate(StartCommand, StartOptions))
    {
      cli.DeclareGroup(ApiCommandGroup, Some(ApiGroupDescription));
      cli.AddCommand("cmd_start_api", "start", "Start API using ASGI server.", StartOptions, Some(ApiCommandGroup));
    }
  }

  /* ---------- the healthcheck ---------- */

  const UrlPrefix := "http://127.0.0.1:"

  /** `"http://127.0.0.1:%s%s" % (port, healthcheck_path)`. */
  function HealthcheckUrl(port: int, path: string): (url: string)
    ensures |url| == |UrlPrefix| + |Text.IntToString(port)| + |path|
    ensures url[..|UrlPrefix|] == UrlPrefix
    ensures url[|url| - |path|..] == path
  {
    UrlPrefix + Text.IntToString(port) + path
  }

  /** The port can be read back from the URL, between the host and the path. */
  lemma HealthcheckUrlPort(port: nat, path: string)
    ensures var url := HealthcheckUrl(port, path);
            Text.ParseDigits(url[|UrlPrefix|..|url| - |path|]) == port
  {
    var url := HealthcheckUrl(port, path);
    assert url[|UrlPrefix|..|url| - |path|] == Text.NatToString(port);
    Text.ParseNatToString(port);
  }

  /** For one port, the URL determines the path. */
  lemma HealthcheckUrlInjective(port: int, a: string, b: string)
    requires HealthcheckUrl(port, a) == HealthcheckUrl(port, b)
    ensures a == b
  {
    var n := |UrlPrefix| + |Text.IntToString(port)|;
    assert a == HealthcheckUrl(port, a)[n..];
    assert b == HealthcheckUrl(port, b)[n..];
  }

  /** The route `extend_api` registers, as written: always at "/healthcheck". */
  function HealthRouteAsWritten(healthcheckPath: string): (r: Api.Route)
    ensures r.path == "/healthcheck" && r.endpoint == "endpoint_healthcheck"
  {
    Api.Route("/healthcheck", "endpoint_healthcheck", Some("HealthCheckDTO"))
  }

  /** The route at the configured path, which the health command probes. */
  function HealthRoute(healthcheckPath: string): (r: Api.Route)
    ensures r.path == healthcheckPath && r.endpoint == "endpoint_healthcheck"
  {
    Api.Route(healthcheckPath, "endpoint_healthcheck", Some("HealthCheckDTO"))
  }

  /**
   * As written, the health command probes the registered route only when the
   * path is the default one: with "/status" it probes a URL no route serves.
   */
  lemma ProbeMissesRouteAsWritten(port: int, healthcheckPath: string)
    ensures HealthcheckUrl(port, healthcheckPath) == HealthcheckUrl(port, HealthRouteAsWritten(healthcheckPath).path)
            <==> healthcheckPath == "/healthcheck"
    ensures HealthcheckUrl(port, "/status") != HealthcheckUrl(port, HealthRouteAsWritten("/status").path)
  {
    if HealthcheckUrl(port, healthcheckPath) == HealthcheckUrl(port, HealthRouteAsWritten(healthcheckPath).path) {
      HealthcheckUrlInjective(port, healthcheckPath, "/healthcheck");
    }
    if HealthcheckUrl(port, "/status") == HealthcheckUrl(port, "/healthcheck") {
      HealthcheckUrlInjective(port, "/status", "/healthcheck");
    }
  }

  /** With the route at the configured path, the probe always reaches the registered route. */
  lemma ProbeReachesRoute(port: int, healthcheckPath: string)
    ensures HealthcheckUrl(port, healthcheckPath) == HealthcheckUrl(port, HealthRoute(healthcheckPath).path)
    ensures HealthcheckUrl(port, healthcheckPath)[|HealthcheckUrl(port, healthcheckPath)| - |healthcheckPath|..]
            == HealthRoute(healthcheckPath).path
  {
  }

  class HealthCheckPlugin {
    const apiVersion: string
    const healthcheckPath: string

    /** `__init__(api_version, healthcheck_path="/healthcheck")`. */
    constructor(apiVersion: string, healthcheckPath: string := "/healthcheck")
      ensures this.apiVersion == apiVersion && this.healthcheckPath == healthcheckPath
    {
      this.apiVersion := apiVersion;
      this.healthcheckPath := healthcheckPath;
    }

    /** `extend_cli`: declare "api" with the API plugin's text, then file "health" with the port option. */
    method ExtendCli(cli: Cli.CliRegistry)
      modifies cli
      ensures cli.description == old(cli.description)
      ensures cli.groupDescriptions == Cli.Declared(old(cli.groupDescriptions), ApiCommandGroup, Some(ApiGroupDescription))
      ensures cli.groupCommands
              == Cli.Filed(old(cli.groupCommands), Some(ApiCommandGroup), Cli.Decorate(HealthCommand, [PortOption]))
    {
      cli.DeclareGroup(ApiCommandGroup, Some(ApiGroupDescription));
      cli.AddCommand("cmd_healthcheck_api", "health", "Healthcheck API and fails with exit code 1 if API is down.",
                     [PortOption], Some(ApiCommandGroup));
    }

    /** `extend_api` as written: the route goes to "/healthcheck" whatever the configured path. */
    method ExtendApi(api: Api.ApiRegistry)
      modifies api
      ensures api.routes == old(api.routes) + [HealthRouteAsWritten(healthcheckPath)]
      ensures api.dependencies == old(api.dependencies) && api.middlewares == old(api.middlewares)
    {
      api.AddApiRoute("/healthcheck", "endpoint_healthcheck", Some("HealthCheckDTO"));
    }

    /** `extend_api` with the route at the configured path, where the health command looks for it. */
    method ExtendApiAtConfiguredPath(api: Api.ApiRegistry)
      modifies api
      ensures api.routes == old(api.routes) + [HealthRoute(healthcheckPath)]
      ensures api.dependencies == old(api.dependencies) && api.middlewares == old(api.middlewares)
    {
      api.AddApiRoute(healthcheckPath, "endpoint_healthcheck", Some("HealthCheckDTO"));
    }
  }

  /** Both default plugins describe "api" the same way: the second declaration changes nothing. */
  lemma ApiGroupDescribedOnce(descriptions: map<string, Option<string>>)
    ensures var once := Cli.Declared(descriptions, ApiCommandGroup, Some(ApiGroupDescription));
            Cli.Declared(once, ApiCommandGroup, Some(ApiGroupDescription)) == once
  {
  }

  /** On a registry that has not seen "api", either default plugin gives it the shared text. */
  lemma ApiGroupGetsSharedText(descriptions: map<string, Option<string>>)
    requires ApiCommandGroup !in descriptions
    ensures Cli.Declared(descriptions, ApiCommandGroup, Some(ApiGroupDescription))[ApiCommandGroup]
            == Some(ApiGroupDescription)
  {
  }
}
