/**
 * `janeiro/plugins/database.py`: the database plugin's options, the two
 * option reads of `configure`, and the "db" commands it files.
 */
module DatabasePlugin {
  import opened Types
  import Options
  import Serialize
  import Loaders
  import LoadersEnvironment
  import Configuration
  import Plugins
  import Cli

  const DbCommandGroup := "db"
  const PluginName := "database"

  /** `database.url`: a string with no default, so it must come from the loader. */
  const DatabaseUrlOption := Options.ConfigOption("database.url", "str")

  /** `database.auto_migrate`: a boolean defaulting to False. */
  const AutoMigrateOption := Options.ConfigOption("database.auto_migrate", "bool", Bool(false))

  /** The database URL has neither default: an unset variable is a configuration error naming it. */
  lemma DatabaseUrlIsRequired(prefix: Option<string>, env: map<string, string>, cache: map<string, Value>,
                              d: Serialize.Deserializer, rt: Runtime)
    requires !Configuration.Cached(cache, "database.url")
    requires LoadersEnvironment.VariableName(prefix, "database.url") !in env
    ensures var l := Configuration.GetSpec(cache, Loaders.EnvironmentLoader(prefix, env), d, rt, DatabaseUrlOption);
            l.result == Err(ConfigurationError("Missing environment variable: "
                                               + LoadersEnvironment.VariableName(prefix, "database.url")))
            && l.cache == cache
  {
    Configuration.MissingEnvironmentVariable(prefix, env, cache, d, rt, "database.url", "str");
  }

  /** An unset auto-migrate variable gives False, taken as is and cached. */
  lemma AutoMigrateDefaultsToFalse(prefix: Option<string>, env: map<string, string>, cache: map<string, Value>,
                                   d: Serialize.Deserializer, rt: Runtime)
    requires !Configuration.Cached(cache, "database.auto_migrate")
    requires LoadersEnvironment.VariableName(prefix, "database.auto_migrate") !in env
    ensures var l := Configuration.GetSpec(cache, Loaders.EnvironmentLoader(prefix, env), d, rt, AutoMigrateOption);
            l.result == Ok(Bool(false)) && l.cache == cache["database.auto_migrate" := Bool(false)]
  {
  }

  /* ---------- the commands of the "db" group ---------- */

  const MessageOption := Cli.CliOption(["-m", "--message"], help := Some("Short message describing revision"))
  const UpRevisionOption := Cli.CliOption(["-r", "--revision"], default := Null,
                                          help := Some("Identifier of the up revision to apply. Left empty means latest."))
  const DownRevisionOption := Cli.CliOption(["-r", "--revision"], default := Null,
                                            help := Some("Identifier of the down revision to apply. Left empty means previous."))

  const InitCommand := Cli.Command("init", "Initialize database schemas and tables.", "cmd_db_init")
  const PingCommand := Cli.Command("ping", "Performs a database connection test.", "cmd_db_ping")
  const RevisionCommand := Cli.Decorate(
    Cli.Command("revision", "Automatically create a new database revision", "cmd_db_revision"), [MessageOption])
  const UpgradeCommand := Cli.Decorate(
    Cli.Command("upgrade", "Upgrade database structure to specified revision.", "cmd_db_upgrade"), [UpRevisionOption])
  const DowngradeCommand := Cli.Decorate(
    Cli.Command("downgrade", "Downgrade database structure to specified revision.", "cmd_db_downgrade"), [DownRevisionOption])

  /** The commands `extend_cli` files under "db", in order: the migration ones only with a migrations folder. */
  function DbCommands(migrationsFolder: Option<string>): seq<Cli.Command> {
    [InitCommand, PingCommand]
    + (if Truthy(migrationsFolder) then [RevisionCommand, UpgradeCommand, DowngradeCommand] else [])
  }

  /** The command names in order, and the one option each migration command carries. */
  lemma DbCommandsShape(migrationsFolder: Option<string>)
    ensures var cs := DbCommands(migrationsFolder);
            |cs| == (if Truthy(migrationsFolder) then 5 else 2)
            && Cli.BaseOf(cs[0]).name == "init" && Cli.BaseOf(cs[1]).name == "ping"
            && (Truthy(migrationsFolder) ==>
                  Cli.BaseOf(cs[2]).name == "revision" && Cli.OptionsOf(cs[2]) == [MessageOption]
                  && Cli.BaseOf(cs[3]).name == "upgrade" && Cli.OptionsOf(cs[3]) == [UpRevisionOption]
                  && Cli.BaseOf(cs[4]).name == "downgrade" && Cli.OptionsOf(cs[4]) == [DownRevisionOption])
            && forall i :: 0 <= i < 2 ==> Cli.OptionsOf(cs[i]) == []
  {
    Cli.DecorateRoundTrip(Cli.Command("revision", "Automatically create a new database revision", "cmd_db_revision"),
                          [MessageOption]);
    Cli.DecorateRoundTrip(Cli.Command("upgrade", "Upgrade database structure to specified revision.", "cmd_db_upgrade"),
                          [UpRevisionOption]);
    Cli.DecorateRoundTrip(Cli.Command("downgrade", "Downgrade database structure to specified revision.", "cmd_db_downgrade"),
                          [DownRevisionOption]);
  }

  class DatabasePlugin {
    const migrationsFolder: Option<string>
    var databaseUrl: Value
    var autoMigrate: Value

    /** `__init__(migrations_folder=None)`; the two settings are not read yet. */
    constructor(migrationsFolder: Option<string> := None)
      ensures this.migrationsFolder == migrationsFolder
      ensures databaseUrl == Undefined && autoMigrate == Undefined
    {
      this.migrationsFolder := migrationsFolder;
      databaseUrl := Undefined;
      autoMigrate := Undefined;
    }

    /**
     * `configure`: read the URL, then the auto-migrate flag, through
     * `config.get`; the first exception stops it.
     */
    method Configure(config: Configuration.Configuration) returns (raised: Option<Error>)
      modifies this, config
      ensures var first := Configuration.GetSpec(old(config.cache), config.loader, config.deserializer,
                                                 config.runtime, DatabaseUrlOption);
              var second := Configuration.GetSpec(first.cache, config.loader, config.deserializer,
                                                  config.runtime, AutoMigrateOption);
              (first.result.Err? ==>
                 raised == Some(first.result.error) && config.cache == first.cache
                 && config.calls == old(config.calls) + first.calls
                 && databaseUrl == old(databaseUrl) && autoMigrate == old(autoMigrate))
              && (first.result.Ok? ==>
                    databaseUrl == first.result.value && config.cache == second.cache
                    && config.calls == old(config.calls) + first.calls + second.calls
                    && (second.result.Ok? ==> raised == None && autoMigrate == second.result.value)
                    && (second.result.Err? ==> raised == Some(second.result.error) && autoMigrate == old(autoMigrate)))
    {
      var url := config.Get(DatabaseUrlOption);
      if url.Err? {
        return Some(url.error);
      }
      databaseUrl := url.value;
      var migrate := config.Get(AutoMigrateOption);
      if migrate.Err? {
        return Some(migrate.error);
      }
      autoMigrate := migrate.value;
      raised := None;
    }

    /** `extend_cli`: declare "db", then file its commands in order. */
    method ExtendCli(cli: Cli.CliRegistry)
      modifies cli
      ensures cli.groupDescriptions
              == Cli.Declared(old(cli.groupDescriptions), DbCommandGroup, Some("Commands to manage database"))
      ensures cli.groupCommands == Cli.FiledAll(old(cli.groupCommands), Some(DbCommandGroup), DbCommands(migrationsFolder))
      ensures cli.description == old(cli.description)
    {
      var group := Some(DbCommandGroup);
      ghost var commands := cli.groupCommands;
      cli.DeclareGroup(DbCommandGroup, Some("Commands to manage database"));
      cli.AddCommand("cmd_db_init", "init", "Initialize database schemas and tables.", [], group);
      ghost var filed := [InitCommand];
      assert cli.groupCommands == Cli.FiledAll(commands, group, filed);
      cli.AddCommand("cmd_db_ping", "ping", "Performs a database connection test.", [], group);
      Cli.FiledAllStep(commands, group, filed, PingCommand);
      filed := filed + [PingCommand];
      if Truthy(migrationsFolder) {
        cli.AddCommand("cmd_db_revision", "revision", "Automatically create a new database revision",
                       [MessageOption], group);
        Cli.FiledAllStep(commands, group, filed, RevisionCommand);
        filed := filed + [RevisionCommand];
        cli.AddCommand("cmd_db_upgrade", "upgrade", "Upgrade database structure to specified revision.",
                       [UpRevisionOption], group);
        Cli.FiledAllStep(commands, group, filed, UpgradeCommand);
        filed := filed + [UpgradeCommand];
        cli.AddCommand("cmd_db_downgrade", "downgrade", "Downgrade database structure to specified revision.",
                       [DownRevisionOption], group);
        Cli.FiledAllStep(commands, group, filed, DowngradeCommand);
        filed := filed + [DowngradeCommand];
      }
      assert filed == DbCommands(migrationsFolder);
    }
  }

  /** The plugin's logger is named "<application>.database". */
  lemma DatabaseLoggerName(appName: string)
    ensures Plugins.LoggerName(appName, Some(PluginName)) == Ok(appName + ".database")
  {
    assert "." + PluginName == ".database";
    assert appName + "." + PluginName == appName + ("." + PluginName);
  }
}
