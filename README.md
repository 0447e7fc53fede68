# janeiro configuration and plugin kernel in Dafny

This project models the core of janeiro, a small Python toolkit that builds a
web API and a command-line interface out of plugins around a shared
configuration. It covers:

- **Configuration resolution** (`janeiro/config/` package). This covers the
  option descriptor and its default rule, the two deserializers, the value
  cache, and the memoising `Configuration.get`. Loaders map a dotted key to
  an environment variable or a fixture map. A miss falls back to the
  option's default. Only loader-supplied values are deserialised. A value
  still missing raises through the loader's missing-key hook.
- **The second loader generation** (`janeiro/config/loader/` and
  `janeiro/config/config.py`). Here the prefix is applied only when truthy,
  and the required-option check raises `ValueError`.
- **The single-module first generation** (`janeiro/config.py`). It has its
  own loaders, a delegating configuration, the global option list, and
  `print_options`.
- **The option registry** of the package (`janeiro/config/registry.py`). It
  shares the `print_options` layout: a stable sort by key, a column as wide
  as the longest transformed name, and tuple descriptions continued under
  the column.
- **The accumulation registries** for command-line groups and commands
  (`janeiro/cli.py`) and for API routes, dependencies and middlewares
  (`janeiro/api.py`).
- **The composition root** `AppBuilder` (`janeiro/app.py`). Plugins are
  collected until build. Building runs configure-then-register per plugin in
  order, and succeeds at most once.
- **The plugins' contributions.** This covers:
  - the base plugin's logger name and no-op hooks;
  - the database plugin's options, option reads and "db" commands;
  - the API and healthcheck plugins' commands, route and probe URL;
  - the config plugin's "options" and "dump" commands.

Python values are the `Types.Value` datatype. `Undefined` is the UNDEFINED
marker and `Null` is None; they are distinct. Exceptions are the
`Types.Error` cases, carried by `Result` and `Option`. Python's type tests,
constructors and `from_string` class methods are the abstract functions of
`Types.Runtime`. The environment is an input map. Printing commands return
the lines they print, plus the exception that stopped them, if any.

## Model

Definitions that carry no contract of their own are covered through the rows of the lemmas and methods about them:
- `Listing.SortByKey`, `Emit`, `EntryLines`, `NameLine`, `RowLine` and `Joined` (janeiro/config/registry.py:13-32);
- `Cli.Declared`, `Filed` and `Decorate` (janeiro/cli.py:12-33);
- `App.RunHooks` (janeiro/app.py:32-40);
- `DatabasePlugin.DbCommands` (janeiro/plugins/database.py:84-139);
- `ConfigPlugin.DumpLine` and `DumpOutput` (janeiro/plugins/defaults/config.py:19-26);
- `Configuration.Settle` (janeiro/config/__init__.py:43-46);
- `FlatConfig.EnvironmentOptionName` (janeiro/config.py:24-27);
- `LoaderConfiguration.Get`, the corrected `get` of janeiro/config/config.py:10-14, through `LoaderConfiguration.GetFailsIffRequiredAndUndefined`.

| member | source | states |
|---|---|---|
| Options.GetDefault | janeiro/config/options.py:16-24 | A default factory wins even over a static default. Without one, the static default is used. With neither, the result is UNDEFINED. A factory's exception propagates. |
| Options.DefaultsStartUndefined | janeiro/config/options.py:13-14 | A descriptor built from a key and a type has both defaults UNDEFINED, so its default is UNDEFINED. |
| Options.GetDefaultUndefinedIff | janeiro/config/options.py:19-22 | Without a factory, the default is UNDEFINED exactly when no static default is set. |
| Options.NoneIsADefault | janeiro/config/options.py:19-20 | None given as a default is returned; it is not the UNDEFINED marker. |
| Serialize.DefaultDeserialize | janeiro/serialize.py:14-18 | An instance of the target type comes back unchanged. Anything else goes to the type's constructor, whose outcome, exceptions included, is the result. |
| Serialize.DefaultDeserializeIdempotent | janeiro/serialize.py:14-18 | When the first result is an instance of the type, deserialising it again gives the same result. |
| Serialize.Deserialize | janeiro/serialize.py:7-18 | The abstract deserializer raises NotImplementedError. The default one short-cuts instances. |
| Serialize.OnlyDefaultShortCuts | janeiro/config/deserializer.py:7-11 | On an already typed value the default deserializer returns it, while the `from_string` one still converts it. |
| ConfigDeserializer.Deserialize | janeiro/config/deserializer.py:7-11 | `from_string` is used whenever the type has it; otherwise the constructor is used. |
| Cache.ConfigCache.constructor | janeiro/config/cache.py:10-11 | A new cache is empty. |
| Cache.ConfigCache.Contents | janeiro/config/cache.py:13-14 | The copy has exactly the cache's keys and values. |
| Cache.ConfigCache.Set | janeiro/config/cache.py:16-17 | Only the entry for the option's key changes, and it now holds the value, overwriting any earlier one. |
| Cache.ConfigCache.Get | janeiro/config/cache.py:19-20 | The stored value for the option's key, or UNDEFINED for a key never set. Any option with that key sees it. |
| LoadersEnvironment.VariableName | janeiro/config/loaders/environment.py:12-14 | For ASCII keys, the name has no "." and no lower-case letter, and is as long as the prefixed key. |
| LoadersEnvironment.VariableNameExample | janeiro/config/loaders/environment.py:12-14 | Prefix "example" and key "database.url" give "EXAMPLE_DATABASE_URL". |
| LoadersEnvironment.EmptyPrefixAddsUnderscore | janeiro/config/loaders/environment.py:13 | An empty prefix is applied, because the check is `is None`, and gives a leading "_". |
| LoadersEnvironment.PrefixIsPartOfTheKey | janeiro/config/loaders/environment.py:13-14 | A prefix behaves as the first segment of the dotted key. |
| LoadersEnvironment.VariableNameIdempotent | janeiro/config/loaders/environment.py:13-14 | Without a prefix, transforming a variable name again changes nothing. |
| LoadersEnvironment.Get | janeiro/config/loaders/environment.py:16-18 | The environment entry for the variable name, or UNDEFINED when it is unset. |
| LoadersEnvironment.RaiseMissingKey | janeiro/config/loaders/environment.py:20-22 | Always a ConfigurationError "Missing environment variable: " + variable name. |
| LoadersTest.Get | janeiro/config/loaders/test.py:11-12 | The mapped value for a present key. A missing key gives None, not UNDEFINED. |
| LoadersTest.RaiseMissingKey | janeiro/config/loaders/test.py:14-15 | Always a ConfigurationError "Missing configuration key: " + the untransformed key. |
| Loaders.Get | janeiro/config/loaders/__init__.py:4-7 | The environment and fixture loaders never raise from `get`. Another loader's outcome is its own. |
| Loaders.RaiseMissingKey | janeiro/config/loaders/__init__.py:9-11 | Both shown loaders raise a ConfigurationError. |
| Configuration.Fetch | janeiro/config/__init__.py:33-36 | A loader exception is wrapped as a ConfigurationError caused by it. A value passes through. |
| Configuration.ResolveValue | janeiro/config/__init__.py:32-46 | Resolution always starts by asking the loader for the option's key. |
| Configuration.GetSpec | janeiro/config/__init__.py:48-53 | A cache hit returns the cached value with no call at all. A miss makes exactly the calls of the resolution and has its outcome. |
| Configuration.Configuration.constructor | janeiro/config/__init__.py:14-26 | The cache is empty. Without a deserializer, the default deserializer is used. |
| Configuration.Configuration.Get | janeiro/config/__init__.py:48-53 | Result, new cache and calls made are those of `GetSpec` on the old cache. |
| Configuration.LoaderFailureIsWrapped | janeiro/config/__init__.py:33-36 | A raising loader gives a ConfigurationError caused by its exception, and nothing else is called. |
| Configuration.MissUsesDefaultWithoutDeserializing | janeiro/config/__init__.py:38-41 | On an UNDEFINED loader value the default is taken and the deserializer is never called. A real default is the result, and a default factory's exception is the outcome, unwrapped. |
| Configuration.LoaderValueIsDeserialized | janeiro/config/__init__.py:40-41 | Every loader value goes to the deserializer with the option's type, and the default is not consulted. Unless it gives UNDEFINED, the deserializer's outcome is the result, and its exceptions reach the caller unwrapped. |
| Configuration.UndefinedRaisesMissingKey | janeiro/config/__init__.py:43-44 | With no loader value and no default, the missing-key hook is called and its exception is the outcome. |
| Configuration.MissingEnvironmentVariable | janeiro/config/__init__.py:43-53 | An unset variable for an option with no default fails naming the variable and caches nothing. |
| Configuration.TestLoaderMissDeserializesNone | janeiro/config/loaders/test.py:11-12 | The fixture loader's None for a missing key is deserialised, and the default is never consulted. |
| Configuration.TypedFixtureValueRoundTrips | janeiro/config/__init__.py:40-52 | A fixture value already of the option's type comes back unchanged through the default deserializer and is cached. |
| Configuration.GetMemoizes | janeiro/config/__init__.py:49-53 | After a successful `get`, any option with the same key gets the same value from the cache. Its own type and default are ignored, and nothing is called. |
| Configuration.GetKeepsOtherEntries | janeiro/config/__init__.py:49-53 | `get` writes only its own key and never replaces a value already cached. |
| Configuration.GetStoresResult | janeiro/config/__init__.py:51-52 | After a successful `get`, the cache holds the result under the option's key. |
| LoaderEnvironment.OptionName | janeiro/config/loader/environment.py:12-15 | The name has no "." and no ASCII lower-case letter. |
| LoaderEnvironment.EmptyPrefixMeansNone | janeiro/config/loader/environment.py:14 | An empty prefix is not applied; it behaves as no prefix. |
| LoaderEnvironment.AgreesWithVariableName | janeiro/config/loader/environment.py:12-15 | The name equals the older loader's for every prefix except "", where the two differ. |
| LoaderEnvironment.MissingKeyErrorMessage | janeiro/config/loader/environment.py:17-18 | "Missing required environment variable: " + transformed name. |
| LoaderEnvironment.Get | janeiro/config/loader/environment.py:20-22 | The environment entry for the transformed name, or UNDEFINED. |
| LoaderDictionnary.OptionName | janeiro/config/loader/dictionnary.py:10-11 | The identity. |
| LoaderDictionnary.Get | janeiro/config/loader/dictionnary.py:13-15 | The value under the untransformed key, or None when it is missing. |
| LoaderBase.GetMissingKeyErrorMessage | janeiro/config/loader/base.py:5-6 | The dictionary loader defines no message, so the call raises NotImplementedError, and only for it. |
| LoaderBase.GetWithOptionObject | janeiro/config/config.py:11 | Handing an option object to either loader's `get` raises a TypeError or an AttributeError. |
| LoaderConfiguration.GetAsWritten | janeiro/config/config.py:10-14 | As written, `get` always raises a TypeError or an AttributeError. |
| LoaderConfiguration.GetAsWrittenNeverSucceeds | janeiro/config/config.py:11 | For every option, `get` as written returns no value. |
| LoaderConfiguration.GetFailsIffRequiredAndUndefined | janeiro/config/config.py:10-14 | The corrected `get` fails exactly for a required option whose loader value is UNDEFINED. Otherwise it returns the loader's value unchanged. |
| LoaderConfiguration.MissingEnvironmentVariableMessage | janeiro/config/config.py:12-13 | With the environment loader, the failure is a ValueError "Missing required environment variable: NAME". |
| LoaderConfiguration.RequiredHasNoDefault | janeiro/config/config.py:12 | A required option's default rule yields UNDEFINED. |
| LoaderConfiguration.GetOptionName | janeiro/config/config.py:16-17 | Delegates to the loader unchanged. |
| FlatConfig.SameNamingAsLoaderPackage | janeiro/config.py:24-27 | The first-generation name equals the `config/loader/` one: a truthy prefix, no ".", no ASCII lower case. |
| FlatConfig.GetOptionName | janeiro/config.py:24-27 | The environment loader transforms the key. `DictConfigLoader` returns it unchanged. |
| FlatConfig.LoaderGet | janeiro/config.py:29-31 | The environment loader reads the variable named from `option.key`, and None when unset. `DictConfigLoader` has no `get`, so the call raises. |
| FlatConfig.Get | janeiro/config.py:51-52 | Delegates to the loader. |
| FlatConfig.ConfigOptionName | janeiro/config.py:54-55 | Delegates to the loader. |
| FlatConfig.GetDoesNotCache | janeiro/config.py:51-52 | With no cache, a changed variable is seen by the next `get`. |
| FlatConfig.OptionRegistry.RegisterOptions | janeiro/config.py:58-62 | The given options are appended at the end in argument order, duplicates kept. |
| FlatConfig.OptionRegistry.PrintOptions | janeiro/config.py:65-84 | Prints the listing of the registered options named by the configuration. The list itself is not reordered. |
| Listing.SortByKeySorted | janeiro/config/registry.py:14 | The sorted options are in key order. |
| Listing.SortByKeyPermutes | janeiro/config/registry.py:14 | The sorted options are exactly the registered ones, duplicates included. |
| Listing.SortByKeyStable | janeiro/config/registry.py:14 | Options with equal keys keep their registration order. |
| Listing.KeyLeTotal | janeiro/config/registry.py:14 | Python's string order compares any two keys. |
| Listing.KeyLeTransitive | janeiro/config/registry.py:14 | Python's string order is transitive. |
| Listing.KeyLeAntisymmetric | janeiro/config/registry.py:14 | Keys ordered both ways are equal. |
| Listing.Width | janeiro/config/registry.py:16-20 | The column width is at least every name's length and equal to one of them, or 0 with no options. |
| Listing.ColumnWidth | janeiro/config/registry.py:16-20 | The width loop computes the widest transformed name. |
| Listing.EmitAll | janeiro/config/registry.py:22-32 | The printing loop produces each option's lines in order, and stops at the first option that raises. |
| Listing.EmitStopsAtFailure | janeiro/config/registry.py:22-32 | After an option raises, nothing more is printed and the exception stays. |
| Listing.Render | janeiro/config/registry.py:13-32 | `print_options` is the listing of the sorted options with the computed width. |
| Listing.NameLineAligned | janeiro/config/registry.py:23-28 | A name line is the name padded with spaces to width + 3, one space, then the description text. |
| Listing.RowLineAligned | janeiro/config/registry.py:29-31 | A continuation line is width + 4 spaces, then the row. |
| Listing.EntryLinesShape | janeiro/config/registry.py:22-32 | An option prints its name line, one line per further tuple row, and a blank line. Only an empty tuple raises. |
| Listing.ColumnFitsEveryName | janeiro/config/registry.py:16-20 | Every name fits in the column. |
| Listing.EmitConcatenates | janeiro/config/registry.py:22-32 | With no empty tuple, nothing raises, the lines are each option's own line group in order, and the line count is 2 per string description plus rows + 1 per tuple. |
| Listing.EmptyRegistryPrintsNothing | janeiro/config/registry.py:13-20 | An empty registry prints nothing, with width 0. |
| Registry.OptionRegistry.RegisterOptions | janeiro/config/registry.py:9-10 | The given options are appended at the end in argument order, duplicates kept. |
| Registry.OptionRegistry.PrintOptions | janeiro/config/registry.py:13-32 | Prints the listing of the registered options named by `config.get_option_name`. The list itself is not reordered. |
| Registry.ListingExample | janeiro/config/registry.py:13-32 | "database.url" then "app.debug" (a two-row tuple), with identity names, print in key order in a 15-column field, the second row under the column, and a blank line after each. |
| Cli.DecorateRoundTrip | janeiro/cli.py:29-32 | A command's options come back in list order over the bare command: the first option is innermost. |
| Cli.ApplyOptions | janeiro/cli.py:30-32 | The loop wraps the command with each option in turn. |
| Cli.FirstDescriptionWins | janeiro/cli.py:12-14 | Once a group has a description that is not None, later declarations do not change it. |
| Cli.NoneDoesNotBlock | janeiro/cli.py:13-14 | A None description is replaced by a later declaration. |
| Cli.DeclaredFramesOtherGroups | janeiro/cli.py:12-14 | Declaring a group changes no other group's description. |
| Cli.FiledGrowsOneList | janeiro/cli.py:25-33 | Filing a command appends it at the end of its group's list, creating the list if needed. Other lists are unchanged. |
| Cli.FiledAllStep | janeiro/cli.py:25-33 | Successive filings under one group append in call order. |
| Cli.FirstCommandCreatesList | janeiro/cli.py:25-27 | A group's first command creates its list, which then holds only that command. |
| Cli.CliRegistry.constructor | janeiro/cli.py:7-10 | No description, no group descriptions, no command lists. |
| Cli.CliRegistry.DeclareGroup | janeiro/cli.py:12-14 | Descriptions follow the first-non-None rule. Commands and the registry description are unchanged. |
| Cli.CliRegistry.AddCommand | janeiro/cli.py:16-33 | The decorated command is filed at the end of its group's list (None is the root group). Descriptions are unchanged. |
| Api.ApiRegistry.constructor | janeiro/api.py:11-14 | No routes, dependencies or middlewares. |
| Api.ApiRegistry.AddApiRoute | janeiro/api.py:16-18 | One route is appended; the other lists are unchanged. |
| Api.ApiRegistry.AddDependency | janeiro/api.py:20-21 | One wrapped dependency is appended; the other lists are unchanged. |
| Api.ApiRegistry.AddMiddleware | janeiro/api.py:23-24 | One (middleware, options) pair is appended; the other lists are unchanged. |
| Api.ApiRegistry.GetDependencies | janeiro/api.py:26-27 | The stored list, in registration order. |
| Api.ApiRegistry.GetMiddlewares | janeiro/api.py:29-30 | The stored list, in registration order. |
| App.PluginOptions | janeiro/app.py:28-29 | Absent options register nothing; present ones are registered as given. |
| App.InOrderGrows | janeiro/app.py:36-38 | One more plugin adds its configure call and then its register call, after all earlier calls. |
| App.RunShape | janeiro/app.py:36-40 | A build's calls are a prefix of configure/register per plugin in order, and every call but a failing last one succeeded. The build raises exactly the last call's exception. It ends cleanly only after the whole sequence. |
| App.RaisesIffSomeHookFails | janeiro/app.py:36-40 | A build raises exactly when some hook of some plugin would raise. |
| App.RunStopsAtFailure | janeiro/app.py:36-38 | Plugins after the failing one are not reached. |
| App.AppBuilder.constructor | janeiro/app.py:13-18 | A fresh application and group, no plugins, not built. |
| App.AppBuilder.EnsureNotBuilt | janeiro/app.py:20-24 | Raises the "can't use this method" exception exactly when built. |
| App.AppBuilder.UsePlugin | janeiro/app.py:26-30 | After build it raises and changes nothing. Before build it registers the plugin's options and appends the plugin. |
| App.AppBuilder.BuildApp | janeiro/app.py:32-40 | Once built, nothing happens. Otherwise the calls and the exception are those of the build run. The builder becomes built only if nothing raised; after a failure a later build starts again from the first plugin. |
| App.AppBuilder.CreateApi | janeiro/app.py:42-44 | Builds, then returns the application created with the builder. |
| App.AppBuilder.CreateCli | janeiro/app.py:46-48 | Builds, then returns the group created with the builder. |
| App.ApiThenCliBuildsOnce | janeiro/app.py:32-48 | When no hook of the first build raises, asking for the application and then the command line raises nothing, leaves the plugin list as it was, runs every hook of that list exactly once in order, and returns the builder's own objects. |
| Plugins.LoggerName | janeiro/plugins/__init__.py:14-22 | The application name, ".", the plugin name. A plugin without a name raises a TypeError. |
| Plugins.LoggerNamesAreDistinct | janeiro/plugins/__init__.py:21 | Within one application, different plugins get different loggers. |
| Plugins.Plugin.SetupLogging | janeiro/plugins/__init__.py:20-22 | The logger is named after the application and the plugin. On failure it stays as it was. |
| Plugins.Plugin.Setup | janeiro/plugins/__init__.py:16-18 | Sets up the logger and then configures. An unnamed plugin fails before configuring. |
| Plugins.Plugin.Configure | janeiro/plugins/__init__.py:24-25 | Changes nothing. |
| Plugins.Plugin.ExtendApi | janeiro/plugins/__init__.py:27-28 | Changes nothing. |
| Plugins.Plugin.ExtendCli | janeiro/plugins/__init__.py:30-31 | Changes nothing. |
| Plugins.Plugin.Cleanup | janeiro/plugins/__init__.py:33-34 | Changes nothing. |
| DatabasePlugin.DatabaseUrlIsRequired | janeiro/plugins/database.py:10 | `database.url` has no default, so an unset variable is a configuration error naming it. |
| DatabasePlugin.AutoMigrateDefaultsToFalse | janeiro/plugins/database.py:12-14 | An unset `database.auto_migrate` gives False, which is cached. |
| DatabasePlugin.DbCommandsShape | janeiro/plugins/database.py:84-139 | "init" and "ping" always. Then "revision" (one `--message` option), "upgrade" and "downgrade" (one `--revision` option each), only with a migrations folder. |
| DatabasePlugin.DatabasePlugin.Configure | janeiro/plugins/database.py:73-76 | Reads `database.url` and then `database.auto_migrate` through `config.get`, with the cache and the call trace threaded through both. A failed URL read stops it: only that read's calls are made. |
| DatabasePlugin.DatabasePlugin.ExtendCli | janeiro/plugins/database.py:81-139 | Declares "db" with its description, then files the commands of `DbCommands` in order. The registry description is unchanged. |
| DatabasePlugin.DatabaseLoggerName | janeiro/plugins/database.py:52 | The plugin's logger is "<application>.database". |
| DefaultsPlugins.StartCommandOptions | janeiro/plugins/defaults.py:14-19 | "start" carries port (8000), host ("127.0.0.1"), the debug flag (False) and workers (None), in that order. |
| DefaultsPlugins.HealthCommandOptions | janeiro/plugins/defaults.py:107-113 | "health" carries only the port option. |
| DefaultsPlugins.ApiPlugin.ExtendCli | janeiro/plugins/defaults.py:40-60 | Declares "api" as "Commands to manage API", then files "start" with its four options. The registry description is unchanged. |
| DefaultsPlugins.HealthCheckPlugin.ExtendCli | janeiro/plugins/defaults.py:104-113 | Declares the same "api" group with the same text, then files "health". The registry description is unchanged. |
| DefaultsPlugins.ApiGroupDescribedOnce | janeiro/plugins/defaults.py:41 | From any registry state, a second declaration of "api" with the shared text changes nothing. |
| DefaultsPlugins.ApiGroupGetsSharedText | janeiro/plugins/defaults.py:105 | On a registry without "api", a declaration by either plugin gives it "Commands to manage API". |
| DefaultsPlugins.HealthcheckUrl | janeiro/plugins/defaults.py:79 | The URL starts with "http://127.0.0.1:" and ends with the configured path. |
| DefaultsPlugins.HealthcheckUrlPort | janeiro/plugins/defaults.py:79 | The port is read back from the URL between host and path. |
| DefaultsPlugins.HealthcheckUrlInjective | janeiro/plugins/defaults.py:79 | For one port, the URL determines the path. |
| DefaultsPlugins.HealthRouteAsWritten | janeiro/plugins/defaults.py:115-118 | As written, the route is at "/healthcheck" whatever the configured path. |
| DefaultsPlugins.HealthCheckPlugin.ExtendApi | janeiro/plugins/defaults.py:115-118 | As written, appends the route at "/healthcheck"; dependencies and middlewares are unchanged. |
| DefaultsPlugins.ProbeMissesRouteAsWritten | janeiro/plugins/defaults.py:76-118 | The probe reaches the registered route exactly when the path is "/healthcheck"; with "/status" it misses. |
| DefaultsPlugins.HealthRoute | janeiro/plugins/defaults.py:115-118 | The corrected route is at the configured path. |
| DefaultsPlugins.HealthCheckPlugin.ExtendApiAtConfiguredPath | janeiro/plugins/defaults.py:115-118 | Appends the route at the configured path. |
| DefaultsPlugins.ProbeReachesRoute | janeiro/plugins/defaults.py:79 | With the corrected route, the probed URL is always the registered route's. |
| ConfigPlugin.LongestKey | janeiro/plugins/defaults/config.py:23 | At least every key's length, and equal to one of them. |
| ConfigPlugin.Dump | janeiro/plugins/defaults/config.py:22-26 | One line per entry in cache order. An empty cache raises ValueError from `max` before printing. |
| ConfigPlugin.DumpLineShape | janeiro/plugins/defaults/config.py:26 | One line is the key, ":", spaces up to column width + 3, then the value, whenever the key fits the width. |
| ConfigPlugin.DumpAligned | janeiro/plugins/defaults/config.py:23-26 | Each line is the key, ":", spaces up to width + 3, then the value with no separator. |
| ConfigPlugin.LongestKeyGetsTwoSpaces | janeiro/plugins/defaults/config.py:23-26 | The longest key's colon is followed by exactly two spaces, and no key gets fewer. |
| ConfigPlugin.ConfigPlugin.Configure | janeiro/plugins/defaults/config.py:6-7 | Stores the configuration unchanged. |
| ConfigPlugin.ConfigPlugin.OptionsCommand | janeiro/plugins/defaults/config.py:14-17 | `print_options` with the stored configuration. Before `configure` it raises AttributeError. |
| ConfigPlugin.ConfigPlugin.DumpCommand | janeiro/plugins/defaults/config.py:19-26 | The dump of the given entries. Before `configure` it raises AttributeError. |
| Text.Upper | janeiro/config/loaders/environment.py:14 | For ASCII text: same length, each lower-case letter replaced by its capital. |
| Text.ParseNatToString | janeiro/plugins/defaults.py:79 | Decimal rendering of a port parses back to it. |

## Left out

- Text.Upper: case mapping covers ASCII letters only. Python's `str.upper` also maps other letters and can change the length ("ß" becomes "SS"). So `LoadersEnvironment.VariableName`, `LoaderEnvironment.OptionName` and `FlatConfig.EnvironmentOptionName` match the source for ASCII keys only.
- Api.ApiRegistry.GetDependencies: returns the stored sequence as a value, while the source returns the list object itself. Changes a caller makes through it would reach the registry, and that aliasing is not modelled.
- Api.ApiRegistry.GetMiddlewares: returns the stored sequence as a value, with the same aliasing gap as `GetDependencies`.
- Logging: `Configuration.log`, the logger object itself, and `janeiro/plugins/logging.py`'s request-id context and middleware are left out. They are output and ambient state only. A logger is represented by its name.
- The bodies of the `cmd_*` callbacks in `janeiro/plugins/database.py` and `janeiro/plugins/defaults.py` are left out. They print, run uvicorn, open URLs and exit. Callbacks are named by their function; only the healthcheck URL string is modelled.
- SQLAlchemy (`create_engine`, session binding, the entity helpers) is left out. It is database I/O through a library that is not part of this model.
- Python type semantics (`isinstance`, constructors such as `int("x")`, `from_string`) are abstract functions of `Types.Runtime`. No parsing rule is assumed.
- click and FastAPI objects are left out. A command is its name, help text, callback name and wrapping options. `ApiApp` and `CliGroup` stand for the objects `AppBuilder` creates, and only their identity is modelled.
- What a plugin hook does inside `AppBuilder.build_app` is left out. Only whether each configure or register call raised is modelled, given per build by an outcome function.
- The auth and logging plugins' `extend_api` are not modelled. They are single calls to `add_dependency` and `add_middleware`, which are modelled.
- `janeiro/config/utils.py` and `package_relative_path` are left out. They inspect the call stack and the filesystem.
- Which module `from janeiro.config import ...` reaches is not modelled. Python would pick the `janeiro/config/` package over `janeiro/config.py`, and the package defines no `register_options`, `print_options` or description-carrying `ConfigOption`. `App` and `ConfigPlugin` use the names of `janeiro/config.py`, which defines all three. `Plugins` uses the package's `Configuration`, which has the `app_name` the logger needs.
- Registry.OptionRegistry: its entries carry a key and a description. The `ConfigOption` of `janeiro/config/options.py` has no `description` field, so with such options `print_options` would raise AttributeError after the width loop.
- ConfigPlugin.ConfigPlugin.DumpCommand: takes the cache's entries, with rendered values, as a parameter. No shown `Configuration` defines the `get_cache` it calls, which would raise AttributeError.
- FlatConfig.Get: takes the option object, since the loader dereferences `option.key`. Its annotation says `str`, and with a string the environment loader would raise AttributeError.
- Cli.CliRegistry.AddCommand: `options=None` and an empty list both mean no options and are modelled as the empty sequence. The `group` of `declare_group` is always a string.
- Plugins.Plugin.Setup: the default `configure` does nothing, so only the logger step is observable. Subclasses' own `configure` methods are modelled on their classes, not dispatched from `Setup`.
- The abstract interfaces (`janeiro/config/loaders/__init__.py`, `janeiro/config/loader/base.py`, `janeiro/serialize.py`'s `Deserializer`) are tagged unions of their implementations, plus `OtherLoader` and `CustomDeserializer` for any further subclass.

## Findings

| source | as written | input that shows it | evidently intended | confidence | as-written member | corrected member |
|---|---|---|---|---|---|---|
| janeiro/config/config.py:11 | `get` passes the whole option object to `loader.get`, which expects a key string (and `option.is_required()` is not defined by `janeiro/config/options.py`) | any option, e.g. `ConfigOption("database.url", str)` with either loader: TypeError or AttributeError | look up `option.key`; a required option is one with neither default nor factory | high, not executed | LoaderConfiguration.GetAsWrittenNeverSucceeds | LoaderConfiguration.GetFailsIffRequiredAndUndefined |
| janeiro/plugins/defaults.py:116-117 | `extend_api` registers the route at the literal "/healthcheck" | `HealthCheckPlugin("1.0", healthcheck_path="/status")`: the health command probes `http://127.0.0.1:8000/status`, which no route serves | register the route at `healthcheck_path` | medium, not executed | DefaultsPlugins.ProbeMissesRouteAsWritten | DefaultsPlugins.ProbeReachesRoute |
