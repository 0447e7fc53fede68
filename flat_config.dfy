/**
 * `janeiro/config.py`: the single-module configuration of the first
 * generation. Options carry a description, loaders only name and read
 * variables, `Configuration` delegates to its loader without caching, and a
 * module-level list collects the registered options for `print_options`.
 */
module FlatConfig {
  import opened Types
  import Text
  import Listing
  import LoaderEnvironment

  /** A descriptor of this generation: key, description (string or tuple of rows), type name. */
  datatype ConfigOption = ConfigOption(key: string, description: Listing.Description, valueType: string)

  /** The two loaders of this file; the bare base class is never instantiated by the shown code. */
  datatype ConfigLoader =
    | EnvironmentConfigLoader(prefix: Option<string>, env: map<string, string>)
    | DictConfigLoader

  /** `EnvironmentConfigLoader.get_option_name`: a truthy prefix joined with "."; dots to underscores; upper-cased. */
  function EnvironmentOptionName(prefix: Option<string>, key: string): string {
    Text.Upper(Text.Replace(if Truthy(prefix) then prefix.value + "." + key else key, '.', '_'))
  }

  /** This naming rule is the one `janeiro/config/loader/environment.py` later kept. */
  lemma SameNamingAsLoaderPackage(prefix: Option<string>, key: string)
    ensures EnvironmentOptionName(prefix, key) == LoaderEnvironment.OptionName(prefix, key)
    ensures forall i :: 0 <= i < |EnvironmentOptionName(prefix, key)| ==>
              EnvironmentOptionName(prefix, key)[i] != '.' && !Text.IsLower(EnvironmentOptionName(prefix, key)[i])
  {
  }

  /** `get_option_name` dispatched on the loader; the dictionary loader keeps the key. */
  function GetOptionName(loader: ConfigLoader, key: string): (name: string)
    ensures loader.DictConfigLoader? ==> name == key
    ensures loader.EnvironmentConfigLoader? ==> name == EnvironmentOptionName(loader.prefix, key)
  {
    match loader
    case EnvironmentConfigLoader(prefix, _) => EnvironmentOptionName(prefix, key)
    case DictConfigLoader => key
  }

  /**
   * `get`: the environment loader reads the variable named after `option.key`
   * and yields None when it is unset; `DictConfigLoader` defines no `get`.
   */
  function LoaderGet(loader: ConfigLoader, option: ConfigOption): (r: Result<Value>)
    ensures loader.DictConfigLoader? <==> r.Err?
    ensures loader.EnvironmentConfigLoader? ==>
              var name := EnvironmentOptionName(loader.prefix, option.key);
              r == Ok(if name in loader.env then Str(loader.env[name]) else Null)
  {
    match loader
    case EnvironmentConfigLoader(prefix, env) =>
      var name := EnvironmentOptionName(prefix, option.key);
      Ok(if name in env then Str(env[name]) else Null)
    case DictConfigLoader => Err(AttributeError("'DictConfigLoader' object has no attribute 'get'"))
  }

  /** The configuration of this generation: a loader and nothing else. */
  datatype Configuration = Configuration(loader: ConfigLoader)

  /** `Configuration.get`: straight to the loader, no cache, no default, no conversion. */
  function Get(config: Configuration, option: ConfigOption): (r: Result<Value>)
    ensures r == LoaderGet(config.loader, option)
  {
    LoaderGet(config.loader, option)
  }

  /** `Configuration.get_option_name`: straight to the loader. */
  function ConfigOptionName(config: Configuration, key: string): (name: string)
    ensures name == GetOptionName(config.loader, key)
  {
    GetOptionName(config.loader, key)
  }

  /** Without a cache, asking twice reads the environment twice: a changed variable is seen. */
  lemma GetDoesNotCache(prefix: Option<string>, env1: map<string, string>, env2: map<string, string>,
                        option: ConfigOption)
    requires var name := EnvironmentOptionName(prefix, option.key);
             name in env1 && name in env2 && env1[name] != env2[name]
    ensures Get(Configuration(EnvironmentConfigLoader(prefix, env1)), option)
            != Get(Configuration(EnvironmentConfigLoader(prefix, env2)), option)
  {
  }

  /** What the listing reads of a registered option. */
  function Entries(options: seq<ConfigOption>): (entries: seq<Listing.Entry>)
    ensures |entries| == |options|
    ensures forall i :: 0 <= i < |options| ==>
              entries[i].key == options[i].key && entries[i].description == options[i].description
  {
    seq(|options|, i requires 0 <= i < |options| => Listing.Entry(options[i].key, options[i].description))
  }

  /** The naming the listing uses: `config.get_option_name`. */
  function NameOf(config: Configuration): string -> string {
    k => ConfigOptionName(config, k)
  }

  /** What `print_options` prints for the registered options. */
  function OptionsListing(options: seq<ConfigOption>, config: Configuration): Listing.Output {
    Listing.ListingOf(Entries(options), NameOf(config))
  }

  /** `REGISTERED_OPTIONS` with the two functions that use it. */
  class OptionRegistry {
    var options: seq<ConfigOption>

    /** The list starts empty. */
    constructor()
      ensures options == []
    {
      options := [];
    }

    /** `register_options`: extend at the end, in argument order, keeping duplicate keys. */
    method RegisterOptions(given: seq<ConfigOption>)
      modifies this
      ensures options == old(options) + given
    {
      options := options + given;
    }

    /** `print_options`: the sorted, aligned listing, named by the configuration's loader. */
    method PrintOptions(config: Configuration) returns (out: Listing.Output)
      ensures out == OptionsListing(options, config)
    {
      out := Listing.Render(Entries(options), NameOf(config));
    }
  }
}
