/**
 * `janeiro/config/config.py`: the cache-less configuration of the
 * `config/loader/` generation, which only checks required options.
 */
module LoaderConfiguration {
  import opened Types
  import Options
  import LoaderBase

  datatype Configuration = Configuration(loader: LoaderBase.ConfigLoader)

  /**
   * `get` as written: the option object itself is handed to `loader.get`,
   * which fails for both loaders before the required check is reached (that
   * check calls `option.is_required()`, which the descriptor of
   * `janeiro/config/options.py` does not define either).
   */
  function GetAsWritten(config: Configuration, option: Options.ConfigOption): (r: Result<Value>)
    ensures r.Err? && (r.error.TypeError? || r.error.AttributeError?)
  {
    Err(LoaderBase.GetWithOptionObject(config.loader))
  }

  /** Whatever the option, `get` as written never returns a value. */
  lemma GetAsWrittenNeverSucceeds(config: Configuration)
    ensures forall option: Options.ConfigOption :: !GetAsWritten(config, option).Ok?
  {
  }

  /** A required option: one with neither a default nor a default factory. */
  predicate IsRequired(option: Options.ConfigOption) {
    option.default == Undefined && option.defaultFactory.NoFactory?
  }

  /**
   * `get` as evidently intended: look the option's key up; a required option
   * whose value is UNDEFINED raises ValueError carrying the loader's
   * missing-key message; otherwise the loader's value is returned unchanged,
   * with no cache, no default and no deserialisation.
   */
  function Get(config: Configuration, option: Options.ConfigOption): (r: Result<Value>)
  {
    var value := LoaderBase.Get(config.loader, option.key);
    if IsRequired(option) && value == Undefined then
      match LoaderBase.GetMissingKeyErrorMessage(config.loader, option.key)
      case Ok(message) => Err(ValueError(message))
      case Err(e) => Err(e)
    else
      Ok(value)
  }

  /** `get` fails exactly for a required option the loader does not know. */
  lemma GetFailsIffRequiredAndUndefined(config: Configuration, option: Options.ConfigOption)
    ensures Get(config, option).Err? <==>
            IsRequired(option) && LoaderBase.Get(config.loader, option.key) == Undefined
    ensures Get(config, option).Ok? ==> Get(config, option).value == LoaderBase.Get(config.loader, option.key)
  {
  }

  /** For the environment loader the failure carries "Missing required environment variable: NAME". */
  lemma MissingEnvironmentVariableMessage(prefix: Option<string>, env: map<string, string>,
                                          option: Options.ConfigOption)
    requires IsRequired(option)
    requires LoaderBase.GetOptionName(LoaderBase.EnvironmentLoader(prefix, env), option.key) !in env
    ensures Get(Configuration(LoaderBase.EnvironmentLoader(prefix, env)), option)
            == Err(ValueError("Missing required environment variable: "
                              + LoaderBase.GetOptionName(LoaderBase.EnvironmentLoader(prefix, env), option.key)))
  {
  }

  /** A required option is one whose default rule yields UNDEFINED. */
  lemma RequiredHasNoDefault(option: Options.ConfigOption)
    requires IsRequired(option)
    ensures Options.GetDefault(option) == Ok(Undefined)
  {
  }

  /** `get_option_name` delegates to the loader unchanged. */
  function GetOptionName(config: Configuration, key: string): (r: string)
    ensures r == LoaderBase.GetOptionName(config.loader, key)
  {
    LoaderBase.GetOptionName(config.loader, key)
  }
}
