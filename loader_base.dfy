/**
 * `janeiro/config/loader/base.py`: the loader interface of the
 * `config/loader/` generation, as a tagged union of its two implementations.
 * A method a subclass does not define falls back to the base class, which
 * raises NotImplementedError.
 */
module LoaderBase {
  import opened Types
  import LoaderEnvironment
  import LoaderDictionnary

  datatype ConfigLoader =
    | EnvironmentLoader(prefix: Option<string>, env: map<string, string>)
    | DictionnaryLoader(config: map<string, Value>)

  function GetOptionName(loader: ConfigLoader, key: string): string {
    match loader
    case EnvironmentLoader(prefix, _) => LoaderEnvironment.OptionName(prefix, key)
    case DictionnaryLoader(_) => LoaderDictionnary.OptionName(key)
  }

  /** The dictionary loader defines no message, so the base class's NotImplementedError is raised. */
  function GetMissingKeyErrorMessage(loader: ConfigLoader, key: string): (r: Result<string>)
    ensures loader.DictionnaryLoader? <==> r == Err(NotImplementedError)
  {
    match loader
    case EnvironmentLoader(prefix, _) => Ok(LoaderEnvironment.MissingKeyErrorMessage(prefix, key))
    case DictionnaryLoader(_) => Err(NotImplementedError)
  }

  function Get(loader: ConfigLoader, key: string): Value {
    match loader
    case EnvironmentLoader(prefix, env) => LoaderEnvironment.Get(prefix, env, key)
    case DictionnaryLoader(config) => LoaderDictionnary.Get(config, key)
  }

  /**
   * What `loader.get(x)` raises when `x` is an option object instead of a
   * string: string concatenation with it fails, it has no `replace`, and, as a
   * mutable dataclass, it cannot be a dictionary key.
   */
  function GetWithOptionObject(loader: ConfigLoader): (e: Error)
    ensures e.TypeError? || e.AttributeError?
  {
    match loader
    case EnvironmentLoader(prefix, _) =>
      if Truthy(prefix) then TypeError("can only concatenate str (not \"ConfigOption\") to str")
      else AttributeError("'ConfigOption' object has no attribute 'replace'")
    case DictionnaryLoader(_) => TypeError("unhashable type: 'ConfigOption'")
  }
}
