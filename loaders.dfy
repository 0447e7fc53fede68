/**
 * `janeiro/config/loaders/__init__.py`: the loader interface of the
 * `janeiro/config/` package, as a tagged union of its implementations.
 * `OtherLoader` stands for any further subclass: its `get` may raise, and its
 * `raise_missing_key` may raise (Some) or return normally (None).
 */
module Loaders {
  import opened Types
  import LoadersEnvironment
  import LoadersTest

  datatype ConfigLoader =
    | EnvironmentLoader(prefix: Option<string>, env: map<string, string>)
    | TestLoader(config: map<string, Value>)
    | OtherLoader(get: string -> Result<Value>, raiseMissingKey: string -> Option<Error>)

  /** `loader.get(key)`: only a loader outside the two shown ones can raise. */
  function Get(loader: ConfigLoader, key: string): (r: Result<Value>)
    ensures loader.EnvironmentLoader? ==> r == Ok(LoadersEnvironment.Get(loader.prefix, loader.env, key))
    ensures loader.TestLoader? ==> r == Ok(LoadersTest.Get(loader.config, key))
    ensures loader.OtherLoader? ==> r == loader.get(key)
  {
    match loader
    case EnvironmentLoader(prefix, env) => Ok(LoadersEnvironment.Get(prefix, env, key))
    case TestLoader(config) => Ok(LoadersTest.Get(config, key))
    case OtherLoader(get, _) => get(key)
  }

  /** `loader.raise_missing_key(key)`: the exception raised, if any. */
  function RaiseMissingKey(loader: ConfigLoader, key: string): (r: Option<Error>)
    ensures !loader.OtherLoader? ==> r.Some? && r.value.ConfigurationError?
  {
    match loader
    case EnvironmentLoader(prefix, _) => Some(LoadersEnvironment.RaiseMissingKey(prefix, key))
    case TestLoader(_) => Some(LoadersTest.RaiseMissingKey(key))
    case OtherLoader(_, raiseMissingKey) => raiseMissingKey(key)
  }
}
