/**
 * `janeiro/config/loaders/test.py`: the fixture loader backed by a map whose
 * keys are used untransformed.
 */
module LoadersTest {
  import opened Types

  /**
   * `get` is `config.get(key)`: the mapped value, or None for a missing key
   * (None, not the UNDEFINED marker). The backing map is a value and is not changed.
   */
  function Get(config: map<string, Value>, key: string): (r: Value)
    ensures key in config ==> r == config[key]
    ensures key !in config ==> r == Null && r != Undefined
  {
    if key in config then config[key] else Null
  }

  /** `raise_missing_key`: always raises, naming the key untransformed. */
  function RaiseMissingKey(key: string): (e: Error)
    ensures e == ConfigurationError("Missing configuration key: " + key)
  {
    ConfigurationError("Missing configuration key: " + key)
  }
}
