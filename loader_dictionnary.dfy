/**
 * `janeiro/config/loader/dictionnary.py`: the map-backed loader of the
 * `config/loader/` generation.
 */
module LoaderDictionnary {
  import opened Types

  /** `get_option_name` is the identity. */
  function OptionName(key: string): (r: string)
    ensures r == key
  {
    key
  }

  /** `get`: the value under the untransformed key, or None when it is missing. */
  function Get(config: map<string, Value>, key: string): (r: Value)
    ensures key in config ==> r == config[key]
    ensures key !in config ==> r == Null
  {
    var name := OptionName(key);
    if name in config then config[name] else Null
  }
}
