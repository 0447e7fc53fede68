/**
 * `janeiro/config/loader/environment.py`: the environment loader of the
 * `config/loader/` generation. Unlike `config/loaders/environment.py`, the
 * prefix is applied only when it is truthy.
 */
module LoaderEnvironment {
  import opened Types
  import Text
  import LoadersEnvironment

  /** `get_option_name`: a truthy prefix joined with "."; dots to underscores; upper-cased. */
  function OptionName(prefix: Option<string>, key: string): (r: string)
    ensures forall i :: 0 <= i < |r| ==> r[i] != '.' && !Text.IsLower(r[i])
  {
    Text.Upper(Text.Replace(if Truthy(prefix) then prefix.value + "." + key else key, '.', '_'))
  }

  /** None and "" both mean "no prefix". */
  lemma EmptyPrefixMeansNone(key: string)
    ensures OptionName(Some(""), key) == OptionName(None, key)
  {
  }

  /**
   * The two environment loaders agree except on the empty prefix, where the
   * older one still adds a leading underscore.
   */
  lemma AgreesWithVariableName(prefix: Option<string>, key: string)
    ensures prefix != Some("") ==> OptionName(prefix, key) == LoadersEnvironment.VariableName(prefix, key)
    ensures OptionName(Some(""), key) != LoadersEnvironment.VariableName(Some(""), key)
  {
    LoadersEnvironment.EmptyPrefixAddsUnderscore(key);
    var a, b := OptionName(Some(""), key), LoadersEnvironment.VariableName(Some(""), key);
    assert |b| == |a| + 1;
  }

  /** `get_missing_key_error_message`. */
  function MissingKeyErrorMessage(prefix: Option<string>, key: string): (m: string)
    ensures m == "Missing required environment variable: " + OptionName(prefix, key)
  {
    "Missing required environment variable: " + OptionName(prefix, key)
  }

  /** `get`: the environment entry for the transformed name, or UNDEFINED. */
  function Get(prefix: Option<string>, env: map<string, string>, key: string): (r: Value)
    ensures OptionName(prefix, key) in env ==> r == Str(env[OptionName(prefix, key)])
    ensures OptionName(prefix, key) !in env ==> r == Undefined
  {
    var name := OptionName(prefix, key);
    if name in env then Str(env[name]) else Undefined
  }
}
