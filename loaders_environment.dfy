/**
 * `janeiro/config/loaders/environment.py`: the environment-backed loader of
 * the `janeiro/config/` package. The process environment is an input map.
 */
module LoadersEnvironment {
  import opened Types
  import Text

  /** The key, prefixed with `prefix + "."` whenever a prefix is given (even ""). */
  function PrefixedKey(prefix: Option<string>, key: string): string {
    if prefix.None? then key else prefix.value + "." + key
  }

  /**
   * `_get_variable_name`: dots become underscores and the result is
   * upper-cased, so the name holds no dot and no lower-case letter.
   */
  function VariableName(prefix: Option<string>, key: string): (r: string)
    ensures |r| == |PrefixedKey(prefix, key)|
    ensures forall i :: 0 <= i < |r| ==> r[i] != '.' && !Text.IsLower(r[i])
  {
    Text.Upper(Text.Replace(PrefixedKey(prefix, key), '.', '_'))
  }

  lemma VariableNameExample()
    ensures VariableName(Some("example"), "database.url") == "EXAMPLE_DATABASE_URL"
  {
    assert PrefixedKey(Some("example"), "database.url") == "example.database.url";
    assert Text.Replace("example.database.url", '.', '_') == "example_database_url";
  }

  /** An empty prefix is still applied: it contributes a leading underscore. */
  lemma EmptyPrefixAddsUnderscore(key: string)
    ensures VariableName(Some(""), key) == "_" + VariableName(None, key)
  {
    Text.ReplaceAppend(".", key, '.', '_');
    Text.UpperAppend("_", Text.Replace(key, '.', '_'));
  }

  /** A prefix `p` gives the unprefixed name of `p + "." + key`. */
  lemma PrefixIsPartOfTheKey(p: string, key: string)
    ensures VariableName(Some(p), key) == VariableName(None, p + "." + key)
  {
  }

  /** Without a prefix the transformation is idempotent. */
  lemma {:induction false} VariableNameIdempotent(key: string)
    ensures VariableName(None, VariableName(None, key)) == VariableName(None, key)
  {
    var n := VariableName(None, key);
    assert Text.Replace(n, '.', '_') == n;
    Text.UpperIdempotent(Text.Replace(key, '.', '_'));
  }

  /** `get`: the environment entry for the variable name, or UNDEFINED when unset. */
  function Get(prefix: Option<string>, env: map<string, string>, key: string): (r: Value)
    ensures VariableName(prefix, key) in env ==> r == Str(env[VariableName(prefix, key)])
    ensures VariableName(prefix, key) !in env ==> r == Undefined
  {
    var name := VariableName(prefix, key);
    if name in env then Str(env[name]) else Undefined
  }

  /** `raise_missing_key`: always raises, naming the variable. */
  function RaiseMissingKey(prefix: Option<string>, key: string): (e: Error)
    ensures e.ConfigurationError?
    ensures e.message == "Missing environment variable: " + VariableName(prefix, key)
  {
    ConfigurationError("Missing environment variable: " + VariableName(prefix, key))
  }
}
