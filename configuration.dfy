/**
 * `janeiro/config/__init__.py`: the memoising configuration resolver of the
 * `janeiro/config/` package.
 *
 * The collaborators a resolution calls (loader, default rule, deserializer,
 * missing-key hook) are recorded in a trace of `Call`s, so that the contracts
 * can say which of them ran.
 */
module Configuration {
  import opened Types
  import Options
  import Serialize
  import Loaders
  import LoadersEnvironment

  datatype Call =
    | LoaderGet(key: string)
    | DefaultOf(key: string)
    | Deserialize(raw: Value, valueType: string)
    | MissingKey(key: string)

  /** What one `_get_value` does: its outcome and the calls it made, in order. */
  datatype Resolution = Resolution(result: Result<Value>, calls: seq<Call>)

  /** What one `get` does: its outcome, the cache afterwards and the calls made. */
  datatype Lookup = Lookup(result: Result<Value>, cache: map<string, Value>, calls: seq<Call>)

  /** The value a loader hands back, or the configuration error it is wrapped in. */
  function Fetch(loader: Loaders.ConfigLoader, key: string): (r: Result<Value>)
    ensures Loaders.Get(loader, key).Err? ==> r == Err(ConfigurationErrorFrom(Loaders.Get(loader, key).error))
    ensures Loaders.Get(loader, key).Ok? ==> r == Loaders.Get(loader, key)
  {
    match Loaders.Get(loader, key)
    case Err(e) => Err(ConfigurationErrorFrom(e))
    case Ok(raw) => Ok(raw)
  }

  /** After the default or the deserializer: UNDEFINED goes to `raise_missing_key`. */
  function Settle(loader: Loaders.ConfigLoader, key: string, value: Result<Value>, calls: seq<Call>): Resolution {
    if value.Err? then
      Resolution(value, calls)
    else if value.value == Undefined then
      var raised := Loaders.RaiseMissingKey(loader, key);
      Resolution(if raised.Some? then Err(raised.value) else Ok(Undefined), calls + [MissingKey(key)])
    else
      Resolution(value, calls)
  }

  /**
   * `_get_value`: ask the loader (its exceptions become ConfigurationError);
   * on a miss take the option's default, otherwise deserialise the loader's
   * value with the option's type; a value still UNDEFINED goes to the
   * loader's missing-key hook.
   */
  function ResolveValue(loader: Loaders.ConfigLoader, deserializer: Serialize.Deserializer,
                        rt: Runtime, option: Options.ConfigOption): (res: Resolution)
    ensures |res.calls| >= 1 && res.calls[0] == LoaderGet(option.key)
  {
    var asked := [LoaderGet(option.key)];
    match Fetch(loader, option.key)
    case Err(e) => Resolution(Err(e), asked)
    case Ok(raw) =>
      if raw == Undefined then
        Settle(loader, option.key, Options.GetDefault(option), asked + [DefaultOf(option.key)])
      else
        Settle(loader, option.key, Serialize.Deserialize(deserializer, rt, raw, option.valueType),
               asked + [Deserialize(raw, option.valueType)])
  }

  /** True when `cache.get(key, UNDEFINED)` finds a value. */
  predicate Cached(cache: map<string, Value>, key: string) {
    key in cache && cache[key] != Undefined
  }

  /**
   * `get`: a cache hit is returned with no call at all; otherwise the value
   * is resolved and, when resolution did not raise, stored under the key.
   */
  function GetSpec(cache: map<string, Value>, loader: Loaders.ConfigLoader,
                   deserializer: Serialize.Deserializer, rt: Runtime,
                   option: Options.ConfigOption): (l: Lookup)
    ensures Cached(cache, option.key) ==> l == Lookup(Ok(cache[option.key]), cache, [])
    ensures !Cached(cache, option.key) ==> l.calls == ResolveValue(loader, deserializer, rt, option).calls
    ensures !Cached(cache, option.key) ==> l.result == ResolveValue(loader, deserializer, rt, option).result
  {
    if Cached(cache, option.key) then
      Lookup(Ok(cache[option.key]), cache, [])
    else
      var res := ResolveValue(loader, deserializer, rt, option);
      Lookup(res.result, if res.result.Ok? then cache[option.key := res.result.value] else cache, res.calls)
  }

  class Configuration {
    const appName: string
    const asgiFactory: Option<string>
    const loader: Loaders.ConfigLoader
    const deserializer: Serialize.Deserializer
    const runtime: Runtime
    var cache: map<string, Value>
    ghost var calls: seq<Call>

    /** A new configuration has an empty cache and, when none is given, the default deserializer. */
    constructor(appName: string, loader: Loaders.ConfigLoader, runtime: Runtime,
                asgiFactory: Option<string> := None,
                deserializer: Option<Serialize.Deserializer> := None)
      ensures this.appName == appName && this.asgiFactory == asgiFactory
      ensures this.loader == loader && this.runtime == runtime
      ensures deserializer.None? ==> this.deserializer == Serialize.DefaultDeserializer
      ensures deserializer.Some? ==> this.deserializer == deserializer.value
      ensures cache == map[] && calls == []
    {
      this.appName := appName;
      this.asgiFactory := asgiFactory;
      this.loader := loader;
      this.deserializer := if deserializer.Some? then deserializer.value else Serialize.DefaultDeserializer;
      this.runtime := runtime;
      cache := map[];
      calls := [];
    }

    /** `get(option)`: the cache, result and calls are those `GetSpec` gives. */
    method Get(option: Options.ConfigOption) returns (r: Result<Value>)
      modifies this
      ensures var l := GetSpec(old(cache), loader, deserializer, runtime, option);
              r == l.result && cache == l.cache && calls == old(calls) + l.calls
    {
      var value := if option.key in cache then cache[option.key] else Undefined;
      if value == Undefined {
        var res := ResolveValue(loader, deserializer, runtime, option);
        calls := calls + res.calls;
        r := res.result;
        if r.Ok? {
          cache := cache[option.key := r.value];
        }
      } else {
        r := Ok(value);
      }
    }
  }

  /* ---------- properties of one resolution ---------- */

  /** Whatever the loader raises surfaces as a ConfigurationError, and nothing else is called. */
  lemma LoaderFailureIsWrapped(loader: Loaders.ConfigLoader, d: Serialize.Deserializer,
                               rt: Runtime, option: Options.ConfigOption)
    requires Loaders.Get(loader, option.key).Err?
    ensures ResolveValue(loader, d, rt, option)
            == Resolution(Err(ConfigurationErrorFrom(Loaders.Get(loader, option.key).error)), [LoaderGet(option.key)])
  {
  }

  /**
   * On a loader miss the default is taken and is never deserialised; a real
   * default is the result, and an exception of the default factory reaches
   * the caller as it is, not wrapped.
   */
  lemma MissUsesDefaultWithoutDeserializing(loader: Loaders.ConfigLoader, d: Serialize.Deserializer,
                                            rt: Runtime, option: Options.ConfigOption)
    requires Loaders.Get(loader, option.key) == Ok(Undefined)
    ensures var res := ResolveValue(loader, d, rt, option);
            res.calls[..2] == [LoaderGet(option.key), DefaultOf(option.key)]
            && (forall i :: 0 <= i < |res.calls| ==> !res.calls[i].Deserialize?)
    ensures Options.GetDefault(option).Ok? && Options.GetDefault(option).value != Undefined ==>
              ResolveValue(loader, d, rt, option).result == Options.GetDefault(option)
    ensures Options.GetDefault(option).Err? ==> ResolveValue(loader, d, rt, option).result == Options.GetDefault(option)
  {
  }

  /**
   * Every value the loader returns goes through the deserializer with the
   * option's type; unless that gives UNDEFINED, its outcome is the result,
   * and an exception of the deserializer reaches the caller unwrapped.
   */
  lemma LoaderValueIsDeserialized(loader: Loaders.ConfigLoader, d: Serialize.Deserializer,
                                  rt: Runtime, option: Options.ConfigOption)
    requires Loaders.Get(loader, option.key).Ok?
    requires Loaders.Get(loader, option.key).value != Undefined
    ensures var raw := Loaders.Get(loader, option.key).value;
            var res := ResolveValue(loader, d, rt, option);
            res.calls[..2] == [LoaderGet(option.key), Deserialize(raw, option.valueType)]
            && (forall i :: 0 <= i < |res.calls| ==> !res.calls[i].DefaultOf?)
    ensures var v := Serialize.Deserialize(d, rt, Loaders.Get(loader, option.key).value, option.valueType);
            (v.Err? || v.value != Undefined) ==> ResolveValue(loader, d, rt, option).result == v
  {
  }

  /** A value still UNDEFINED reaches `raise_missing_key`, and its exception is the outcome. */
  lemma UndefinedRaisesMissingKey(loader: Loaders.ConfigLoader, d: Serialize.Deserializer,
                                  rt: Runtime, option: Options.ConfigOption)
    requires Loaders.Get(loader, option.key) == Ok(Undefined)
    requires Options.GetDefault(option) == Ok(Undefined)
    requires !loader.OtherLoader?
    ensures var res := ResolveValue(loader, d, rt, option);
            res == Resolution(Err(Loaders.RaiseMissingKey(loader, option.key).value),
                              [LoaderGet(option.key), DefaultOf(option.key), MissingKey(option.key)])
  {
  }

  /**
   * An environment variable that is unset for an option with no default:
   * `get` fails naming the variable, and nothing is cached.
   */
  lemma MissingEnvironmentVariable(prefix: Option<string>, env: map<string, string>,
                                   cache: map<string, Value>, d: Serialize.Deserializer,
                                   rt: Runtime, key: string, valueType: string)
    requires !Cached(cache, key)
    requires LoadersEnvironment.VariableName(prefix, key) !in env
    ensures var l := GetSpec(cache, Loaders.EnvironmentLoader(prefix, env), d, rt,
                             Options.ConfigOption(key, valueType));
            l.result == Err(ConfigurationError("Missing environment variable: "
                                               + LoadersEnvironment.VariableName(prefix, key)))
            && l.cache == cache
  {
  }

  /**
   * The fixture loader answers None, not UNDEFINED, for a missing key: the
   * default is never consulted and the deserializer receives None.
   */
  lemma TestLoaderMissDeserializesNone(config: map<string, Value>, d: Serialize.Deserializer,
                                       rt: Runtime, option: Options.ConfigOption)
    requires option.key !in config
    ensures var res := ResolveValue(Loaders.TestLoader(config), d, rt, option);
            res.calls[..2] == [LoaderGet(option.key), Deserialize(Null, option.valueType)]
            && (forall i :: 0 <= i < |res.calls| ==> !res.calls[i].DefaultOf?)
  {
  }

  /**
   * A fixture value that already has the option's type comes back unchanged
   * through the default deserializer, and is cached.
   */
  lemma TypedFixtureValueRoundTrips(config: map<string, Value>, cache: map<string, Value>,
                                    rt: Runtime, option: Options.ConfigOption)
    requires option.key in config && config[option.key] != Undefined
    requires rt.isInstance(config[option.key], option.valueType)
    requires !Cached(cache, option.key)
    ensures var l := GetSpec(cache, Loaders.TestLoader(config), Serialize.DefaultDeserializer, rt, option);
            l.result == Ok(config[option.key]) && l.cache == cache[option.key := config[option.key]]
  {
  }

  /* ---------- properties of the cache across calls ---------- */

  /**
   * Memoisation: once `get` has produced a value for a key, a later `get` for
   * any option with that key (whatever its type and default) returns the same
   * value, changes nothing and calls nothing.
   */
  lemma GetMemoizes(cache: map<string, Value>, loader: Loaders.ConfigLoader,
                    d: Serialize.Deserializer, rt: Runtime,
                    option: Options.ConfigOption, other: Options.ConfigOption)
    requires other.key == option.key
    requires GetSpec(cache, loader, d, rt, option).result.Ok?
    requires GetSpec(cache, loader, d, rt, option).result.value != Undefined
    ensures var first := GetSpec(cache, loader, d, rt, option);
            GetSpec(first.cache, loader, d, rt, other) == Lookup(first.result, first.cache, [])
  {
  }

  /**
   * `get` only ever writes the entry of its own key, and never replaces an
   * entry that already holds a value.
   */
  lemma GetKeepsOtherEntries(cache: map<string, Value>, loader: Loaders.ConfigLoader,
                             d: Serialize.Deserializer, rt: Runtime, option: Options.ConfigOption)
    ensures var l := GetSpec(cache, loader, d, rt, option);
            l.cache.Keys <= cache.Keys + {option.key}
            && (forall k :: k in cache && k != option.key ==> l.cache[k] == cache[k])
            && (forall k :: Cached(cache, k) ==> k in l.cache && l.cache[k] == cache[k])
  {
  }

  /** A successful `get` leaves its result in the cache under the option's key. */
  lemma GetStoresResult(cache: map<string, Value>, loader: Loaders.ConfigLoader,
                        d: Serialize.Deserializer, rt: Runtime, option: Options.ConfigOption)
    requires GetSpec(cache, loader, d, rt, option).result.Ok?
    ensures var l := GetSpec(cache, loader, d, rt, option);
            option.key in l.cache && l.cache[option.key] == l.result.value
  {
  }
}
