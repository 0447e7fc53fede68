/**
 * `janeiro/config/cache.py`: a store of resolved values keyed by option key.
 */
module Cache {
  import opened Types
  import Options

  class ConfigCache {
    var registry: map<string, Value>

    /** A new cache holds no entries. */
    constructor()
      ensures registry == map[]
    {
      registry := map[];
    }

    /**
     * `value()`: a copy of the entries. A Dafny map is a value, so changing
     * the copy cannot change the cache.
     */
    method Contents() returns (r: map<string, Value>)
      ensures r.Keys == registry.Keys
      ensures forall k :: k in r ==> r[k] == registry[k]
    {
      r := map k | k in registry :: registry[k];
    }

    /** `set`: the entry for `option.key` now holds `value`; every other entry is unchanged. */
    method Set(option: Options.ConfigOption, value: Value)
      modifies this
      ensures registry.Keys == old(registry.Keys) + {option.key}
      ensures registry[option.key] == value
      ensures forall k :: k in old(registry) && k != option.key ==> registry[k] == old(registry)[k]
    {
      registry := registry[option.key := value];
    }

    /** `get`: the entry for `option.key`, or UNDEFINED for a key never set. */
    method Get(option: Options.ConfigOption) returns (r: Value)
      ensures option.key in registry ==> r == registry[option.key]
      ensures option.key !in registry ==> r == Undefined
    {
      r := if option.key in registry then registry[option.key] else Undefined;
    }
  }
}
