/**
 * `janeiro/config/options.py`: the option descriptor of the `janeiro/config/`
 * package and its default rule.
 */
module Options {
  import opened Types

  /** The `default_factory` field: absent (UNDEFINED) or a zero-argument callable. */
  datatype Factory = NoFactory | Factory(make: () -> Result<Value>)

  /**
   * A descriptor: a dotted key, the name of its declared type, and the two
   * optional defaults, which are UNDEFINED when not given.
   */
  datatype ConfigOption = ConfigOption(
    key: string,
    valueType: string,
    default: Value := Undefined,
    defaultFactory: Factory := NoFactory)

  /**
   * `get_default`: the factory's result when a factory is set (even if a static
   * default is set too), else the static default, else UNDEFINED. A factory's
   * exception propagates. The descriptor is a value, so nothing is memoised on it.
   */
  function GetDefault(option: ConfigOption): (r: Result<Value>)
    ensures option.defaultFactory.Factory? ==> r == option.defaultFactory.make()
    ensures option.defaultFactory.NoFactory? && option.default != Undefined ==> r == Ok(option.default)
    ensures option.defaultFactory.NoFactory? && option.default == Undefined ==> r == Ok(Undefined)
  {
    if option.defaultFactory.Factory? then
      option.defaultFactory.make()
    else if option.default != Undefined then
      Ok(option.default)
    else
      Ok(Undefined)
  }

  /** A descriptor built with only a key and a type has neither default. */
  lemma DefaultsStartUndefined(key: string, valueType: string)
    ensures ConfigOption(key, valueType).default == Undefined
    ensures ConfigOption(key, valueType).defaultFactory == NoFactory
    ensures GetDefault(ConfigOption(key, valueType)) == Ok(Undefined)
  {
  }

  /** The default rule yields UNDEFINED without a factory exactly when no static default is set. */
  lemma GetDefaultUndefinedIff(option: ConfigOption)
    requires option.defaultFactory.NoFactory?
    ensures GetDefault(option) == Ok(Undefined) <==> option.default == Undefined
  {
  }

  /** None is a real default: it is not the UNDEFINED marker. */
  lemma NoneIsADefault(key: string, valueType: string)
    ensures GetDefault(ConfigOption(key, valueType, Null)) == Ok(Null)
  {
  }
}
