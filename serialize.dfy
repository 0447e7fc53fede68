/**
 * `janeiro/serialize.py`: the deserializer interface and its default
 * implementation. The interface is modelled as a tagged union of the
 * deserializers a `Configuration` can be given.
 */
module Serialize {
  import opened Types
  import ConfigDeserializer

  datatype Deserializer =
    | AbstractDeserializer                     // the bare `Deserializer` base class
    | DefaultDeserializer
    | FromStringDeserializer                   // `janeiro/config/deserializer.py`
    | CustomDeserializer(run: (Value, string) -> Result<Value>)

  /**
   * `DefaultDeserializer.deserialize`: a value that is already an instance of
   * the target type is returned unchanged; otherwise the type's constructor is
   * applied, and whatever it raises propagates unchanged.
   */
  function DefaultDeserialize(rt: Runtime, raw: Value, valueType: string): (r: Result<Value>)
    ensures rt.isInstance(raw, valueType) ==> r == Ok(raw)
    ensures !rt.isInstance(raw, valueType) ==> r == rt.construct(valueType, raw)
  {
    if rt.isInstance(raw, valueType) then Ok(raw) else rt.construct(valueType, raw)
  }

  /** Deserialising a result that is an instance of the type gives it back. */
  lemma DefaultDeserializeIdempotent(rt: Runtime, raw: Value, valueType: string)
    requires DefaultDeserialize(rt, raw, valueType).Ok?
    requires rt.isInstance(DefaultDeserialize(rt, raw, valueType).value, valueType)
    ensures DefaultDeserialize(rt, DefaultDeserialize(rt, raw, valueType).value, valueType)
            == DefaultDeserialize(rt, raw, valueType)
  {
  }

  /** `deserializer.deserialize(raw, type)` dispatched on the deserializer's class. */
  function Deserialize(d: Deserializer, rt: Runtime, raw: Value, valueType: string): (r: Result<Value>)
    ensures d.AbstractDeserializer? ==> r == Err(NotImplementedError)
    ensures d.DefaultDeserializer? && rt.isInstance(raw, valueType) ==> r == Ok(raw)
  {
    match d
    case AbstractDeserializer => Err(NotImplementedError)
    case DefaultDeserializer => DefaultDeserialize(rt, raw, valueType)
    case FromStringDeserializer => ConfigDeserializer.Deserialize(rt, raw, valueType)
    case CustomDeserializer(run) => run(raw, valueType)
  }

  /**
   * The two deserializers part ways on a value that already has the target
   * type: the default one returns it as is, the `from_string` one still
   * converts it.
   */
  lemma OnlyDefaultShortCuts(rt: Runtime, value: Value, valueType: string)
    requires rt.isInstance(value, valueType)
    ensures Deserialize(DefaultDeserializer, rt, value, valueType) == Ok(value)
    ensures Deserialize(FromStringDeserializer, rt, value, valueType) ==
            (if rt.hasFromString(valueType) then rt.fromString(valueType, value)
             else rt.construct(valueType, value))
  {
  }
}
