/**
 * `janeiro/config/deserializer.py`: the deserializer that prefers a type's
 * `from_string` class method over its constructor.
 */
module ConfigDeserializer {
  import opened Types

  /**
   * `ConfigDeserializer.deserialize`: `type.from_string(value)` when the type
   * has that attribute, else `type(value)`. There is no identity
   * short-circuit: an already typed value still goes through one of the two.
   */
  function Deserialize(rt: Runtime, value: Value, valueType: string): (r: Result<Value>)
    ensures rt.hasFromString(valueType) ==> r == rt.fromString(valueType, value)
    ensures !rt.hasFromString(valueType) ==> r == rt.construct(valueType, value)
  {
    if rt.hasFromString(valueType) then rt.fromString(valueType, value) else rt.construct(valueType, value)
  }
}
