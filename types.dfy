/**
 * Values, errors and outcomes shared by the whole model.
 *
 * The toolkit's `janeiro/types.py` (the UNDEFINED marker) and `janeiro/exc.py`
 * (ConfigurationError) are not part of this model; their roles are played by
 * `Value.Undefined` and `Error.ConfigurationError` here.
 */
module Types {

  datatype Option<+T> = None | Some(value: T)

  /** The outcome of a Python call: a returned value or a raised exception. */
  datatype Result<+T> = Ok(value: T) | Err(error: Error)

  /** The exceptions the modelled code raises or lets through. */
  datatype Error =
    | ConfigurationError(message: string)
    | ConfigurationErrorFrom(cause: Error)   // `raise ConfigurationError from error`
    | ValueError(message: string)
    | TypeError(message: string)
    | AttributeError(message: string)
    | IndexError(message: string)
    | NotImplementedError
    | PlainException(message: string)        // `raise Exception(...)`

  /**
   * A configuration value as the toolkit sees it. `Undefined` is the
   * toolkit's UNDEFINED marker and `Null` is Python's None: they are distinct.
   */
  datatype Value =
    | Undefined
    | Null
    | Str(s: string)
    | Bool(b: bool)
    | Int(i: int)

  /**
   * What the Python runtime does with a type object, left abstract: the
   * `isinstance` test, calling the type as a constructor, and the optional
   * `from_string` class attribute. Types are named by strings ("str", "bool").
   */
  datatype Runtime = Runtime(
    isInstance: (Value, string) -> bool,
    construct: (string, Value) -> Result<Value>,
    hasFromString: string -> bool,
    fromString: (string, Value) -> Result<Value>)

  /** Python truthiness of an optional string: None and "" are false. */
  predicate Truthy(s: Option<string>) {
    s.Some? && s.value != ""
  }
}
