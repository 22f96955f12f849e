/** Python-level values shared by every part of the model: bytes, optional
    values, exceptions (a call either returns a value or raises one) and the
    JSON values that `json.loads` produces. */
module Base {

  /** One byte as it travels over the socket. */
  type byte = b: int | 0 <= b < 0x100

  datatype Option<+T> = None | Some(value: T)

  /** The exceptions the modelled code raises, or catches from the code it calls. */
  datatype Exc =
    | TimeoutError
    | ConnectionRefusedError
    | AttributeError
    | KeyError(key: string)
    | TypeError
    | ValueError(message: string)
    | StructError   // `struct.error`, raised by `struct.pack` on an out-of-range value

  /** What a Python call produced: its value, or the exception it raised. */
  datatype Result<+T> = Ok(value: T) | Err(exc: Exc) {

    predicate IsFailure() {
      Err?
    }

    function PropagateFailure<U>(): Result<U>
      requires Err?
    {
      Err(exc)
    }

    function Extract(): T
      requires Ok?
    {
      value
    }
  }

  /** A decoded JSON document. A JSON `null` and Python's `None` are the same
      value here, as they are after `json.loads`. Non-integral numbers are not
      modelled. */
  datatype Json =
    | JNull
    | JBool(b: bool)
    | JInt(i: int)
    | JStr(s: string)
    | JArray(items: seq<Json>)
    | JObject(fields: map<string, Json>)

  /** `d.get(key, default)`: only a dict has a `get` method. */
  function Get(d: Json, key: string, default: Json): Result<Json>
  {
    match d
    case JObject(m) => Ok(if key in m then m[key] else default)
    case _ => Err(AttributeError)
  }

  /** `d[key]` with a string key: a missing key raises KeyError, and every other
      JSON value refuses a string subscript with TypeError. */
  function Index(d: Json, key: string): Result<Json>
  {
    match d
    case JObject(m) => if key in m then Ok(m[key]) else Err(KeyError(key))
    case _ => Err(TypeError)
  }
}
