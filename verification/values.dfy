/** Small value types shared by the whole model: optional values, handler
    outcomes, and the JSON values that the endpoints return. */
module Values {

  /** A Python `Optional[T]`: `None` or a present value. */
  datatype Option<T> = None | Some(value: T) {

    /** The present value, or `default` when absent (a parameter default). */
    function GetOr(default: T): T
    {
      match this
      case Some(v) => v
      case None => default
    }
  }

  /** A handler outcome: either the value it returns or the exception it raises. */
  datatype Result<T, E> = Ok(value: T) | Err(error: E)

  /** A JSON document as the endpoints build it (a Python dict of strings and
      integers). Serialisation to bytes is not modelled; an object keeps its
      keys in insertion order, as a Python dict does. */
  datatype Json =
    | JString(str: string)
    | JInt(num: int)
    | JObject(fields: seq<(string, Json)>)
}
