/** Shared value types: optional values, API results and loosely typed request values. */
module Common {

  datatype Option<+T> = None | Some(value: T)

  /** An HTTP error answer of a view: the status code and the `detail` text. */
  datatype ApiError = ApiError(status: int, detail: string)

  /** Either the success payload of a view or its error answer. */
  datatype Result<+T> = Ok(value: T) | Err(error: ApiError)

  /**
   * A scalar value read from a request body (`request.data.get(...)`):
   * JSON null (or a missing key), a number or a string.
   */
  datatype Value = Null | Int(i: int) | Str(s: string)
  {
    /** Python truthiness: `None`, `0` and `""` are false, everything else is true. */
    predicate Truthy()
    {
      match this
      case Null => false
      case Int(i) => i != 0
      case Str(s) => s != []
    }
  }

  /** The request value that stands for an optional integer stored in the database. */
  function FromOption(o: Option<int>): (v: Value)
    ensures o.None? <==> v == Null
    ensures o.Some? ==> v == Int(o.value)
  {
    if o.Some? then Int(o.value) else Null
  }
}
