/** Shared value types: optional values, results carrying the source's exception kinds,
    and the dynamic dictionary values that Python code passes around. */
module Common {

  datatype Option<+T> = None | Some(value: T)

  /** The exception classes the modelled code raises, each with its message (what `str(e)` gives).
      `Conflict` is the identity service's 409 answer; `ServiceFailure` stands for every other
      exception the identity-service client library raises. */
  datatype Error =
    | ValueError(msg: string)
    | RuntimeError(msg: string)
    | KeystoneClientError(msg: string)
    | BackendError(msg: string)
    | UnboundLocalError(msg: string)
    | Conflict(msg: string)
    | ServiceFailure(msg: string)
  {
    function Message(): string {
      match this
      case ValueError(m) => m
      case RuntimeError(m) => m
      case KeystoneClientError(m) => m
      case BackendError(m) => m
      case UnboundLocalError(m) => m
      case Conflict(m) => m
      case ServiceFailure(m) => m
    }
  }

  /** A call that either returns a value or raises one of the exceptions above. */
  datatype Result<+T> = Ok(value: T) | Err(error: Error)

  /** A dynamically typed Python value, as found in settings and returned dictionaries. */
  datatype Value =
    | NoneValue
    | Bool(b: bool)
    | Int(i: int)
    | Str(s: string)
    | Dict(entries: map<string, Value>)

  /** Python truthiness of an optional string: `None` and `""` are falsy. */
  predicate Truthy(s: Option<string>) {
    s.Some? && s.value != ""
  }
}
