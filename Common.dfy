/** Result and option wrappers shared by every module of the model. */
module Common {

  /** A value that may be absent (Python `None`, TypeScript `undefined`). */
  datatype Option<+T> = None | Some(value: T)

  /** The outcome of an operation that either returns a value or raises. */
  datatype Result<+T, +E> = Ok(value: T) | Err(error: E)

  /** An `HTTPException` as FastAPI raises it: a status code and a detail text. */
  datatype HttpError = HttpError(status: int, detail: string)

  /** Python truthiness of an optional string: `None` and `""` are false. */
  predicate TruthyText(s: Option<string>)
  {
    s.Some? && s.value != ""
  }

  /** Python `a or b` on optional strings. */
  function OrElse(a: Option<string>, b: string): (r: string)
    ensures TruthyText(a) ==> r == a.value
    ensures !TruthyText(a) ==> r == b
  {
    if a.Some? && a.value != "" then a.value else b
  }
}
