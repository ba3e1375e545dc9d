/** Small value types shared by the whole model: optional values, the outcome of
    one request to the remote calendar, how a Python call ends, and the Python
    truthiness and formatting rules that the handlers rely on. */
module Common {

  datatype Option<+T> = None | Some(value: T)

  /** What the Google client library hands back for one request: an answer,
      an `HttpError`, or any other exception. Remote outcomes are inputs of the
      model, so every property below holds for all of them. */
  datatype Reply<+T> = Answer(value: T) | HttpFailure | OtherFailure

  /** How a Python call ends for its caller: it returns a value or it raises. */
  datatype Call<+T> = Returned(value: T) | Raised

  /** Python truthiness of an optional string: `None` and `""` are falsy. */
  predicate Truthy(s: Option<string>)
  {
    s.Some? && s.value != ""
  }

  /** Python's `s or fallback` on an optional string. */
  function Or(s: Option<string>, fallback: string): string
  {
    if Truthy(s) then s.value else fallback
  }

  /** How an f-string renders an optional string: `None` prints as "None". */
  function Show(s: Option<string>): string
  {
    if s.Some? then s.value else "None"
  }
}
