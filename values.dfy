/** Optional values, results, request outcomes and the JavaScript truthiness of
    strings, shared by the server and the client models. */
module Values {

  datatype Option<+T> = None | Some(value: T)

  datatype Result<+T, +E> = Ok(value: T) | Err(error: E)

  /** The outcome of one HTTP request made by the client: the response body, or a
      failure carrying `error.response?.data?.message` and the `msg` of every entry
      of `error.response?.data?.errors` (both absent when no response arrived). */
  datatype Http<+T> =
    | Delivered(data: T)
    | Rejected(message: Option<string>, errors: Option<seq<string>>)

  /** A string that may be `undefined` or `null` is truthy iff it is present and non-empty. */
  predicate Truthy(s: Option<string>) {
    s.Some? && s.value != ""
  }

  /** The client's `s || fallback` on a string that may be missing. */
  function OrElse(s: Option<string>, fallback: string): string {
    if Truthy(s) then s.value else fallback
  }
}
