/** Small shared datatypes: an optional value (the source's `T | null`)
    and the outcome of one call to a backend gateway service. */
module Common {

  /** `None` stands for the source's `null`. */
  datatype Option<+T> = None | Some(value: T)

  /** What an HTTP gateway call ends in: the response body, or the
      `message` of the error it raised. */
  datatype Outcome<+T> = Success(value: T) | Failure(message: string)

  /** JavaScript's `s || d` on an optional string: a missing or empty
      string is falsy and yields the default. */
  function OrDefault(s: Option<string>, d: string): string
  {
    if s.Some? && s.value != "" then s.value else d
  }
}
