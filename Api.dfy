/** Shapes shared by every backend call: the `{code, result, message}`
    envelope, and the two ways a call fails before an envelope can be read. */
module Api {

  datatype Option<+T> = None | Some(value: T)

  /** What a `fetch` followed by decoding the body yields, with the HTTP and
      JSON layers abstracted away. */
  datatype Response<+T> =
    | NetErr    // the fetch (or reading the body text) rejected
    | NotJson   // the body fails to parse, or is the JSON literal `null`
    // (any other non-object JSON value is `Envelope(None, None, None)`)
    | Envelope(code: Option<int>, result: Option<T>, message: Option<string>)

  /** JavaScript's `s || fallback` on an optional string: an absent or empty
      string is falsy. */
  function OrElse(s: Option<string>, fallback: string): string
  {
    if s.Some? && s.value != "" then s.value else fallback
  }
}
