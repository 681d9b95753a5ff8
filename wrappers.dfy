/** Small value wrappers shared by both views. */
module Wrappers {

  /** A value that may be absent; stands for TypeScript's `T | null`. */
  datatype Option<+T> = None | Some(value: T)

  /** The outcome of one `fetch`: a 2xx response with its decoded JSON body, or any failure. */
  datatype Response<+T> = Ok(payload: T) | Failed

  /** JavaScript truthiness of a `string | null`: `null` and `""` are falsy. */
  predicate Truthy(text: Option<string>) {
    text.Some? && text.value != ""
  }
}
