/** Optional values and request outcomes shared by the dashboard model. */
module Basics {

  /** A value that may be absent: JavaScript's `undefined` for an optional field. */
  datatype Option<+T> = None | Some(value: T) {

    /** The carried value, or `default` when absent (JavaScript's `x ?? default`). */
    function GetOr(default: T): T
    {
      match this
      case Some(v) => v
      case None => default
    }
  }

  /** Why an authenticated request produced no usable body. */
  datatype FetchError =
    | MissingApiKey          // no bearer and no API key: the token exchange refuses before any request
    | IamRejected(code: int) // the identity endpoint answered with a non-2xx status
    | HttpStatus(code: int)  // the provider API answered with a non-2xx status
    | Thrown                 // any other exception: network failure, malformed JSON

  /** The outcome of one awaited request: its decoded body or the exception it raised. */
  datatype Fetch<+T> = Ok(body: T) | Failed(error: FetchError)
}
