/** Values shared by every part of the client model: optional values, results
    that carry an error, the errors the client raises, and JavaScript
    truthiness of an optional string. */
module Common {

  datatype Option<+T> = None | Some(value: T)

  datatype Result<+T, +E> = Success(value: T) | Failure(error: E)

  /** Every way an operation of the client can fail. */
  datatype Error =
    | MissingKey          // aws "key" required
    | MissingSecret       // aws "secret" required
    | InvalidPath         // the path has no slash separating the bucket from the key
    | Transport(msg: string)  // the request or the XML parse reported an error
    | TruncatedEmpty      // a page said it was truncated, yet had no contents
    | InfiniteLoop        // the next marker was empty or did not advance
    | Exhausted           // the model's request budget ran out (the client itself never raises it)

  /** A JavaScript string value that may be undefined is truthy when it is
      defined and not the empty string. */
  predicate Truthy(s: Option<string>) {
    s.Some? && s.value != ""
  }
}
