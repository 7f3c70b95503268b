/** Small failure-carrying datatypes shared by the whole model. */
module Wrappers {

  /** A value that may be absent: an optional field, `null` or `undefined`. */
  datatype Option<+T> = None | Some(value: T) {
    function GetOr(default: T): T {
      match this
      case Some(v) => v
      case None => default
    }
  }

  /**
   * What a `fetch` round trip gives the client: a successful reply carrying
   * the decoded JSON payload, a reply whose `ok` flag is false, or an
   * exception (network failure, bad JSON) carrying its message.
   */
  datatype Reply<+T> = Ok(payload: T) | NotOk | Thrown(message: string)
}
