/** Failure-compatible wrappers shared by every module, and the scalar types of
    the document store: object ids and millisecond timestamps. */
module Wrappers {

  /** A value that may be absent: a missing request field, `undefined`, `null`,
      or a number that parsed to `NaN`. */
  datatype Option<+T> = None | Some(value: T) {
    function GetOr(default: T): T {
      match this
      case Some(v) => v
      case None => default
    }
  }

  /** The outcome of a request handler: a value, or the error it responds with. */
  datatype Result<+R, +E> = Ok(value: R) | Err(error: E)

  /** A document id. Ids are opaque; the model only compares them. */
  type ObjectId = nat

  /** A point in time in milliseconds since the epoch (`Date.now()`). */
  type Millis = int
}
