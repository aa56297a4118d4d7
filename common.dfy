/** Optional values, results and the failures the services raise. */
module Common {

  /** A Python value that may be `None` (or a dictionary key that may be absent). */
  datatype Option<+T> = None | Some(value: T) {
    function GetOr(default: T): T {
      match this
      case Some(v) => v
      case None => default
    }
  }

  /** The ways an operation of the core can fail instead of returning. */
  datatype Failure =
    | HttpStatus(code: nat, detail: string)   // an HTTPException raised by a route
    | UnsupportedMessageType(msgType: string)  // ValueError from the history's dict-to-message conversion
    | MissingKey(key: string)                  // KeyError on a dictionary lookup
    | NoDocument(id: string)                   // a find_one that returned None and was then used
    | DuplicateKey(id: string)                 // insert_one of an `_id` that is already stored
    | NotAcknowledged                          // an insert the store did not acknowledge
    | SliceRejected(count: int)                // a `$slice` projection with a non-positive count
    | NoneLink                                 // `.lower()` called on a missing image link
    | StoreFailure                             // the metrics store refused the write

  /** An operation's outcome: its value, or the failure it raised. */
  datatype Result<+T> = Ok(value: T) | Err(error: Failure)

  const Unauthorized: nat := 401
  const Forbidden: nat := 403
  const NotFound: nat := 404
  const InternalError: nat := 500
}
