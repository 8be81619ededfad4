/**
 * The parts of the JavaScript runtime the readers rely on: error objects
 * (name, optional `code`, message) and the state of a promise.
 */
module Runtime {
  import opened Wrappers

  /** A thrown or rejected JavaScript error: its `name`, its `code` (set by
      the file system, e.g. "ENOENT") and its `message`. */
  datatype JsError = JsError(name: string, code: Option<string>, message: string)

  /** `new Error(message)`: name "Error", no code. */
  function PlainError(message: string): JsError
  {
    JsError("Error", None, message)
  }

  /** The file-system error code for a path that does not exist. */
  const NoSuchFile: string := "ENOENT"

  /** The state of a promise: not yet settled, resolved with a value, or
      rejected with an error. Only the first resolve/reject takes effect. */
  datatype Outcome<+T> = Pending | Resolved(value: T) | Rejected(error: JsError)

  /** Calling `resolve`/`reject` with `next`: a settled promise ignores it. */
  function Settle<T>(current: Outcome<T>, next: Outcome<T>): Outcome<T>
  {
    if current.Pending? then next else current
  }
}
