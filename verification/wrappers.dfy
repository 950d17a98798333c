/** Optional values and results shared by every module of the model (plain
    datatypes, matched on explicitly), and the shape of a Python exception as
    the modelled code raises it. */
module Wrappers {

  /** An optional value: Python's `None` or a present value. */
  datatype Option<+T> = None | Some(value: T) {

    /** The present value, or `default` when absent (Python's `x or default`
        only when the value itself cannot be falsy). */
    function GetOr(default: T): T {
      match this
      case Some(v) => v
      case None => default
    }
  }

  /** A computation that either returns a value or raises. */
  datatype Result<+T, +E> = Ok(value: T) | Err(error: E)

  /** A check that either passes or reports why it failed. */
  datatype Outcome<+E> = Pass | Fail(error: E)

  /** A raised Python exception: its class name and its message. */
  datatype Exception = Exception(name: string, message: string)

  /** The text `f"{type(e).__name__}: {e}"` that the worker stores as a task's error. */
  function Describe(e: Exception): string {
    e.name + ": " + e.message
  }
}
