/** Failure-compatible wrappers shared by every module of the model. */
module Wrappers {

  /** A value that may be absent (`null` / `undefined` in the system). */
  datatype Option<+T> = None | Some(value: T) {
    function GetOr(default: T): T {
      match this
      case Some(v) => v
      case None => default
    }
  }

  /** The outcome of an operation that either returns a value or throws. */
  datatype Result<+T, +E> = Ok(value: T) | Err(error: E) {
    predicate IsFailure() {
      Err?
    }

    function PropagateFailure<U>(): Result<U, E>
      requires Err?
    {
      Err(error)
    }

    function Extract(): T
      requires Ok?
    {
      value
    }
  }

  /**
   * A value a `throw` raises. Both kinds have a `message`; only an `Error`
   * instance passes `instanceof Error`. The error objects a Supabase query
   * answers with are plain objects unless the client library wraps them.
   */
  datatype Thrown = ErrorInstance(message: string) | PlainObject(message: string)

  /** What a catch block reports for `t`: `t instanceof Error ? t.message : fallback`. */
  function CaughtMessage(t: Thrown, fallback: string): string {
    if t.ErrorInstance? then t.message else fallback
  }
}
