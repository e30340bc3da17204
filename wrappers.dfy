/** Failure-compatible wrappers used for the source's nullable values and its exceptions. */
module Wrappers {

  datatype Option<+T> = None | Some(value: T) {
    /** The value if present, else `default` (Kotlin's `x ?: default`). */
    function GetOr(default: T): T {
      if Some? then value else default
    }
  }

  /** The value of `first` if present, else that of `second` (Kotlin's `a ?: b` on nullables). */
  function OrElse<T>(first: Option<T>, second: Option<T>): (r: Option<T>)
    ensures r.Some? <==> first.Some? || second.Some?
    ensures first.Some? ==> r == first
    ensures first.None? ==> r == second
  {
    if first.Some? then first else second
  }

  /** An outcome that carries a value, or the message of the exception the source throws. */
  datatype Result<+T> = Ok(value: T) | Err(error: string) {
    predicate IsFailure() { Err? }

    function PropagateFailure<U>(): Result<U>
      requires Err?
    {
      Err(error)
    }

    function Extract(): T
      requires Ok?
    {
      value
    }
  }

  /** A value-less outcome, for operations that only succeed or throw. */
  datatype Outcome = Pass | Fail(error: string)
}
