/** Failure-compatible wrappers. The program distinguishes recoverable errors
    (`anyhow::Error`, propagated with `?`) from panics (`unwrap`, `expect`,
    `panic!`); both end the computation, so both are failure values here. */
module Wrappers {

  datatype Option<+T> = None | Some(value: T) {
    predicate IsFailure() { None? }

    function PropagateFailure<U>(): Option<U>
      requires None?
    {
      None
    }

    function Extract(): T
      requires Some?
    {
      value
    }

    function GetOr(default: T): T {
      if Some? then value else default
    }
  }

  /** Why a computation stopped. */
  datatype Failure =
    | Error(msg: string)   // an error returned to the caller
    | Panic(msg: string)   // the program aborts

  datatype Result<+T> = Ok(value: T) | Fail(failure: Failure) {
    predicate IsFailure() { Fail? }

    function PropagateFailure<U>(): Result<U>
      requires Fail?
    {
      Fail(failure)
    }

    function Extract(): T
      requires Ok?
    {
      value
    }
  }
}
