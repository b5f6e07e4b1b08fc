/** Option and Result wrappers, and the failures the generator can raise. */
module Outcomes {

  datatype Option<+T> = None | Some(value: T)

  /** Why a JavaScript call threw (or why its promise was rejected). */
  datatype Failure =
    | TypeError(site: string)        // a property read or call on null/undefined
    | InvalidFormat                  // `throw new Error("invalid format specified ...")`
    | CompileError(source: Option<string>)  // the regex engine refused the pattern (None: pattern undefined)

  datatype Result<+T> = Ok(value: T) | Err(error: Failure) {
    predicate IsFailure() { Err? }
    function PropagateFailure<U>(): Result<U>
      requires Err?
    {
      Err(error)
    }
    function Extract(): T
      requires Ok?
    {
      value
    }
  }
}
