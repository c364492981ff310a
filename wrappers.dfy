/** Small failure-carrying datatypes shared by every module of the model. */
module Wrappers {

  /** A value that may be absent; stands for a C# reference that may be null. */
  datatype Option<+T> = None | Some(value: T)

  /** The result of an operation that either yields a value or throws with a message. */
  datatype Result<+R> = Success(value: R) | Failure(message: string)

  /** The result of an operation that yields nothing or throws with a message. */
  datatype Outcome = Pass | Fail(message: string)

  /** An injected fault: `Some(message)` when the external call throws, `None` when it succeeds. */
  function OutcomeOf(fault: Option<string>): Outcome
  {
    match fault
    case None => Pass
    case Some(m) => Fail(m)
  }
}
