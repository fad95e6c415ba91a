/** Failures of the workout calculator, as values instead of raised exceptions. */
module Results {

  /** The three ways a computation can fail. */
  datatype Error =
    /** The workout code is not a key of the dispatch table (a `KeyError` in the program). */
    | UnknownWorkoutType
    /** The parameter list does not match the constructor's positional parameters
        (a `TypeError` in the program). */
    | WrongParameterCount(expected: nat, given: nat)
    /** A division by zero while computing a quantity (a `ZeroDivisionError`). */
    | DivisionByZero

  datatype Result<+T> = Ok(value: T) | Err(error: Error)
}
