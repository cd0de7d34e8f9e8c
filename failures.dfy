/** Errors raised by the CARDS utilities, and the failure-compatible wrappers that carry them. */
module Failures {

  /** The exceptions the modelled code can raise, one constructor per distinct cause. */
  datatype Error =
    | InvalidSchedule        // assertion: schedule name not in the list of valid schedules
    | KeyError(key: string)  // schedule name has no entry in the generator table
    | ZeroDivision           // Python float division by zero
    | NegativeSteps          // torch refuses a negative number of steps / a negative size
    | IndexOutOfBounds       // gather or embedding lookup with an index outside the table
    | AmbiguousView          // view(-1, 0): the inferred dimension of an empty tensor is ambiguous
    | ShapeMismatch          // linear layer, concatenation or broadcasting with incompatible shapes
    | NoneOperand            // None passed where a tensor is concatenated
    | CannotConcatX          // conv model: inner model concatenates x
    | CannotConcatY          // conv model: inner model concatenates y_0_hat
    | EncoderWidthMismatch   // conv model: twice the encoder width differs from the inner y_dim

  datatype Option<+T> = None | Some(value: T)

  datatype Result<+T> = Ok(value: T) | Err(error: Error) {
    predicate IsFailure() { Err? }

    function PropagateFailure<U>(): Result<U>
      requires Err?
    {
      Err(error)
    }

    function Extract(): T
      requires Ok?
    {
      value
    }
  }

  /** The result of a check that yields no value. */
  datatype Outcome = Pass | Fail(error: Error) {
    predicate IsFailure() { Fail? }

    function PropagateFailure<U>(): Result<U>
      requires Fail?
    {
      Err(error)
    }
  }
}
