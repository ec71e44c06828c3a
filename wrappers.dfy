/** Option and Result types shared by every module of the model. */
module Wrappers {

  /** `None` stands for a missing value: the NaN value marker of a resampled
      branch point, or an infinite threshold. */
  datatype Option<T> = None | Some(value: T)

  /** The exceptions the Python program can raise inside the modelled core. */
  datatype Error =
    | DivisionByZero      // ZeroDivisionError: a float division by 0.0
    | EmptySequence       // ValueError: min() or max() of an empty sequence
    | RecursionLimit      // RecursionError: a negative recursion count never reaches 0
    | InterpolationError  // ValueError: scipy refuses to build an interpolant

  datatype Result<T> = Success(value: T) | Failure(error: Error)
}
