/** Failure reporting shared by the controller's operations. */
module Outcome {

  /** The two ways the controller can fail; each stands for the Python
      exception the Python controller raises at that point. */
  datatype Error =
    | DivisionByZero    // ZeroDivisionError: a round trip measured as exactly zero seconds
    | EmptyQualityList  // IndexError: a quality is chosen before any level is known

  /** Either the value an operation computed or the error it stopped with. */
  datatype Result<T> = Ok(value: T) | Err(error: Error)
}
