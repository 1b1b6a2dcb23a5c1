/** Failure-carrying results shared by the modules of this model. */
module Wrappers {

  datatype Option<+T> = None | Some(value: T)

  /** The C++ exceptions that the modelled code can raise. */
  datatype Exception =
    | RuntimeError(what: string)   // std::runtime_error
    | OutOfRange                   // std::out_of_range, thrown by std::vector::at

  /** Either the value a C++ function returns, or the exception it throws. */
  datatype Result<+T> = Ok(value: T) | Thrown(exception: Exception)
}
