/** The launcher's error type and the result wrapper every fallible
    operation returns (src/error.rs). Only the two variants the launcher
    raises itself are modelled; the variants that wrap foreign errors
    (I/O, YAML, anyhow) belong to code outside this model. */
module Errors {

  datatype WorkonError =
    | InvalidConfig(reason: string)   // a configuration check failed, with its fixed reason
    | InvalidProjectNameError         // the requested project is not in the configuration

  /** `WorkonResult<T>`: either the value or the error that stopped the computation. */
  datatype Result<T> = Ok(value: T) | Err(error: WorkonError)
}
