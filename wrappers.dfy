/** Option and Result, the failure-carrying values of the model. */
module Wrappers {

  datatype Option<+T> = None | Some(value: T)

  /** The exceptions StartRecording can raise, by the C++ exception type. */
  datatype RecorderError =
    | InvalidArgument   // std::invalid_argument("File already exist")
    | LogicError        // std::logic_error("Already recording")
    | RuntimeError(errno: int)  // std::runtime_error("Could not create file - Error code: " + errno)

  datatype Result<+T> = Ok(value: T) | Err(error: RecorderError)
}
