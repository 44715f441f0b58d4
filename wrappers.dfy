/** Failure-carrying values used wherever the bot calls something that may fail. */
module Wrappers {

  datatype Option<+T> = None | Some(value: T) {
    function GetOr(default: T): T {
      match this
      case Some(v) => v
      case None => default
    }
  }

  /** An exception raised by a call the model does not look inside (an HTTP request,
      JSON decoding, a dictionary lookup). Its text is never shown to the user. */
  datatype Fault = Fault(description: string)

  /** The outcome of a call that either returns a value or raises. */
  datatype Result<+T> = Ok(value: T) | Raised(fault: Fault)
}
