/** The exceptions the runtime lets escape to its caller. */
module Errors {

  datatype Error =
      /** TimeoutError raised when the attach gate is not set (message "Attach Failed"). */
    | AttachTimeout
      /** TimeoutError raised when the load gate is not set (message "Page failed to load"). */
    | LoadTimeout
      /** TimeoutError raised when a command's gate is missing or not set (message "results Timed out"). */
    | ResultsTimeout
      /** KeyError: a dictionary lookup of an absent key. */
    | KeyError(key: string)
      /** TypeError: a string subscript applied to a decoded value that is not an object. */
    | TypeError
}
