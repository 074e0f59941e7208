/** The Python exception classes that the service raises and distinguishes. */
module Exceptions {

  /**
   * `ValueError` (and its pandas subclasses) is the client-error class;
   * every other class is folded into the last two constructors.
   */
  datatype Exception =
    | ValueError(message: string)
    | RuntimeError(message: string)
    | IndexError(message: string)
    | OtherError(message: string)
}
