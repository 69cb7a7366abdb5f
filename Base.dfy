/** Shared failure-carrying wrappers: Java's null and thrown exceptions become values. */
module Base {

  /** A Java reference that may be null. */
  datatype Option<+T> = None | Some(value: T)

  /** The exceptions the modelled code throws, by kind. */
  datatype Error =
    | NullArgument(argument: string)      // ArgumentChecker.notNull on a null argument
    | NullPointer                         // a method called on a null reference
    | IllegalArgument(message: string)    // IllegalArgumentException
    | IllegalState(message: string)       // IllegalStateException
    | ClassCast                           // a cast of a value to a type it does not have
    | UnsupportedOperation                // UnsupportedOperationException
    | NotImplemented                      // NotImplementedException
    | Runtime(message: string)            // OpenGammaRuntimeException

  /** Either a value or the exception that the Java code would have thrown. */
  datatype Result<+T> = Success(value: T) | Failure(error: Error)
}
