/** Failure-carrying results shared by every module: Java's exceptions become `Err`. */
module Wrappers {

  /** The exception a Java operation throws, with its message where the code supplies one;
      the runtime's own index and null-reference failures carry none. */
  datatype Error =
    | IllegalArgument(message: string)
    | Arithmetic(message: string)
    | IndexOutOfBounds
    | NullPointer

  datatype Result<+T> = Ok(value: T) | Err(error: Error)

  datatype Option<+T> = None | Some(value: T)
}
