/** The errors the services throw or let escape, and the result of an operation. */
module Errors {
  datatype Error =
    /** `new CustomError(message, status, name)` */
    | Custom(message: string, status: int, name: string)
    /** A `TypeError` from reading a field of a lookup that returned `null`. */
    | NullDereference(expression: string)
    /** The persistence layer refused a write that breaks a unique column. */
    | UniqueViolation(column: string)

  /** Returned value or thrown error. */
  datatype Result<+T> = Ok(value: T) | Err(error: Error)
}
