/** The exceptions the service layer raises, and the result types that carry them. */
module Errors {

  /** One constructor per exception the modelled services throw. */
  datatype Error =
    | ProductNotFound(id: int)        // ProductNotFoundException
    | NegativeQuantity                // IllegalArgumentException("Quantity cannot be negative")
    | NoSuchElement                   // NoSuchElementException from Optional.get / orElseThrow
    | NullReference                   // NullPointerException on a missing category
    | LowLimitAlert(message: string)  // ProductLowLimitAlertException
    | IndexOutOfBounds                // ArrayList.subList with a negative start or an end past the list
    | IllegalArgument                 // ArrayList.subList with a start after the end

  datatype Option<T> = None | Some(value: T)

  /** A computation that returns a value or throws. */
  datatype Result<T> = Ok(value: T) | Err(error: Error)

  /** A void computation that returns normally or throws. */
  datatype Outcome = Pass | Fail(error: Error)
}
