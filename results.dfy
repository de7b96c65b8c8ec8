/** Error taxonomy of the order domain and the failure-carrying wrappers
    that stand in for the source's exceptions. */
module Results {

  /** The kinds of failure the core raises. The message is the one the
      source passes to its exception. */
  datatype Error =
    | Validation(message: string)          // DomainValidationException
    | BusinessRule(message: string)        // BusinessRuleViolationException
    | NotFound(message: string)            // NotFoundException
    | ConcurrencyConflict(message: string) // ConcurrencyConflictException
    | DuplicateKey                         // write rejected by a unique index of the store

  datatype Option<+T> = None | Some(value: T)

  /** Either the value an operation produces or the error it raises. */
  datatype Result<+T> = Success(value: T) | Failure(error: Error)

  /** The outcome of an operation that returns nothing (a C# `void` method). */
  datatype Outcome = Pass | Fail(error: Error)
}
