/**
 * How an awaited call inside a `try` block settles, as the handlers'
 * `catch (error)` branches see it.
 */
module Promises {

  /**
   * The call resolves, or it throws an `Error` with its message, or it
   * throws some other value, which an `error instanceof Error` test tells
   * apart from an `Error`.
   */
  datatype Settled = Resolved | RejectedWithError(message: string) | RejectedOther
}
