/** The Python exceptions the strategies can raise, and the two ways a
    call reports them: a value or an exception (Result), or just whether
    it raised (Outcome). */
module Errors {

  /** IndexError: random.choice on an empty list.
      KeyError: an unknown strategy name.
      TypeError: a keyword argument that repeats a parameter of
      `set_strategy` ("self" or "strategy"), or one the QLearning
      constructor does not take. */
  datatype Error = IndexError | KeyError | TypeError

  datatype Result<T> = Success(value: T) | Failure(error: Error)

  datatype Outcome = Pass | Fail(error: Error)
}
