/** Values that stand for the results and the exceptions of the transaction
    service: an optional value, an outcome of a step that returns nothing,
    a result that carries a value, and the kinds of error the service raises. */
module Outcomes {

  /** Something that may be absent (a `null`/`undefined` in the service). */
  datatype Option<T> = None | Some(value: T)

  /** The errors the service and its collaborators throw. */
  datatype Error =
    /** The store's `findOne`, `updateOne` or `create` threw. */
    | StoreError
    /** A status lookup found no document with that id. */
    | NotFound(id: string)
    /** The predecessor table does not allow the move from `current` to `requested`. */
    | WorkflowFailure(id: string, current: string, requested: string)
    /** `create` reported success but gave back no document, or one without an id. */
    | MissingId(id: string)
    /** The producer did not acknowledge the send; the broker's error is not passed on. */
    | PublishFailure
    /** A result message whose `result` is none of the three result statuses. */
    | UnexpectedResult(id: string, result: string)
    /** A result message that could not be decoded. */
    | Malformed
    /** The error thrown by the submission, built around the first failure. */
    | Wrapped(cause: Error)

  /** The outcome of a step that returns nothing useful. */
  datatype Outcome = Pass | Fail(error: Error)

  /** The outcome of a step that returns a value. */
  datatype Result<T> = Success(value: T) | Failure(error: Error)
}
