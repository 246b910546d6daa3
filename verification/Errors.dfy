/**
 Errors as trees, so that `errors.Is` can be told apart from a message that
 merely quotes another error: `Wrap` is an error formatted with %w, `Hidden`
 one formatted with %s, whose cause can no longer be found.
 */
module Errors {
  type ContextID = string

  datatype Error =
    | NotFound
    | PreconditionFailed
    | DeadlineExceeded
    | AlreadyAdvertised
    | ContextIDNotFound
    | Other(code: int)
    | Wrap(inner: Error)
    | Hidden(inner: Error)
    | Joined(errs: seq<Error>)
    | RollbackFailed(cause: Error, failures: seq<Failure>, total: nat)

  // One mapping that could not be put back, and why.
  datatype Failure = Failure(contextID: ContextID, err: Error)

  /** errors.Is, for the sentinel values: a sentinel is found through every
      wrapping except one that only quoted the message. */
  predicate Is(e: Error, target: Error)
    decreases e
  {
    match e
    case Wrap(inner) => Is(inner, target)
    case Hidden(_) => false
    case Joined(errs) => exists i | 0 <= i < |errs| :: Is(errs[i], target)
    case RollbackFailed(cause, failures, _) =>
      Is(cause, target) || exists i | 0 <= i < |failures| :: Is(failures[i].err, target)
    case _ => e == target
  }

  /** True of an error that is none of the values the program branches on, and
      none that the program made by quoting another. */
  predicate Foreign(e: Error) {
    && !Is(e, NotFound)
    && !Is(e, PreconditionFailed)
    && !Is(e, AlreadyAdvertised)
    && !Is(e, ContextIDNotFound)
    && !e.RollbackFailed? && !e.Hidden?
  }
}
