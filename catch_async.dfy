/**
 * The generic guard that wraps every async handler (src/utils/catchAsync.ts):
 * a rejected promise becomes the same 500 response whatever it rejected with.
 */
module AsyncGuard {
  import opened Wrappers
  import opened Http

  const InternalErrorMessage := "Internal server error"

  /** The response the guard sends for any rejection. */
  const InternalError := Response(500, None, Envelope(Fail, Some(InternalErrorMessage), None, None))

  /**
   * `catchAsync(fn)(req, res, next)`: what the wrapped handler finally does,
   * given how the promise of `fn(req, res, next)` settled.
   */
  function CatchAsync(settled: Settled): (e: Effect)
    ensures settled.Resolved? ==> e == settled.effect
    ensures settled.Rejected? ==> e.Sent? && e.response.code == 500 && e.response.allow == None
    ensures settled.Rejected? ==> e.response.body == Envelope(Fail, Some(InternalErrorMessage), None, None)
  {
    match settled
    case Resolved(effect) => effect
    case Rejected(_) => Sent(InternalError)
  }

  /** No detail of the rejection reaches the client: any two rejections look the same. */
  lemma RejectionsIndistinguishable(a: Failure, b: Failure)
    ensures CatchAsync(Rejected(a)) == CatchAsync(Rejected(b))
  {
  }

  /** The guard never turns a rejection into a pass-through: the request is always answered. */
  lemma RejectionAlwaysAnswered(reason: Failure)
    ensures CatchAsync(Rejected(reason)) != Next
  {
  }
}
