/** The retry policy a `RetryPolicyEvaluator` hands back for a failed runnable,
    and the retry signal it turns into (Accord/Sources/Accord/Models/RetryPolicy.swift). */
module RetryPolicies {

  /** `RxTimeInterval` as a whole number of abstract time units. */
  type Interval = nat

  datatype RetryPolicy = RetryImmediately | RetryAfter(delay: Interval) | GiveUp

  /** What `toObservable(fromError:onScheduler:)` makes of a policy, seen by
      `retryWhen`: one `()` after some delay (re-run the runnable), or an error
      (stop retrying and fail with it). */
  datatype RetrySignal<E> = Resume(after: Interval) | Fail(error: E)

  function ToObservable<E>(policy: RetryPolicy, error: E): (s: RetrySignal<E>)
    // exactly one of "resume once" and "fail"; resuming is what every policy but giveUp does
    ensures s.Resume? <==> !policy.GiveUp?
    // retryImmediately resumes with no delay, retryAfter(d) after exactly d
    ensures s.Resume? ==> s.after == (if policy.RetryAfter? then policy.delay else 0)
    // giveUp fails with exactly the error it was given
    ensures s.Fail? ==> s.error == error
  {
    match policy
    case RetryImmediately => Resume(0)
    case RetryAfter(delay) => Resume(delay)
    case GiveUp => Fail(error)
  }
}
