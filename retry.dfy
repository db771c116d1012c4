/**
 * `retry(function, retries)`: calls a fallible operation until it succeeds,
 * at most `retries` times.  The operation is given by the outcome of each of
 * its successive calls.
 */
module Retry {

  datatype Attempt<T, E> = Succeeded(value: T) | Failed(error: E)

  /** What `retry` does: return a value, re-raise an exception, or return None when `retries <= 0`. */
  datatype RetryResult<T, E> = Returned(value: T) | Raised(error: E) | NoAttempts

  method Retry<T, E>(operation: nat -> Attempt<T, E>, retries: int) returns (r: RetryResult<T, E>, calls: nat)
    ensures retries <= 0 <==> r.NoAttempts?
    ensures r.NoAttempts? ==> calls == 0
    ensures retries > 0 ==> 1 <= calls <= retries
    ensures forall j :: 0 <= j < calls - 1 ==> operation(j).Failed?
    ensures r.Returned? ==> operation(calls - 1) == Succeeded(r.value)
    ensures r.Raised? ==> calls == retries && operation(calls - 1) == Failed(r.error)
    ensures r.Raised? <==> retries > 0 && forall j :: 0 <= j < retries ==> operation(j).Failed?
  {
    var i := 0;
    while i < retries
      invariant 0 <= i
      invariant retries > 0 ==> i < retries
      invariant forall j :: 0 <= j < i ==> operation(j).Failed?
      decreases retries - i
    {
      var outcome := operation(i);
      if outcome.Succeeded? {
        return Returned(outcome.value), i + 1;
      }
      if i == retries - 1 {
        return Raised(outcome.error), i + 1;
      }
      i := i + 1;
    }
    return NoAttempts, 0;
  }
}
