/**
 * The bounded retry every sensor read in the station uses: try, and on
 * failure call again with `repeat - 1` while `repeat > 0`.
 */
module Retries {
  import opened Outcomes

  /** How many attempts a call with `repeat` makes at most: the first and one per remaining repeat. */
  function Attempts(repeat: int): (n: nat)
    ensures n >= 1 && (repeat >= 0 ==> n == repeat + 1)
  {
    if repeat > 0 then repeat + 1 else 1
  }

  /** What a retrying call returned, and how many attempts it made. */
  datatype Retried<T> = Retried(value: Option<T>, attempts: nat)

  /** Attempts `attempt(k)`, `attempt(k + 1)`, ... until one succeeds or the repeats run out. */
  function RetryFrom<T>(attempt: nat -> Option<T>, k: nat, repeat: int): (r: Retried<T>)
    ensures k < r.attempts <= k + Attempts(repeat)
    ensures forall j :: k <= j < r.attempts - 1 ==> attempt(j).None?
    ensures r.value == attempt(r.attempts - 1)
    ensures r.value.None? ==> r.attempts == k + Attempts(repeat)
    decreases if repeat > 0 then repeat else 0
  {
    if attempt(k).Some? then Retried(attempt(k), k + 1)
    else if repeat > 0 then RetryFrom(attempt, k + 1, repeat - 1)
    else Retried(None, k + 1)
  }

  /**
   * A retrying call returns the first successful attempt among the first
   * `Attempts(repeat)`, and None exactly when all of them fail.
   */
  function Retry<T>(attempt: nat -> Option<T>, repeat: int): (r: Retried<T>)
    ensures 1 <= r.attempts <= Attempts(repeat)
    ensures r.value.Some? ==> r.value == attempt(r.attempts - 1) && forall j :: 0 <= j < r.attempts - 1 ==> attempt(j).None?
    ensures r.value.None? <==> forall j :: 0 <= j < Attempts(repeat) ==> attempt(j).None?
    ensures r.value.None? ==> r.attempts == Attempts(repeat)
  {
    RetryFrom(attempt, 0, repeat)
  }

  /** A first attempt that succeeds is returned at once. */
  lemma FirstAttemptWins<T>(attempt: nat -> Option<T>, repeat: int)
    requires attempt(0).Some?
    ensures Retry(attempt, repeat) == Retried(attempt(0), 1)
  {
  }
}
