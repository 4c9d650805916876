/** `withRetry` of the main process (electron/main.js): retry a fallible call with exponential backoff. */
module Retry {
  import opened Wrappers

  const BaseDelayMs: nat := 1000

  function Pow2(k: nat): (r: nat)
    ensures r >= 1
  {
    if k == 0 then 1 else 2 * Pow2(k - 1)
  }

  /** The sleep after failed attempt number `attempt` (counting from 1) when another attempt follows. */
  function BackoffDelay(attempt: nat): nat
    requires attempt >= 1
  {
    BaseDelayMs * Pow2(attempt - 1)
  }

  /** The sleeps that follow the first n failed attempts, in order. */
  function Schedule(n: nat): (r: seq<nat>)
    ensures |r| == n
    ensures forall i :: 0 <= i < n ==> r[i] == BaseDelayMs * Pow2(i)
  {
    if n == 0 then [] else Schedule(n - 1) + [BackoffDelay(n)]
  }

  function Sum(s: seq<nat>): nat {
    if s == [] then 0 else Sum(s[..|s| - 1]) + s[|s| - 1]
  }

  /** The n sleeps add up to 1000 * (2^n - 1) ms. */
  lemma {:induction false} ScheduleTotal(n: nat)
    ensures Sum(Schedule(n)) == BaseDelayMs * (Pow2(n) - 1)
  {
    if n > 0 {
      ScheduleTotal(n - 1);
      assert Schedule(n)[..n - 1] == Schedule(n - 1);
    }
  }

  /** With the three attempts the handlers use, two failures cost 1 s and then 2 s of waiting. */
  lemma ThreeAttemptsWaitThreeSeconds()
    ensures Schedule(2) == [1000, 2000]
    ensures Sum(Schedule(2)) == 3000
  {
    ScheduleTotal(2);
    assert Schedule(2)[0] == 1000 && Schedule(2)[1] == 2000;
  }

  /** What `withRetry` settles with: the value of a call that resolved, or the error it throws (`undefined` if nothing was tried). */
  datatype RetryOutcome<+T, +E> = Returned(value: T) | Threw(error: Option<E>)

  /**
   * `withRetry(fn, maxAttempts)`. The call `fn()` is modelled by `fn(k)`, the outcome of its k-th invocation,
   * so the remote service's behaviour is a parameter. Returns the outcome, how many times `fn` was called
   * and the sleeps performed between calls.
   */
  method WithRetry<T, E>(fn: nat -> Attempt<T, E>, maxAttempts: nat)
    returns (outcome: RetryOutcome<T, E>, calls: nat, delays: seq<nat>)
    ensures calls <= maxAttempts
    ensures maxAttempts > 0 ==> calls >= 1
    ensures forall k :: 1 <= k < calls ==> fn(k).Fail?
    ensures outcome.Returned? <==> calls >= 1 && fn(calls).Ok?
    ensures outcome.Returned? ==> outcome.value == fn(calls).value
    ensures outcome.Threw? ==> calls == maxAttempts
    ensures outcome.Threw? ==> outcome.error == if maxAttempts == 0 then None else Some(fn(maxAttempts).error)
    ensures delays == Schedule(if calls == 0 then 0 else calls - 1)
  {
    var lastError: Option<E> := None;
    calls, delays := 0, [];
    var attempt := 1;
    while attempt <= maxAttempts
      invariant 1 <= attempt <= maxAttempts + 1 || (maxAttempts == 0 && attempt == 1)
      invariant calls == attempt - 1
      invariant forall k :: 1 <= k < attempt ==> fn(k).Fail?
      invariant lastError == if attempt == 1 then None else Some(fn(attempt - 1).error)
      invariant delays == Schedule(if attempt <= maxAttempts || calls == 0 then calls else calls - 1)
    {
      calls := calls + 1;
      match fn(attempt) {
        case Ok(v) =>
          outcome := Returned(v);
          return;
        case Fail(e) =>
          lastError := Some(e);
          if attempt < maxAttempts {
            delays := delays + [BackoffDelay(attempt)];
          }
      }
      attempt := attempt + 1;
    }
    outcome := Threw(lastError);
  }
}
