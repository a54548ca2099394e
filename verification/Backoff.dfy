/** Restart policy and exponential backoff (src/process.rs:38-59, 338-361). */
module Backoff {
  import opened Protocol

  /** Time is counted in nanoseconds, as `Duration` does. */
  type Time = nat

  const SECOND: Time := 1_000_000_000
  const RESTART_BASE: Time := SECOND
  const RESTART_MAX: Time := 30 * SECOND
  const STABLE_RESET: Time := 10 * SECOND
  const MAX_SHIFT: nat := 5

  predicate ShouldRestart(policy: RestartPolicy, code: Option<int>) {
    match policy
    case Never => false
    case Always => true
    case OnFailure => code != Some(0)
  }

  function Min(a: nat, b: nat): nat {
    if a < b then a else b
  }

  /** `1 << n`. */
  function Pow2(n: nat): nat {
    if n == 0 then 1 else 2 * Pow2(n - 1)
  }

  /** The sleep before restart number `attempt`, with the shift capped as well as the result. */
  function Delay(attempt: nat): Time
    requires attempt >= 1
  {
    Min(RESTART_BASE * Pow2(Min(attempt - 1, MAX_SHIFT)), RESTART_MAX)
  }

  /** The attempt counter after an exit: back to one when the child was up long enough. */
  function NextAttempt(attempt: nat, uptime: Time): nat {
    if uptime >= STABLE_RESET then 1 else attempt + 1
  }

  lemma {:induction false} Pow2Grows(m: nat, n: nat)
    requires m <= n
    ensures 1 <= Pow2(m) <= Pow2(n)
  {
    if n > m {
      Pow2Grows(m, n - 1);
    } else if n > 0 {
      Pow2Grows(m - 1, n - 1);
    }
  }

  /** Capping the shift never shows: the delay is min(2^(attempt-1), 30) seconds for every attempt. */
  lemma DelayIsCappedDoubling(attempt: nat)
    requires attempt >= 1
    ensures Delay(attempt) == SECOND * Min(Pow2(attempt - 1), 30)
  {
    assert Pow2(MAX_SHIFT) == 32;
    if attempt - 1 >= MAX_SHIFT {
      Pow2Grows(MAX_SHIFT, attempt - 1);
    }
  }

  /**
   * Credit, in units of a third of a second, that a crash loop may have spent in advance
   * when its attempt counter stands at `attempt`.
   */
  function Credit(attempt: nat): (c: nat)
    ensures c <= 30
  {
    match attempt
    case 0 => 0
    case 1 => 14
    case 2 => 25
    case 3 => 30
    case _ => 23
  }

  /**
   * One pass around the restart loop pays for itself: the uptime and the backoff, at three
   * units a second, cover the seventeen units a relaunch costs and the change in credit.
   */
  lemma RelaunchIsPaidFor(attempt: nat, uptime: Time)
    ensures
      var next := NextAttempt(attempt, uptime);
      17 * SECOND + Credit(attempt) * SECOND <=
      3 * ((if uptime >= STABLE_RESET then STABLE_RESET else 0) + Delay(next)) + Credit(next) * SECOND
  {
    assert Pow2(0) == 1 && Pow2(1) == 2 && Pow2(2) == 4 && Pow2(3) == 8;
    if attempt >= 3 {
      DelayIsCappedDoubling(attempt + 1);
      Pow2Grows(3, attempt);
    }
  }
}
