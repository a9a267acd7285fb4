/**
 * The bounded retry pattern shared by `handleButton`, `handleInput` and `handleInputField`: attempt
 * k (counting from 1) either succeeds, fails without an exception (its value did not verify),
 * fails with an exception the loop catches, or fails in a way that escapes the loop. The loop
 * stops at the first success or escape, or after the last allowed attempt.
 */
module Retry {
  import opened Errors

  datatype Attempt =
    | Done
    | Unverified
    | Failed(cause: string)
    | Escaped(thrown: Thrown)

  /** How the loop ends, and how many attempts it made. */
  datatype Ending =
    | Succeeded(attempts: nat)
    | FailedOnLast(attempts: nat, cause: string)
    | Aborted(attempts: nat, thrown: Thrown)
    | Exhausted(attempts: nat)

  /** An attempt after which the loop tries again, if it is allowed another. */
  predicate Continues(a: Attempt) {
    a.Unverified? || a.Failed?
  }

  /** The attempts after `done` and before `k` all let the loop go on. */
  ghost predicate ReachesFrom(outcomes: nat -> Attempt, done: nat, k: nat) {
    forall i: nat :: done < i < k ==> Continues(outcomes(i))
  }

  function Top(max: int, done: nat): nat {
    if max > done then max else done
  }

  /** The loop once `done` attempts have been made; `outcomes(k)` is what attempt k does. */
  function RunFrom(outcomes: nat -> Attempt, max: int, done: nat): Ending
    decreases Top(max, done) - done
  {
    if done >= max then Exhausted(done)
    else match outcomes(done + 1)
      case Done => Succeeded(done + 1)
      case Unverified => RunFrom(outcomes, max, done + 1)
      case Failed(cause) =>
        if done + 1 >= max then FailedOnLast(done + 1, cause) else RunFrom(outcomes, max, done + 1)
      case Escaped(t) => Aborted(done + 1, t)
  }

  /** The whole loop, allowed `max` attempts. */
  function Run(outcomes: nat -> Attempt, max: int): Ending {
    RunFrom(outcomes, max, 0)
  }

  /** Each way the loop can end, as a condition on the attempts it makes. */
  lemma {:induction false} RunFromCharacterized(outcomes: nat -> Attempt, max: int, done: nat, n: nat, cause: string, t: Thrown)
    ensures done <= RunFrom(outcomes, max, done).attempts <= Top(max, done)
    ensures RunFrom(outcomes, max, done) == Succeeded(n) <==>
              done < n <= max && ReachesFrom(outcomes, done, n) && outcomes(n) == Done
    ensures RunFrom(outcomes, max, done) == Aborted(n, t) <==>
              done < n <= max && ReachesFrom(outcomes, done, n) && outcomes(n) == Escaped(t)
    ensures RunFrom(outcomes, max, done) == FailedOnLast(n, cause) <==>
              done < n == max && ReachesFrom(outcomes, done, n) && outcomes(n) == Failed(cause)
    ensures RunFrom(outcomes, max, done) == Exhausted(n) <==>
              n == Top(max, done) && ReachesFrom(outcomes, done, n) && (n > done ==> outcomes(n) == Unverified)
    decreases Top(max, done) - done
  {
    if done < max {
      var a := outcomes(done + 1);
      if a == Unverified || (a.Failed? && done + 1 < max) {
        RunFromCharacterized(outcomes, max, done + 1, n, cause, t);
        forall k: nat | done + 1 < k ensures ReachesFrom(outcomes, done, k) <==> ReachesFrom(outcomes, done + 1, k) {
          if ReachesFrom(outcomes, done + 1, k) {
            forall i: nat | done < i < k ensures Continues(outcomes(i)) {
              if i > done + 1 { assert done + 1 < i < k; }
            }
          }
        }
        if n <= done + 1 {
          assert !(done + 1 < n);
        }
      }
    }
  }

  /**
   * A loop allowed `max` attempts makes at most `max` of them (none when `max` is not positive),
   * succeeds or is aborted by attempt n exactly when n is the first attempt that does not let it
   * go on, and otherwise ends after exactly `max` attempts, failing with the last attempt's
   * exception or with no cause when the last attempt only failed to verify.
   */
  lemma RunCharacterized(outcomes: nat -> Attempt, max: int, n: nat, cause: string, t: Thrown)
    ensures Run(outcomes, max).attempts <= Top(max, 0)
    ensures Run(outcomes, max) == Succeeded(n) <==>
              1 <= n <= max && ReachesFrom(outcomes, 0, n) && outcomes(n) == Done
    ensures Run(outcomes, max) == Aborted(n, t) <==>
              1 <= n <= max && ReachesFrom(outcomes, 0, n) && outcomes(n) == Escaped(t)
    ensures Run(outcomes, max) == FailedOnLast(n, cause) <==>
              1 <= n == max && ReachesFrom(outcomes, 0, n) && outcomes(n) == Failed(cause)
    ensures Run(outcomes, max) == Exhausted(n) <==>
              n == Top(max, 0) && ReachesFrom(outcomes, 0, n) && (n > 0 ==> outcomes(n) == Unverified)
  {
    RunFromCharacterized(outcomes, max, 0, n, cause, t);
  }
}
