/** Retry delays: a clipped shift for errors worth retrying soon, a flat ceiling for the deterministic ones. */
module Backoff {
  import opened Types

  function Pow2(n: nat): nat {
    if n == 0 then 1 else 2 * Pow2(n - 1)
  }

  function Min(a: int, b: int): int {
    if a < b then a else b
  }

  predicate Deterministic(kind: ErrorClass) {
    kind.Auth? || kind.Configuration? || kind.OtherDeterministic?
  }

  /** unit << min(streak - 1, 6), clipped at ceiling; streaks below one count as one. */
  function ShiftDelay(streak: int, unit: int, ceiling: int): int {
    var n := if streak < 1 then 1 else streak;
    var shifted := unit * Pow2(Min(n - 1, 6));
    if shifted > ceiling then ceiling else shifted
  }

  function CleanupRetryDelay(streak: int, kind: ErrorClass): int {
    if Deterministic(kind) then HOUR else ShiftDelay(streak, MINUTE, HOUR)
  }

  function FinalizerRetryDelay(streak: int, kind: ErrorClass): int {
    if Deterministic(kind) then MINUTE else ShiftDelay(streak, SECOND, MINUTE)
  }

  lemma {:induction false} Pow2Grows(n: nat)
    requires n >= 6
    ensures Pow2(n) >= 64
  {
    if n == 6 {
      assert Pow2(6) == 2 * Pow2(5) == 4 * Pow2(4) == 8 * Pow2(3) == 16 * Pow2(2) == 32 * Pow2(1) == 64;
    } else {
      Pow2Grows(n - 1);
    }
  }

  /** The shift with its exponent clipped at 6 is the unclipped power of two cut at 60 units. */
  lemma ShiftDelayIsClippedPower(n: nat, unit: nat)
    requires n >= 1
    ensures ShiftDelay(n, unit, 60 * unit) == unit * Min(Pow2(n - 1), 60)
  {
    if n - 1 >= 6 {
      Pow2Grows(n - 1);
      Pow2Grows(6);
      assert unit * Pow2(6) >= unit * 60;
    } else {
      assert Pow2(5) == 2 * Pow2(4) == 4 * Pow2(3) == 8 * Pow2(2) == 16 * Pow2(1) == 32;
      assert Pow2(n - 1) <= 32;
    }
  }

  /** Both schedules, for every class and every streak a row can hold after a failure. */
  lemma DelaysAreClippedPowers(n: nat, kind: ErrorClass)
    requires n >= 1
    ensures CleanupRetryDelay(n, kind) == if Deterministic(kind) then HOUR else MINUTE * Min(Pow2(n - 1), 60)
    ensures FinalizerRetryDelay(n, kind) == if Deterministic(kind) then MINUTE else SECOND * Min(Pow2(n - 1), 60)
    ensures MINUTE * Min(Pow2(n - 1), 60) <= CleanupRetryDelay(n, kind) <= HOUR
    ensures SECOND <= FinalizerRetryDelay(n, kind) <= MINUTE
  {
    ShiftDelayIsClippedPower(n, MINUTE);
    ShiftDelayIsClippedPower(n, SECOND);
    Pow2Positive(n - 1);
  }

  lemma {:induction false} Pow2Positive(n: nat)
    ensures Pow2(n) >= 1
  {
    if n > 0 { Pow2Positive(n - 1); }
  }

  /** Least total wait, in minutes, that n consecutive cleanup failures impose. */
  function FailureWait(n: nat): nat {
    if n == 0 then 0 else FailureWait(n - 1) + Min(Pow2(n - 1), 60)
  }

  lemma {:induction false} FailureWaitClosedForm(n: nat)
    ensures FailureWait(n) == if n <= 6 then Pow2(n) - 1 else 63 + 60 * (n - 6)
  {
    if n > 0 {
      FailureWaitClosedForm(n - 1);
      if n - 1 >= 6 {
        Pow2Grows(n - 1);
        assert Pow2(6) == 64 by {
          assert Pow2(6) == 2 * Pow2(5) == 4 * Pow2(4) == 8 * Pow2(3) == 16 * Pow2(2) == 32 * Pow2(1) == 64;
        }
      } else {
        assert Pow2(5) == 2 * Pow2(4) == 4 * Pow2(3) == 8 * Pow2(2) == 16 * Pow2(1) == 32;
        assert Pow2(n - 1) <= 32;
      }
    }
  }
}
