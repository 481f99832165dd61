/** The retry delays of the inbox and outbox workers (internal/worker/inbox.go, boundedBackoff). */
module Backoff {
  datatype Backoffs = Backoffs(base: int, maximum: int)

  function Delay(attempt: nat, delay: int, maximum: int): int {
    if attempt > 1 && delay < maximum / 2 then Delay(attempt - 1, delay * 2, maximum)
    else if delay > maximum then maximum else delay
  }

  method BoundedBackoff(attempt: nat, base: int, maximum: int) returns (delay: int)
    requires base > 0 && maximum > 0
    ensures delay == Delay(attempt, base, maximum)
  {
    delay := base;
    var index := 1;
    while index < attempt && delay < maximum / 2
      invariant delay > 0 && index >= 1
      invariant Delay(if attempt >= index then attempt - index + 1 else 1, delay, maximum) ==
                Delay(attempt, base, maximum)
    {
      delay := delay * 2;
      index := index + 1;
    }
    if delay > maximum {
      return maximum;
    }
  }

  /** The delay stays between its base and the maximum, and never shrinks as attempts go on. */
  lemma {:induction false} BackoffGrowsWithinBounds(attempt: nat, base: int, maximum: int)
    requires 0 < base <= maximum
    ensures base <= Delay(attempt, base, maximum) <= maximum
    ensures Delay(attempt, base, maximum) <= Delay(attempt + 1, base, maximum)
    ensures attempt >= 1 && Delay(attempt + 1, base, maximum) == Delay(attempt, base, maximum) ==>
              Delay(attempt, base, maximum) >= maximum / 2
    decreases attempt
  {
    if attempt > 1 && base < maximum / 2 {
      BackoffGrowsWithinBounds(attempt - 1, base * 2, maximum);
    }
  }

  function Doubled(base: int, times: nat): int {
    if times == 0 then base else 2 * Doubled(base, times - 1)
  }

  /** So many doublings, one for each attempt after the first, up to the first that reaches half the maximum. */
  ghost predicate Stops(attempt: nat, base: int, maximum: int, times: nat) {
    (attempt <= 1 ==> times == 0) && (attempt > 1 ==> times <= attempt - 1) &&
    (forall k: nat :: k < times ==> Doubled(base, k) < maximum / 2) &&
    (attempt > 1 && times < attempt - 1 ==> Doubled(base, times) >= maximum / 2)
  }

  lemma {:induction false} DoubledFirst(base: int, times: nat)
    ensures Doubled(2 * base, times) == Doubled(base, times + 1)
  {
    if times > 0 {
      DoubledFirst(base, times - 1);
    }
  }

  /** Each further attempt doubles the delay until it reaches half the maximum, and it is never above the maximum. */
  lemma {:induction false} DelayIsDoubled(attempt: nat, base: int, maximum: int) returns (times: nat)
    ensures Stops(attempt, base, maximum, times)
    ensures Delay(attempt, base, maximum) ==
            if Doubled(base, times) > maximum then maximum else Doubled(base, times)
  {
    times := 0;
    if attempt > 1 && base < maximum / 2 {
      var further := DelayIsDoubled(attempt - 1, base * 2, maximum);
      times := further + 1;
      DoubledFirst(base, further);
      forall k: nat | k < times ensures Doubled(base, k) < maximum / 2 {
        if k > 0 {
          DoubledFirst(base, k - 1);
        }
      }
    }
  }
}
