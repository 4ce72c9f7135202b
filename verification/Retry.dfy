/** The worker's exponential backoff. Durations are nanoseconds in an int64, as in Go. */
module Retry {
  import opened Prelude

  const SECOND: int := 1_000_000_000
  const FIVE_MINUTES: int := 300 * 1_000_000_000
  const THIRTY_DAYS: int := 30 * 24 * 3600 * 1_000_000_000

  datatype Backoff = Backoff(initial: Int64, maximum: Int64, maxAttempts: int, jittered: bool)

  function Pow2(n: nat): (p: nat)
    ensures p >= 1
  {
    if n == 0 then 1 else 2 * Pow2(n - 1)
  }

  function Min(a: int, b: int): int {
    if a < b then a else b
  }

  /** A nonpositive setting falls back to a default. */
  function FirstDelay(backoff: Backoff): (d: Int64)
    ensures 0 < d
  {
    if backoff.initial <= 0 then SECOND as Int64 else backoff.initial
  }

  function LargestDelay(backoff: Backoff): (d: Int64)
    ensures 0 < d
  {
    if backoff.maximum <= 0 then FIVE_MINUTES as Int64 else backoff.maximum
  }

  /** The first delay doubled for every attempt after the first, cut off at the largest delay. */
  function BaseDelay(backoff: Backoff, attempt: int): int {
    Min(LargestDelay(backoff) as int, FirstDelay(backoff) as int * Pow2(if attempt <= 0 then 0 else attempt - 1))
  }

  predicate Exhausted(backoff: Backoff, attempt: int) {
    backoff.maxAttempts > 0 && (if attempt <= 0 then 1 else attempt) >= backoff.maxAttempts
  }

  /** The delay before the next attempt, for a given answer of the jitter function; none when attempts are exhausted. */
  function Delay(backoff: Backoff, attempt: int, jitter: Int64): Option<int> {
    if Exhausted(backoff, attempt) then None
    else
      var base := BaseDelay(backoff, attempt);
      var sum := if backoff.jittered then Wrap64(base + jitter as int) else base;
      Some(if sum < 0 || sum > LargestDelay(backoff) as int then LargestDelay(backoff) as int else sum)
  }

  lemma {:induction false} Pow2Monotone(a: nat, b: nat)
    requires a <= b
    ensures Pow2(a) <= Pow2(b)
  {
    if a < b {
      Pow2Monotone(a, b - 1);
    }
  }

  lemma CutOff(first: int, largest: int, steps: nat, total: nat)
    requires first > 0 && steps <= total && first * Pow2(steps) >= largest
    ensures Min(largest, first * Pow2(total)) == largest
  {
    Pow2Monotone(steps, total);
    assert first * Pow2(total) >= first * Pow2(steps) by {
      ScaleMonotone(first, Pow2(steps), Pow2(total));
    }
  }

  lemma ScaleMonotone(k: int, a: int, b: int)
    requires k > 0 && a <= b
    ensures k * a <= k * b
  {
  }

  lemma DoubleStep(first: int, n: nat)
    ensures first * Pow2(n + 1) == 2 * (first * Pow2(n))
  {
    assert Pow2(n + 1) == 2 * Pow2(n);
  }

  /** The doubling loop of `Backoff.Delay`; no product overflows an int64 on the way. */
  method Grow(first: Int64, maximum: Int64, tries: Int64) returns (delay: Int64)
    requires first > 0 && maximum > 0 && tries >= 1
    ensures delay as int == Min(maximum as int, first as int * Pow2(tries as int - 1))
    ensures 0 <= delay <= maximum
  {
    delay := first;
    var step: Int64 := 1;
    while step < tries && delay < maximum
      invariant 1 <= step <= tries
      invariant delay as int == first as int * Pow2(step as int - 1)
      decreases tries - step
    {
      DoubleStep(first as int, step as int - 1);
      if delay > maximum / 2 {
        CutOff(first as int, maximum as int, step as int, tries as int - 1);
        return maximum;
      }
      delay := delay * 2;
      step := step + 1;
    }
    if delay >= maximum {
      CutOff(first as int, maximum as int, step as int - 1, tries as int - 1);
      delay := maximum;
    }
    ScaleMonotone(first as int, 0, Pow2(tries as int - 1));
  }

  /** The `+` of Go on int64 values. */
  function AddInt64(a: Int64, b: Int64): (r: Int64)
    ensures r as int == Wrap64(a as int + b as int)
  {
    Wrap64(a as int + b as int) as Int64
  }

  /** `Backoff.Delay`. The sum with the jitter may overflow, and is then clamped. */
  method ComputeDelay(backoff: Backoff, attempt: Int64, jitter: Int64) returns (delay: Int64, retry: bool)
    ensures Delay(backoff, attempt as int, jitter) == if retry then Some(delay as int) else None
    ensures !retry ==> delay == 0
  {
    var tries := if attempt <= 0 then 1 else attempt;
    if backoff.maxAttempts > 0 && tries as int >= backoff.maxAttempts {
      return 0, false;
    }
    var first := FirstDelay(backoff);
    var maximum := LargestDelay(backoff);
    delay := Grow(first, maximum, tries);
    if backoff.jittered {
      delay := AddInt64(delay, jitter);
    }
    if delay < 0 || delay > maximum {
      delay := maximum;
    }
    retry := true;
  }

  /** Whatever the jitter answers, a granted delay lies between zero and the largest delay. */
  lemma DelayBounded(backoff: Backoff, attempt: int, jitter: Int64)
    requires Delay(backoff, attempt, jitter).Some?
    ensures 0 <= Delay(backoff, attempt, jitter).value <= LargestDelay(backoff) as int
  {
  }

  /** Without jitter and with positive settings the delay is the doubled initial delay, cut off at the maximum. */
  lemma DelayWithoutJitter(backoff: Backoff, attempt: nat, jitter: Int64)
    requires !backoff.jittered && backoff.initial > 0 && backoff.maximum > 0
    requires attempt > 0 && !Exhausted(backoff, attempt)
    ensures Delay(backoff, attempt, jitter)
         == Some(Min(backoff.maximum as int, backoff.initial as int * Pow2(attempt - 1)))
  {
    ScaleMonotone(backoff.initial as int, 0, Pow2(attempt - 1));
  }

  /** The defaults are one second and five minutes, and the doubled delay is cut off at the maximum. */
  lemma BaseExactly(backoff: Backoff, attempt: int)
    ensures var tries := if attempt <= 0 then 1 else attempt;
            var first := if backoff.initial <= 0 then 1_000_000_000 else backoff.initial as int;
            var maximum := if backoff.maximum <= 0 then 300_000_000_000 else backoff.maximum as int;
            && LargestDelay(backoff) as int == maximum && 0 <= BaseDelay(backoff, attempt) <= maximum
            && BaseDelay(backoff, attempt)
               == if first * Pow2(tries - 1) > maximum then maximum else first * Pow2(tries - 1)
  {
    var tries := if attempt <= 0 then 1 else attempt;
    ScaleMonotone(FirstDelay(backoff) as int, 0, Pow2(tries - 1));
  }

  /** A sum that leaves the int64 range is out of bounds after wrapping as well. */
  lemma SumClamped(base: int, maximum: Int64, jitter: Int64)
    requires 0 <= base <= maximum as int
    ensures var sum, wrapped := base + jitter as int, Wrap64(base + jitter as int);
            (if wrapped < 0 || wrapped > maximum as int then maximum as int else wrapped)
            == if 0 <= sum <= maximum as int then sum else maximum as int
  {
  }

  /**
   The delay in full: the jitter is added to the cut off base, and a sum outside of zero to the
   maximum, overflow included, becomes the maximum.
   */
  lemma DelayExactly(backoff: Backoff, attempt: int, jitter: Int64)
    ensures var tries := if attempt <= 0 then 1 else attempt;
            var first := if backoff.initial <= 0 then 1_000_000_000 else backoff.initial as int;
            var maximum := if backoff.maximum <= 0 then 300_000_000_000 else backoff.maximum as int;
            var base := if first * Pow2(tries - 1) > maximum then maximum else first * Pow2(tries - 1);
            var sum := if backoff.jittered then base + jitter as int else base;
            Delay(backoff, attempt, jitter)
            == if backoff.maxAttempts > 0 && tries >= backoff.maxAttempts then None
               else Some(if 0 <= sum <= maximum then sum else maximum)
  {
    hide BaseDelay, FirstDelay, LargestDelay, Pow2, Wrap64;
    BaseExactly(backoff, attempt);
    SumClamped(BaseDelay(backoff, attempt), LargestDelay(backoff), jitter);
  }

  /** Without jitter and without a limit, every attempt doubles the delay of the one before, up to the maximum. */
  lemma DelayDoubles(backoff: Backoff, attempt: nat, jitter: Int64)
    requires !backoff.jittered && backoff.maxAttempts <= 0 && 0 < backoff.initial <= backoff.maximum && attempt > 0
    ensures Delay(backoff, 1, jitter) == Some(backoff.initial as int)
    ensures var now, next := Delay(backoff, attempt, jitter), Delay(backoff, attempt + 1, jitter);
            && now.Some?
            && next == Some(if 2 * now.value > backoff.maximum as int then backoff.maximum as int else 2 * now.value)
  {
    DelayExactly(backoff, attempt, jitter);
    DelayExactly(backoff, attempt + 1, jitter);
    DoubleStep(backoff.initial as int, attempt - 1);
  }

  /** Delays never shrink from one attempt to the next, without jitter. */
  lemma DelayMonotone(backoff: Backoff, a: nat, b: nat, jitter: Int64)
    requires !backoff.jittered && 0 < a <= b && !Exhausted(backoff, b)
    ensures !Exhausted(backoff, a)
    ensures Delay(backoff, a, jitter).value <= Delay(backoff, b, jitter).value
  {
    Pow2Monotone(a - 1, b - 1);
    ScaleMonotone(FirstDelay(backoff) as int, Pow2(a - 1), Pow2(b - 1));
    ScaleMonotone(FirstDelay(backoff) as int, 0, Pow2(a - 1));
  }

  /** `worker.delay`: the configured maximum, as it is, once attempts are exhausted. */
  function PollDelay(backoff: Backoff, attempt: int, jitter: Int64): int {
    match Delay(backoff, attempt, jitter)
    case Some(d) => d
    case None => backoff.maximum as int
  }

  /** `validDelay` of the store. */
  predicate ValidDelay(delay: int) {
    0 <= delay <= THIRTY_DAYS
  }

  /** The store takes delays from zero to thirty days. */
  lemma LongestDelay(delay: int)
    ensures ValidDelay(delay) <==> 0 <= delay <= 2_592_000 * 1_000_000_000
  {
  }

  /** Settings under which every delay the worker hands to the store is a valid one. */
  predicate SoundSettings(backoff: Backoff) {
    && LargestDelay(backoff) as int <= THIRTY_DAYS
    && (backoff.maxAttempts > 0 ==> backoff.maximum >= 0)
  }

  lemma {:induction false} Pow2Exceeds(n: nat)
    ensures Pow2(n) > n
  {
    if n > 0 {
      Pow2Exceeds(n - 1);
    }
  }

  /** Without a limit on attempts the delay grows to the largest one, with or without jitter. */
  lemma LargestDelayOccurs(backoff: Backoff)
    requires backoff.maxAttempts <= 0
    ensures BaseDelay(backoff, LargestDelay(backoff) as int + 1) == LargestDelay(backoff) as int
  {
    var largest := LargestDelay(backoff) as int;
    Pow2Exceeds(largest);
    ScaleMonotone(Pow2(largest), 1, FirstDelay(backoff) as int);
    assert FirstDelay(backoff) as int * Pow2(largest) >= largest;
  }

  /** The settings are sound exactly when no attempt and no jitter produce a delay the store refuses. */
  lemma SoundSettingsExact(backoff: Backoff)
    ensures SoundSettings(backoff) <==>
            forall attempt: nat, jitter: Int64 :: ValidDelay(PollDelay(backoff, attempt, jitter))
  {
    if SoundSettings(backoff) {
      forall attempt: nat, jitter: Int64
        ensures ValidDelay(PollDelay(backoff, attempt, jitter))
      {
        if Delay(backoff, attempt, jitter).Some? {
          DelayBounded(backoff, attempt, jitter);
        }
      }
    } else if backoff.maxAttempts > 0 {
      assert Exhausted(backoff, backoff.maxAttempts);
      assert !ValidDelay(PollDelay(backoff, backoff.maxAttempts, 0));
    } else {
      var attempt := LargestDelay(backoff) as int + 1;
      LargestDelayOccurs(backoff);
      assert PollDelay(backoff, attempt, 0) == LargestDelay(backoff) as int;
      assert !ValidDelay(PollDelay(backoff, attempt, 0));
    }
  }
}
