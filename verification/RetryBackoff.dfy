/** The retry schedule of app/processing/worker.ts, over reals where JavaScript uses doubles. */
module RetryBackoff {
  /** A JavaScript number, as far as clampRandomUnit tells numbers apart. */
  datatype Number = Finite(r: real) | NotFinite

  const RETRY_JITTER_RATIO := 0.2

  /** DEFAULT_BACKOFF_MS_BY_NEXT_ATTEMPT, with its fallback. */
  function BaseDelayMs(nextAttempt: int): int {
    if nextAttempt == 2 then 30_000
    else if nextAttempt == 3 then 120_000
    else 480_000
  }

  function ClampRandomUnit(value: Number): real {
    match value
    case NotFinite => 0.5
    case Finite(r) => if r <= 0.0 then 0.0 else if r >= 1.0 then 1.0 else r
  }

  /** Math.round: to the nearest integer, halves upwards. */
  function Round(x: real): int {
    (x + 0.5).Floor
  }

  function RetryDelayMs(currentAttempts: int, random: Number): int {
    var base := BaseDelayMs(currentAttempts + 1) as real;
    var jitter := 1.0 + (ClampRandomUnit(random) * 2.0 - 1.0) * RETRY_JITTER_RATIO;
    var delay := Round(base * jitter);
    if delay < 1000 then 1000 else delay
  }

  /** Whatever the random source returns, the delay lies within a fifth of the base delay. */
  lemma DelayWithinJitter(currentAttempts: int, random: Number)
    ensures 5 * RetryDelayMs(currentAttempts, random) >= 4 * BaseDelayMs(currentAttempts + 1)
    ensures 5 * RetryDelayMs(currentAttempts, random) <= 6 * BaseDelayMs(currentAttempts + 1)
  {
    var u := ClampRandomUnit(random);
    var jitter := 1.0 + (u * 2.0 - 1.0) * RETRY_JITTER_RATIO;
    assert 0.8 <= jitter <= 1.2;
    var base := BaseDelayMs(currentAttempts + 1) as real;
    assert base * 0.8 <= base * jitter <= base * 1.2;
  }

  /** The three delays of a job with four attempts: disjoint, increasing, and bounded in total. */
  lemma BackoffSchedule(first: Number, second: Number, third: Number)
    ensures var a, b, c := RetryDelayMs(1, first), RetryDelayMs(2, second), RetryDelayMs(3, third);
            && 24_000 <= a <= 36_000 && 96_000 <= b <= 144_000 && 384_000 <= c <= 576_000
            && 504_000 <= a + b + c <= 756_000
  {
    DelayWithinJitter(1, first);
    DelayWithinJitter(2, second);
    DelayWithinJitter(3, third);
  }

  /** A jitter that leaves a whole number of milliseconds is not rounded. */
  lemma ExactDelay(currentAttempts: int, random: Number, delay: int)
    requires delay >= 1000
    requires BaseDelayMs(currentAttempts + 1) as real * (0.8 + 0.4 * ClampRandomUnit(random)) == delay as real
    ensures RetryDelayMs(currentAttempts, random) == delay
  {
    var u, base := ClampRandomUnit(random), BaseDelayMs(currentAttempts + 1) as real;
    assert 1.0 + (u * 2.0 - 1.0) * RETRY_JITTER_RATIO == 0.8 + 0.4 * u;
    assert Round(delay as real) == delay;
  }

  /** The ends of the total are reached, so the bounds cannot be tightened. */
  lemma BackoffBoundsAreReached()
    ensures RetryDelayMs(1, Finite(0.0)) + RetryDelayMs(2, Finite(0.0)) + RetryDelayMs(3, Finite(0.0)) == 504_000
    ensures RetryDelayMs(1, Finite(1.0)) + RetryDelayMs(2, Finite(1.0)) + RetryDelayMs(3, Finite(1.0)) == 756_000
    ensures RetryDelayMs(1, NotFinite) + RetryDelayMs(2, NotFinite) + RetryDelayMs(3, NotFinite) == 630_000
  {
    ExactDelay(1, Finite(0.0), 24_000);
    ExactDelay(2, Finite(0.0), 96_000);
    ExactDelay(3, Finite(0.0), 384_000);
    ExactDelay(1, Finite(1.0), 36_000);
    ExactDelay(2, Finite(1.0), 144_000);
    ExactDelay(3, Finite(1.0), 576_000);
    ExactDelay(1, NotFinite, 30_000);
    ExactDelay(2, NotFinite, 120_000);
    ExactDelay(3, NotFinite, 480_000);
  }
}
