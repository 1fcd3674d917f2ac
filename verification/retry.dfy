// Retry nodes and the waits between attempts (cloud/resilience/client_executor.go,
// cloud/chain/retry.go).
module RetryPolicies {
  datatype RetryPolicy = RetryPolicy(
    maxRetries: int,
    initialInterval: int,
    multiplier: real,
    maxInterval: int,
    randomizationFactor: real,
    nonIdempotent: bool,
    retryBudget: int)
  {
    /** A count or a pacing; a budget or a safety flag alone is not a schedule. */
    predicate HasSchedule() {
      || maxRetries != 0 || initialInterval != 0 || multiplier != 0.0
      || maxInterval != 0 || randomizationFactor != 0.0
    }
  }

  function EffectiveRetry(policy: RetryPolicy, call: RetryPolicy): (eff: RetryPolicy)
    ensures eff.nonIdempotent <==> policy.nonIdempotent || call.nonIdempotent
    ensures policy.HasSchedule() ==> eff.(nonIdempotent := policy.nonIdempotent) == policy
    ensures !policy.HasSchedule() ==> eff.(nonIdempotent := call.nonIdempotent) == call
  {
    (if policy.HasSchedule() then policy else call).(nonIdempotent := policy.nonIdempotent || call.nonIdempotent)
  }

  /** How many attempts a call may make; not positive when the retry count is negative. */
  function AttemptsOf(policy: RetryPolicy, call: RetryPolicy): (n: int)
    ensures policy.nonIdempotent || call.nonIdempotent ==> n <= 1
    ensures n > 1 || !(policy.nonIdempotent || call.nonIdempotent) ==> n == EffectiveRetry(policy, call).maxRetries + 1
    ensures n <= 0 <==> EffectiveRetry(policy, call).maxRetries < 0
    ensures n <= 0 ==> n == EffectiveRetry(policy, call).maxRetries + 1
  {
    var eff := EffectiveRetry(policy, call);
    if eff.maxRetries + 1 > 1 && eff.nonIdempotent then 1 else eff.maxRetries + 1
  }

  function RealPower(x: real, n: nat): real {
    if n == 0 then 1.0 else RealPower(x, n - 1) * x
  }

  /** The exponential wait before retry i without its cap. */
  function Exponential(p: RetryPolicy, i: nat): real {
    p.initialInterval as real * RealPower(if p.multiplier <= 0.0 then 1.0 else p.multiplier, i)
  }

  /** The cap is looked at only after a multiplication, so never for the first wait. */
  predicate Capped(p: RetryPolicy, attempt: nat) {
    p.maxInterval > 0 && exists i :: 0 < i <= attempt && Exponential(p, i) > p.maxInterval as real
  }

  /** The exponential wait before the retry that follows failure number attempt (from 0). */
  function WaitBefore(p: RetryPolicy, attempt: nat): real {
    if p.initialInterval <= 0 then 0.0
    else if Capped(p, attempt) then p.maxInterval as real
    else Exponential(p, attempt)
  }

  /** The wait with jitter; spread is the draw, between -1 and 1. */
  function Jittered(p: RetryPolicy, wait: real, spread: real): real {
    if p.randomizationFactor > 0.0 then wait + spread * (wait * p.randomizationFactor) else wait
  }

  /** Go's conversion to a whole number of nanoseconds cuts toward zero. */
  function Nanoseconds(wait: real): int {
    if wait < 0.0 then -(-wait).Floor else wait.Floor
  }

  /** Less than a nanosecond is lost, and never the sign. */
  lemma NanosecondsCut(wait: real)
    ensures wait >= 0.0 ==> 0 <= Nanoseconds(wait) && Nanoseconds(wait) as real <= wait < (Nanoseconds(wait) + 1) as real
    ensures wait < 0.0 ==> Nanoseconds(wait) <= 0 && (Nanoseconds(wait) - 1) as real < wait <= Nanoseconds(wait) as real
  {
  }

  lemma WholeNanoseconds(n: int)
    ensures Nanoseconds(n as real) == n
  {
  }

  lemma FirstWait(p: RetryPolicy)
    ensures Exponential(p, 0) == p.initialInterval as real && !Capped(p, 0)
  {
  }

  lemma CapGrows(p: RetryPolicy, i: nat, attempt: nat)
    requires i < attempt && !Capped(p, i)
    ensures p.maxInterval > 0 && Exponential(p, i + 1) > p.maxInterval as real ==> Capped(p, attempt)
    ensures !(p.maxInterval > 0 && Exponential(p, i + 1) > p.maxInterval as real) ==> !Capped(p, i + 1)
  {
    hide Exponential;
  }

  lemma NothingToSpread(p: RetryPolicy, spread: real)
    ensures Jittered(p, 0.0, spread) == 0.0
  {
    assert 0.0 * p.randomizationFactor == 0.0;
  }

  method Backoff(p: RetryPolicy, attempt: nat, spread: real) returns (wait: int)
    ensures wait == Nanoseconds(Jittered(p, WaitBefore(p, attempt), spread))
  {
    hide Exponential, Capped, Nanoseconds;
    if p.initialInterval <= 0 {
      assert WaitBefore(p, attempt) == 0.0 && Nanoseconds(0.0) == 0 by {
        WholeNanoseconds(0);
      }
      NothingToSpread(p, spread);
      return 0;
    }
    var mult := p.multiplier;
    if mult <= 0.0 {
      mult := 1.0;
    }
    var d := p.initialInterval as real;
    FirstWait(p);
    var capped := false;
    for i := 0 to attempt
      invariant !capped && d == Exponential(p, i) && !Capped(p, i)
    {
      NextWait(p, i);
      CapGrows(p, i, attempt);
      d := d * mult;
      if p.maxInterval > 0 && d > p.maxInterval as real {
        d := p.maxInterval as real;
        capped := true;
        break;
      }
    }
    ghost var base := d;
    assert base == WaitBefore(p, attempt);
    if p.randomizationFactor > 0.0 {
      var delta := d * p.randomizationFactor;
      d := d + spread * delta;
    }
    assert d == Jittered(p, base, spread);
    wait := Nanoseconds(d);
  }

  /** Waits never shrink from one failure to the next if the multiplier is at least one. */
  lemma {:induction false} WaitsGrow(p: RetryPolicy, attempt: nat)
    requires p.multiplier >= 1.0 && p.initialInterval > 0
    ensures Exponential(p, attempt) <= Exponential(p, attempt + 1) && Exponential(p, attempt) >= 0.0
  {
    hide Exponential;
    NextWait(p, attempt);
    if attempt > 0 {
      WaitsGrow(p, attempt - 1);
    } else {
      FirstWait(p);
    }
    GrowsBy(Exponential(p, attempt), p.multiplier);
  }

  lemma GrowsBy(x: real, factor: real)
    requires factor >= 1.0
    ensures x >= 0.0 ==> x <= x * factor
  {
  }

  lemma {:induction false} WaitIsNotNegative(p: RetryPolicy, attempt: nat)
    ensures WaitBefore(p, attempt) >= 0.0
  {
    if p.initialInterval > 0 {
      ExponentialIsNotNegative(p, attempt);
    }
  }

  lemma {:induction false} ExponentialIsNotNegative(p: RetryPolicy, i: nat)
    requires p.initialInterval > 0
    ensures Exponential(p, i) >= 0.0
  {
    hide Exponential;
    if i == 0 {
      FirstWait(p);
    } else {
      NextWait(p, i - 1);
      ExponentialIsNotNegative(p, i - 1);
    }
  }

  /** Before jitter, MaxInterval bounds every wait but the first, which is InitialInterval whatever the cap. */
  lemma CapHoldsAfterFirst(p: RetryPolicy, attempt: nat)
    requires p.maxInterval > 0
    ensures WaitBefore(p, attempt) <= p.maxInterval as real <==> attempt > 0 || p.initialInterval <= p.maxInterval
  {
    FirstWait(p);
  }

  /** Whatever is drawn, from -1 up to but not including 1, the wait stays below or at the bound. */
  ghost predicate StaysWithin(p: RetryPolicy, wait: real, bound: real) {
    forall spread: real :: -1.0 <= spread < 1.0 ==> Jittered(p, wait, spread) <= bound
  }

  /** The draw that takes a wait beyond a bound below its largest spread. */
  lemma SpreadBeyond(wait: real, factor: real, bound: real) returns (spread: real)
    requires wait >= 0.0 && factor > 0.0 && wait * (1.0 + factor) > bound
    ensures -1.0 <= spread < 1.0 && wait + spread * (wait * factor) > bound
  {
    var delta := wait * factor;
    assert wait + delta > bound;
    if wait > bound {
      spread := 0.0;
    } else {
      assert delta > 0.0;
      var exact := (bound - wait) / delta;
      assert exact * delta == bound - wait;
      Between(exact, delta, bound - wait);
      spread := (exact + 1.0) / 2.0;
      More(exact, spread, delta);
    }
  }

  lemma Between(x: real, delta: real, gap: real)
    requires x * delta == gap && 0.0 <= gap < delta
    ensures 0.0 <= x < 1.0
  {
  }

  lemma More(x: real, y: real, delta: real)
    requires x < y && delta > 0.0
    ensures x * delta < y * delta
  {
  }

  /** Before it is cut to whole nanoseconds, a wait keeps within a bound exactly if its largest spread does. */
  lemma StaysWithinIff(p: RetryPolicy, wait: real, bound: real)
    requires wait >= 0.0
    ensures StaysWithin(p, wait, bound)
       <==> wait * (1.0 + if p.randomizationFactor > 0.0 then p.randomizationFactor else 0.0) <= bound
  {
    if p.randomizationFactor <= 0.0 {
      assert Jittered(p, wait, 0.0) == wait;
    } else if wait * (1.0 + p.randomizationFactor) <= bound {
      hide Jittered;
      forall spread: real | -1.0 <= spread < 1.0
        ensures Jittered(p, wait, spread) <= bound
      {
        AtMostLargest(p, wait, spread);
      }
    } else {
      var spread := SpreadBeyond(wait, p.randomizationFactor, bound);
      assert Jittered(p, wait, spread) > bound;
    }
  }

  lemma AtMostLargest(p: RetryPolicy, wait: real, spread: real)
    requires wait >= 0.0 && p.randomizationFactor > 0.0 && -1.0 <= spread < 1.0
    ensures Jittered(p, wait, spread) <= wait * (1.0 + p.randomizationFactor)
  {
    BelowLargest(p, wait, spread);
  }

  /**
   * Exactly when MaxInterval bounds the wait after a failure, jitter included: when the
   * wait's largest spread does. The jitter is applied after the cap.
   */
  lemma CapHoldsIff(p: RetryPolicy, attempt: nat)
    requires p.maxInterval > 0
    ensures StaysWithin(p, WaitBefore(p, attempt), p.maxInterval as real)
       <==> WaitBefore(p, attempt) * (1.0 + if p.randomizationFactor > 0.0 then p.randomizationFactor else 0.0)
              <= p.maxInterval as real
    ensures p.initialInterval > 0 && Capped(p, attempt) && p.randomizationFactor > 0.0 ==>
              !StaysWithin(p, WaitBefore(p, attempt), p.maxInterval as real)
  {
    WaitIsNotNegative(p, attempt);
    StaysWithinIff(p, WaitBefore(p, attempt), p.maxInterval as real);
  }

  /** A later wait beyond the cap: 125 where it is 100. */
  lemma JitterExceedsCap()
    ensures var p := RetryPolicy(3, 100, 2.0, 100, 0.5, false, 0);
            Nanoseconds(Jittered(p, WaitBefore(p, 1), 0.5)) == 125 > p.maxInterval
  {
    var p := RetryPolicy(3, 100, 2.0, 100, 0.5, false, 0);
    FirstWait(p);
    NextWait(p, 0);
    assert Capped(p, 1);
  }

  /** The wait as returned, in whole nanoseconds, keeps the cap exactly up to the next nanosecond. */
  lemma ReturnedWaitKeepsCapIff(p: RetryPolicy, attempt: nat)
    requires p.maxInterval > 0
    ensures (forall spread: real :: -1.0 <= spread < 1.0 ==>
               Nanoseconds(Jittered(p, WaitBefore(p, attempt), spread)) <= p.maxInterval)
       <==> if p.randomizationFactor > 0.0
            then WaitBefore(p, attempt) * (1.0 + p.randomizationFactor) <= p.maxInterval as real + 1.0
            else WaitBefore(p, attempt) < p.maxInterval as real + 1.0
  {
    var wait, next := WaitBefore(p, attempt), p.maxInterval as real + 1.0;
    WaitIsNotNegative(p, attempt);
    hide WaitBefore;
    assert forall x: real :: Nanoseconds(x) <= p.maxInterval <==> x < next;
    if p.randomizationFactor <= 0.0 {
      assert Jittered(p, wait, 0.0) == wait;
    } else if wait * (1.0 + p.randomizationFactor) <= next {
      forall spread: real | -1.0 <= spread < 1.0
        ensures Jittered(p, wait, spread) < next
      {
        BelowLargest(p, wait, spread);
      }
    } else {
      var spread := SpreadBeyond(wait, p.randomizationFactor, next);
      assert Jittered(p, wait, spread) > next;
    }
  }

  lemma BelowLargest(p: RetryPolicy, wait: real, spread: real)
    requires wait >= 0.0 && p.randomizationFactor > 0.0 && -1.0 <= spread < 1.0
    ensures wait == 0.0 || Jittered(p, wait, spread) < wait * (1.0 + p.randomizationFactor)
    ensures wait == 0.0 ==> Jittered(p, wait, spread) == 0.0
  {
    var delta := wait * p.randomizationFactor;
    if wait > 0.0 {
      assert delta > 0.0;
      More(spread, 1.0, delta);
    }
  }

  lemma NextWait(p: RetryPolicy, i: nat)
    ensures Exponential(p, i + 1) == Exponential(p, i) * (if p.multiplier <= 0.0 then 1.0 else p.multiplier)
  {
    var mult := if p.multiplier <= 0.0 then 1.0 else p.multiplier;
    Associates(p.initialInterval as real, RealPower(mult, i), mult);
  }

  /** Which nodes declare a schedule: all but those that set no more than the safety flag and the budget. */
  lemma ScheduleIff(p: RetryPolicy)
    ensures p.HasSchedule() <==> p != RetryPolicy(0, 0, 0.0, 0, 0.0, p.nonIdempotent, p.retryBudget)
  {
  }

  /**
   * The waits before jitter in numbers: none without an interval; the first is the interval;
   * each next one is the last times the multiplier, or times one if that is not positive, and
   * once that exceeds a positive cap it is the cap for good.
   */
  lemma {:induction false} WaitsInNumbers(p: RetryPolicy, attempt: nat)
    ensures p.initialInterval <= 0 ==> WaitBefore(p, attempt) == 0.0
    ensures WaitBefore(p, 0) == if p.initialInterval > 0 then p.initialInterval as real else 0.0
    ensures p.initialInterval > 0 ==>
              var next := WaitBefore(p, attempt) * (if p.multiplier > 0.0 then p.multiplier else 1.0);
              WaitBefore(p, attempt + 1)
                == if p.maxInterval > 0 && (Capped(p, attempt) || next > p.maxInterval as real)
                   then p.maxInterval as real else next
  {
    FirstWait(p);
    NextWait(p, attempt);
    CappedStays(p, attempt);
    hide Exponential, Capped;
  }

  lemma CappedStays(p: RetryPolicy, attempt: nat)
    ensures Capped(p, attempt + 1) <==>
              Capped(p, attempt) || (p.maxInterval > 0 && Exponential(p, attempt + 1) > p.maxInterval as real)
    ensures Capped(p, attempt) ==> p.maxInterval > 0
  {
    hide Exponential;
  }

  /** The jitter moves a wait by the drawn share of its randomization factor, up or down. */
  lemma JitterInNumbers(p: RetryPolicy, wait: real, spread: real)
    ensures Jittered(p, wait, spread)
              == wait * (1.0 + (if p.randomizationFactor > 0.0 then spread * p.randomizationFactor else 0.0))
  {
    assert spread * (wait * p.randomizationFactor) == wait * (spread * p.randomizationFactor);
  }

  lemma Associates(x: real, y: real, z: real)
    ensures x * (y * z) == x * y * z
  {
  }
}
