// Token and leaky buckets (cloud/ratelimit/token_bucket.go, leaky_bucket.go).
//
// Instants are integer nanoseconds and amounts are reals, so rounding is out of the
// picture. The constant-space token bucket is proved to decide by the full history of
// calls, and the leaky bucket to answer exactly as the token bucket does.
module Buckets {

  const NANOS_PER_SECOND: int := 1_000_000_000

  /** What a rate of `rate` per second yields between two instants. */
  function Earned(rate: real, from: int, to: int): real {
    (to - from) as real / NANOS_PER_SECOND as real * rate
  }

  /** A rate is per second, and a second has a thousand million nanoseconds. */
  lemma EarnedIsPerSecond(rate: real, from: int, to: int)
    ensures Earned(rate, from, to) * 1_000_000_000.0 == (to - from) as real * rate
  {
    var seconds := (to - from) as real / 1_000_000_000.0;
    assert seconds * 1_000_000_000.0 == (to - from) as real;
    assert Earned(rate, from, to) == seconds * rate;
    assert (seconds * rate) * 1_000_000_000.0 == (seconds * 1_000_000_000.0) * rate;
  }

  lemma EarnedAdds(rate: real, a: int, b: int, c: int)
    ensures Earned(rate, a, b) + Earned(rate, b, c) == Earned(rate, a, c)
    ensures Earned(rate, a, a) == 0.0
  {
    var s := NANOS_PER_SECOND as real;
    assert (b - a) as real / s + (c - b) as real / s == (c - a) as real / s;
  }

  lemma EarnedMonotone(rate: real, a: int, b: int, c: int)
    requires rate >= 0.0 && b <= c
    ensures Earned(rate, a, b) <= Earned(rate, a, c)
  {
    var s := NANOS_PER_SECOND as real;
    var x, y := (b - a) as real / s, (c - a) as real / s;
    assert x <= y;
    MulMonotone(x, y, rate);
  }

  lemma MulMonotone(x: real, y: real, r: real)
    requires x <= y && r >= 0.0
    ensures x * r <= y * r
  {
    assert (y - x) * r >= 0.0;
  }

  // ---- Token bucket -------------------------------------------------------

  datatype Tokens = Tokens(
    rate: real,
    burst: real,
    tokens: real,
    last: int,
    warmup: int,    // warmup <= 0 disables the ramp
    cold: real,     // capacity at the start of the ramp
    started: int)

  function NewTokens(rate: real, burst: int, now: int): Tokens {
    Tokens(rate, burst as real, burst as real, now, 0, 0.0, 0)
  }

  function WarmedUp(b: Tokens, warmup: int, coldFactor: int, now: int): Tokens {
    if warmup <= 0 then b
    else
      var factor := if coldFactor <= 1 then 3 else coldFactor;
      var cold := b.burst / factor as real;
      b.(warmup := warmup, cold := cold, tokens := cold, started := now)
  }

  /** The capacity at an instant: the full burst, or the ramped-in ceiling during warm-up. */
  function CapAt(b: Tokens, now: int): real {
    if b.warmup <= 0 || now - b.started >= b.warmup then b.burst
    else b.cold + (b.burst - b.cold) * ((now - b.started) as real / b.warmup as real)
  }

  function Min(x: real, y: real): real {
    if x > y then y else x
  }

  /** One request; the capacity is looked up with a second reading of the clock. */
  datatype Call = Call(now: int, later: int, n: real)

  function Refilled(b: Tokens, c: Call): Tokens {
    b.(tokens := Min(b.tokens + Earned(b.rate, b.last, c.now), CapAt(b, c.later)), last := c.now)
  }

  predicate Grants(b: Tokens, c: Call) {
    Refilled(b, c).tokens >= c.n
  }

  function Charged(b: Tokens, c: Call): Tokens {
    var r := Refilled(b, c);
    if r.tokens >= c.n then r.(tokens := r.tokens - c.n) else r
  }

  function Run(b: Tokens, calls: seq<Call>): Tokens {
    if calls == [] then b
    else
      Charged(Run(b, calls[..|calls| - 1]), calls[|calls| - 1])
  }

  /** The answer call j gets when the calls are made in order. */
  predicate Answer(b: Tokens, calls: seq<Call>, j: nat)
    requires j < |calls|
  {
    Grants(Run(b, calls[..j]), calls[j])
  }

  lemma RunNothing(b: Tokens)
    ensures Run(b, []) == b
  {
  }

  lemma CapSteady(b: Tokens, b': Tokens, now: int)
    requires b' == b.(tokens := b'.tokens, last := b'.last)
    ensures CapAt(b', now) == CapAt(b, now)
  {
  }

  function Truncated(x: real): int {
    if x < 0.0 then -(-x).Floor else x.Floor
  }

  /** A conversion to int64 drops the fraction, towards zero. */
  lemma TruncatedTowardsZero(x: real)
    ensures x >= 0.0 ==> 0 <= Truncated(x) && 0.0 <= x - Truncated(x) as real < 1.0
    ensures x < 0.0 ==> Truncated(x) <= 0 && -1.0 < x - Truncated(x) as real <= 0.0
  {
  }

  /** How many nanoseconds the rate takes to earn an amount; without a rate, what converting an infinite float yields. */
  function TimeToEarn(rate: real, amount: real, infinite: int): int {
    if rate == 0.0 then infinite else Truncated(amount / rate * NANOS_PER_SECOND as real)
  }

  /** After that time the amount has been earned up to the last nanosecond, and a nanosecond later all of it. */
  lemma {:induction false} TimeToEarnIsEnough(rate: real, amount: real, infinite: int, from: int)
    requires rate > 0.0 && amount >= 0.0
    ensures var wait := TimeToEarn(rate, amount, infinite);
            wait >= 0 && Earned(rate, from, from + wait) <= amount < Earned(rate, from, from + wait + 1)
  {
    var exact := amount / rate * 1_000_000_000.0;
    Quotient(amount, rate);
    EarnedIn(rate, from, exact.Floor);
    EarnedIn(rate, from, exact.Floor + 1);
    BetweenWholes(rate, amount, exact);
    hide Earned;
  }

  lemma Quotient(amount: real, rate: real)
    requires rate > 0.0 && amount >= 0.0
    ensures amount / rate >= 0.0
    ensures (amount / rate * 1_000_000_000.0) * rate == amount * 1_000_000_000.0
  {
    var q := amount / rate;
    assert q * rate == amount;
    assert (q * 1_000_000_000.0) * rate == (q * rate) * 1_000_000_000.0;
  }

  lemma BetweenWholes(rate: real, amount: real, exact: real)
    requires rate > 0.0 && exact * rate == amount * 1_000_000_000.0
    ensures exact.Floor as real * rate <= amount * 1_000_000_000.0 < (exact.Floor + 1) as real * rate
  {
    Between(rate, amount * 1_000_000_000.0, exact, exact.Floor as real, (exact.Floor + 1) as real);
  }

  lemma Between(rate: real, scaled: real, exact: real, low: real, high: real)
    requires rate > 0.0 && exact * rate == scaled && low <= exact < high
    ensures low * rate <= scaled < high * rate
  {
    MulMonotone(low, exact, rate);
    MulLess(exact, high, rate);
  }

  lemma EarnedIn(rate: real, from: int, nanos: int)
    ensures Earned(rate, from, from + nanos) * 1_000_000_000.0 == nanos as real * rate
  {
    EarnedIsPerSecond(rate, from, from + nanos);
    assert from + nanos - from == nanos;
  }

  lemma MulLess(x: real, y: real, r: real)
    requires x < y && r > 0.0
    ensures x * r < y * r
  {
  }

  lemma OneMoreCall(b: Tokens, calls: seq<Call>, c: Call)
    ensures Run(b, calls + [c]) == Charged(Run(b, calls), c)
    ensures Answer(b, calls + [c], |calls|) <==> Grants(Run(b, calls), c)
    ensures forall k :: 0 <= k < |calls| ==> (Answer(b, calls + [c], k) <==> Answer(b, calls, k))
  {
    var more := calls + [c];
    assert more[..|calls|] == calls;
    assert forall k :: 0 <= k < |calls| ==> more[..k] == calls[..k];
  }

  /** After attempt i, what is missing is earned before the deadline. */
  ghost predicate WorthWaiting(b: Tokens, calls: seq<Call>, i: nat, deadline: int, infinite: int)
    requires i < |calls|
  {
    calls[i].now + TimeToEarn(b.rate, calls[i].n - Run(b, calls[..i + 1]).tokens, infinite) <= deadline
  }

  lemma {:induction false} EarlierWaits(b: Tokens, calls: seq<Call>, c: Call, deadline: int, infinite: int)
    ensures forall k :: 0 <= k < |calls| ==>
              (WorthWaiting(b, calls + [c], k, deadline, infinite) <==> WorthWaiting(b, calls, k, deadline, infinite))
    ensures WorthWaiting(b, calls + [c], |calls|, deadline, infinite) <==>
              c.now + TimeToEarn(b.rate, c.n - Run(b, calls + [c]).tokens, infinite) <= deadline
  {
    hide Run, TimeToEarn;
    var more := calls + [c];
    assert more[..|more|] == more;
    forall k | 0 <= k < |calls|
      ensures WorthWaiting(b, more, k, deadline, infinite) <==> WorthWaiting(b, calls, k, deadline, infinite)
    {
      assert more[..k + 1] == calls[..k + 1];
    }
  }

  class TokenBucket {
    var rate: real
    var burst: real
    var tokens: real
    var last: int
    var warmup: int
    var cold: real
    var started: int

    function Abs(): Tokens
      reads this
    {
      Tokens(rate, burst, tokens, last, warmup, cold, started)
    }

    constructor (rate: real, burst: int, now: int)
      ensures Abs() == NewTokens(rate, burst, now)
    {
      this.rate, this.burst, this.tokens, this.last := rate, burst as real, burst as real, now;
      warmup, cold, started := 0, 0.0, 0;
    }

    method WithWarmUp(warmup: int, coldFactor: int, now: int)
      modifies this
      ensures Abs() == WarmedUp(old(Abs()), warmup, coldFactor, now)
    {
      if warmup <= 0 {
        return;
      }
      var factor := coldFactor;
      if factor <= 1 {
        factor := 3;
      }
      this.warmup := warmup;
      cold := burst / factor as real;
      tokens := cold;
      started := now;
    }

    method Cap(now: int) returns (c: real)
      ensures c == CapAt(Abs(), now)
    {
      if warmup <= 0 {
        return burst;
      }
      var elapsed := now - started;
      if elapsed >= warmup {
        return burst;
      }
      var progress := elapsed as real / warmup as real;
      return cold + (burst - cold) * progress;
    }

    method AllowN(now: int, later: int, n: real) returns (ok: bool)
      modifies this
      ensures Abs() == Charged(old(Abs()), Call(now, later, n))
      ensures ok <==> Grants(old(Abs()), Call(now, later, n))
    {
      tokens := tokens + Earned(rate, last, now);
      var ceiling := Cap(later);
      if tokens > ceiling {
        tokens := ceiling;
      }
      last := now;
      if tokens < n {
        return false;
      }
      tokens := tokens - n;
      return true;
    }

    /**
     * The queueing form. wakes holds the clock readings of the loop's iterations, two each;
     * the context ends when they run out. However it returns, the call is a run of AllowN's
     * of which only the last can be granted, so the history rule below covers it too.
     */
    method WaitN(wakes: seq<(int, int)>, n: real, deadline: int, maxWait: int, infinite: int)
      returns (ok: bool, ghost tries: seq<Call>)
      requires wakes != []
      modifies this
      ensures Abs() == Run(old(Abs()), tries)
      ensures |tries| <= |wakes| && forall i :: 0 <= i < |tries| ==> tries[i] == Call(wakes[i].0, wakes[i].1, n)
      ensures ok <==> tries != [] && Answer(old(Abs()), tries, |tries| - 1)
      ensures forall i :: 0 <= i < |tries| - 1 ==> !Answer(old(Abs()), tries, i)
      ensures maxWait <= 0 ==> |tries| == 1
      ensures forall i :: 0 <= i < |tries| - 1 ==> WorthWaiting(old(Abs()), tries, i, deadline, infinite)
      ensures !ok && maxWait > 0 && |tries| < |wakes| ==>
                tries != [] && wakes[|tries| - 1].0 + TimeToEarn(rate, n - tokens, infinite) > deadline
    {
      ghost var b := Abs();
      hide Run, Answer, CapAt, Earned, TimeToEarn, WorthWaiting;
      if maxWait <= 0 {
        tries := [Call(wakes[0].0, wakes[0].1, n)];
        OneMoreCall(b, [], tries[0]);
        assert [] + [tries[0]] == tries;
        RunNothing(b);
        ok := AllowN(wakes[0].0, wakes[0].1, n);
        return;
      }
      tries := [];
      RunNothing(b);
      var i := 0;
      while i < |wakes|
        invariant 0 <= i == |tries| <= |wakes|
        invariant rate == old(rate)
        invariant Abs() == Run(b, tries)
        invariant forall k :: 0 <= k < i ==> tries[k] == Call(wakes[k].0, wakes[k].1, n)
        invariant forall k :: 0 <= k < i ==> !Answer(b, tries, k)
        invariant forall k :: 0 <= k < i ==> WorthWaiting(b, tries, k, deadline, infinite)
      {
        var now, later := wakes[i].0, wakes[i].1;
        ghost var before := tries;
        tries := before + [Call(now, later, n)];
        OneMoreCall(b, before, Call(now, later, n));
        EarlierWaits(b, before, Call(now, later, n), deadline, infinite);
        tokens := tokens + Earned(rate, last, now);
        var ceiling := Cap(later);
        CapSteady(Run(b, before), Abs(), later);
        if tokens > ceiling {
          tokens := ceiling;
        }
        last := now;
        if tokens >= n {
          tokens := tokens - n;
          return true, tries;
        }
        if now + TimeToEarn(rate, n - tokens, infinite) > deadline {
          return false, tries;
        }
        i := i + 1;
      }
      ok := false;
    }
  }

  // ---- The history rule ---------------------------------------------------

  /** Refill point 0 is the construction, point i > 0 is the refill of call i - 1. */
  function PointTime(b: Tokens, calls: seq<Call>, i: nat): int
    requires i <= |calls|
  {
    if i == 0 then b.last else calls[i - 1].now
  }

  function PointLevel(b: Tokens, calls: seq<Call>, i: nat): real
    requires i <= |calls|
  {
    if i == 0 then b.tokens else CapAt(b, calls[i - 1].later)
  }

  /** The amount granted by the calls from index i up to, but not including, j. */
  function Granted(b: Tokens, calls: seq<Call>, i: nat, j: nat): real
    requires j <= |calls|
  {
    if j <= i then 0.0
    else Granted(b, calls, i, j - 1) + (if Answer(b, calls, j - 1) then calls[j - 1].n else 0.0)
  }

  function FirstCallAfter(i: nat): nat {
    if i == 0 then 0 else i - 1
  }

  /** What refill point i leaves for call j: its level, plus what was earned since, less what was granted since. */
  function Headroom(b: Tokens, calls: seq<Call>, i: nat, j: nat): real
    requires i <= j + 1 && j < |calls|
  {
    PointLevel(b, calls, i) + Earned(b.rate, PointTime(b, calls, i), calls[j].now)
      - Granted(b, calls, FirstCallAfter(i), j)
  }

  lemma {:induction false} RunKeepsConfig(b: Tokens, calls: seq<Call>)
    ensures var r := Run(b, calls);
            && r.rate == b.rate && r.burst == b.burst && r.warmup == b.warmup
            && r.cold == b.cold && r.started == b.started
    ensures calls != [] ==> Run(b, calls).last == calls[|calls| - 1].now
    ensures forall now :: CapAt(Run(b, calls), now) == CapAt(b, now)
  {
    if calls != [] {
      RunKeepsConfig(b, calls[..|calls| - 1]);
    }
  }

  lemma HeadroomMoves(b: Tokens, calls: seq<Call>, i: nat, j: nat)
    requires 0 < j < |calls| && i <= j
    ensures Headroom(b, calls, i, j)
         == Headroom(b, calls, i, j - 1) + Earned(b.rate, calls[j - 1].now, calls[j].now)
            - (if Answer(b, calls, j - 1) then calls[j - 1].n else 0.0)
  {
    hide Earned, Answer;
    EarnedAdds(b.rate, PointTime(b, calls, i), calls[j - 1].now, calls[j].now);
  }

  lemma NewestHeadroom(b: Tokens, calls: seq<Call>, j: nat)
    requires j < |calls|
    ensures Headroom(b, calls, j + 1, j) == CapAt(b, calls[j].later)
  {
    EarnedAdds(b.rate, calls[j].now, calls[j].now, calls[j].now);
  }

  function RefillFor(b: Tokens, calls: seq<Call>, j: nat): real
    requires j < |calls|
  {
    Refilled(Run(b, calls[..j]), calls[j]).tokens
  }

  lemma RefillStep(b: Tokens, calls: seq<Call>, j: nat)
    requires 0 < j < |calls|
    ensures RefillFor(b, calls, j)
         == Min(RefillFor(b, calls, j - 1) - (if Answer(b, calls, j - 1) then calls[j - 1].n else 0.0)
                  + Earned(b.rate, calls[j - 1].now, calls[j].now),
                CapAt(b, calls[j].later))
  {
    assert calls[..j][..j - 1] == calls[..j - 1];
    RunKeepsConfig(b, calls[..j]);
    RunKeepsConfig(b, calls[..j - 1]);
    hide CapAt, Earned, Min;
  }

  /** After its refill for call j the bucket holds exactly the smallest headroom over all refill points. */
  lemma {:induction false} TokensAreSmallestHeadroom(b: Tokens, calls: seq<Call>, j: nat)
    requires j < |calls|
    ensures forall i :: 0 <= i <= j + 1 ==> RefillFor(b, calls, j) <= Headroom(b, calls, i, j)
    ensures exists i :: 0 <= i <= j + 1 && RefillFor(b, calls, j) == Headroom(b, calls, i, j)
  {
    NewestHeadroom(b, calls, j);
    if j == 0 {
      assert calls[..0] == [];
      assert RefillFor(b, calls, 0) == Min(b.tokens + Earned(b.rate, b.last, calls[0].now), CapAt(b, calls[0].later));
      hide Earned, CapAt, RefillFor;
      assert Headroom(b, calls, 0, 0) == b.tokens + Earned(b.rate, b.last, calls[0].now);
    } else {
      hide Earned, CapAt, Headroom, RefillFor, Answer;
      TokensAreSmallestHeadroom(b, calls, j - 1);
      RefillStep(b, calls, j);
      forall i | 0 <= i <= j
        ensures RefillFor(b, calls, j) <= Headroom(b, calls, i, j)
      {
        HeadroomMoves(b, calls, i, j);
      }
      var i :| 0 <= i <= j && RefillFor(b, calls, j - 1) == Headroom(b, calls, i, j - 1);
      HeadroomMoves(b, calls, i, j);
      if RefillFor(b, calls, j) != CapAt(b, calls[j].later) {
        assert RefillFor(b, calls, j) == Headroom(b, calls, i, j);
      } else {
        assert RefillFor(b, calls, j) == Headroom(b, calls, j + 1, j);
      }
    }
  }

  /**
   * The history rule, with or without warm-up: call j is granted if and only if, for every
   * refill point up to and including its own, the amount granted since that point plus n is
   * at most the level at that point plus what the rate has earned since.
   */
  lemma GrantedIffHistoryAllows(b: Tokens, calls: seq<Call>, j: nat)
    requires j < |calls|
    ensures Answer(b, calls, j) <==>
            forall i :: 0 <= i <= j + 1 ==>
              Granted(b, calls, FirstCallAfter(i), j) + calls[j].n
                <= PointLevel(b, calls, i) + Earned(b.rate, PointTime(b, calls, i), calls[j].now)
  {
    TokensAreSmallestHeadroom(b, calls, j);
    assert Answer(b, calls, j) <==> RefillFor(b, calls, j) >= calls[j].n;
    hide RefillFor, Earned, Answer, PointLevel, PointTime, Granted;
    forall i | 0 <= i <= j + 1
      ensures Granted(b, calls, FirstCallAfter(i), j) + calls[j].n
                <= PointLevel(b, calls, i) + Earned(b.rate, PointTime(b, calls, i), calls[j].now)
         <==> calls[j].n <= Headroom(b, calls, i, j)
    {
    }
    if !(RefillFor(b, calls, j) >= calls[j].n) {
      var i :| 0 <= i <= j + 1 && RefillFor(b, calls, j) == Headroom(b, calls, i, j);
      assert !(calls[j].n <= Headroom(b, calls, i, j));
    }
  }

  ghost predicate InOrder(calls: seq<Call>) {
    && (forall i, j :: 0 <= i <= j < |calls| ==> calls[i].now <= calls[j].now)
    && (forall i :: 0 <= i < |calls| ==> calls[i].now <= calls[i].later && calls[i].n >= 0.0)
  }

  /** The capacity in numbers: burst / factor when warm-up starts, the burst when it is over, a straight line between. */
  lemma {:induction false} WarmUpCapacity(rate: real, burst: nat, born: int, warmup: int, coldFactor: int, started: int, now: int)
    requires started <= now
    ensures var b := WarmedUp(NewTokens(rate, burst, born), warmup, coldFactor, started);
            var cold := burst as real / (if coldFactor <= 1 then 3 else coldFactor) as real;
            && (warmup <= 0 || started + warmup <= now ==> CapAt(b, now) == burst as real)
            && (0 < warmup && now == started ==> CapAt(b, now) == cold)
            && (0 < warmup && now < started + warmup ==>
                  CapAt(b, now) == cold + (burst as real - cold) * ((now - started) as real / warmup as real))
  {
  }

  /**
   * A bucket put on warm-up grants burst / factor and no more when it starts, and the full
   * burst once warm-up is over and enough has been earned.
   */
  lemma {:induction false} WarmUpGrants(rate: real, burst: nat, born: int, warmup: int, coldFactor: int,
                                        started: int, now: int, n: real)
    requires rate >= 0.0 && warmup > 0 && born <= started
    ensures var b := WarmedUp(NewTokens(rate, burst, born), warmup, coldFactor, started);
            var cold := burst as real / (if coldFactor <= 1 then 3 else coldFactor) as real;
            && (Grants(b, Call(started, started, n)) <==> n <= cold)
            && (started + warmup <= now && (now - born) as real * rate >= (burst as real - cold) * 1_000_000_000.0 ==>
                  (Grants(b, Call(now, now, n)) <==> n <= burst as real))
  {
    var b := WarmedUp(NewTokens(rate, burst, born), warmup, coldFactor, started);
    WarmUpCapacity(rate, burst, born, warmup, coldFactor, started, started);
    if started <= now {
      WarmUpCapacity(rate, burst, born, warmup, coldFactor, started, now);
    }
    EarnedIsPerSecond(rate, born, now);
    EarnedAdds(rate, born, born, born);
    EarnedMonotone(rate, born, born, started);
    hide Earned, CapAt;
  }

  lemma CapAtMostBurst(rate: real, burst: nat, born: int, warmup: int, coldFactor: int, started: int, now: int)
    ensures var b := WarmedUp(NewTokens(rate, burst, born), warmup, coldFactor, started);
            now >= started ==> CapAt(b, now) <= b.burst
  {
    var b := WarmedUp(NewTokens(rate, burst, born), warmup, coldFactor, started);
    if now >= started && b.warmup > 0 && now - b.started < b.warmup {
      var p := (now - b.started) as real / b.warmup as real;
      assert 0.0 <= p <= 1.0;
      ColdAtMostBurst(b.burst, if coldFactor <= 1 then 3 else coldFactor);
      var d := b.burst - b.cold;
      assert d >= 0.0;
      MulMonotone(p, 1.0, d);
    }
  }

  lemma ColdAtMostBurst(burst: real, factor: int)
    requires burst >= 0.0 && factor >= 1
    ensures burst / factor as real <= burst
  {
    var cold := burst / factor as real;
    assert cold * factor as real == burst;
    if cold > burst {
      MulMonotone(1.0, factor as real, cold);
    }
  }

  /** Over any interval between two calls, what is granted is at most the burst plus the rate times its length. */
  lemma {:induction false} IntervalBound(rate: real, burst: nat, born: int, warmup: int, coldFactor: int, started: int,
                                         calls: seq<Call>, i: nat, j: nat)
    requires rate >= 0.0 && InOrder(calls) && i <= j < |calls|
    requires calls[i].now >= started
    ensures var b := WarmedUp(NewTokens(rate, burst, born), warmup, coldFactor, started);
            Granted(b, calls, i, j + 1) <= burst as real + Earned(rate, calls[i].now, calls[j].now)
  {
    var b := WarmedUp(NewTokens(rate, burst, born), warmup, coldFactor, started);
    assert b.rate == rate && b.burst == burst as real;
    hide WarmedUp;
    if Answer(b, calls, j) {
      GrantedIffHistoryAllows(b, calls, j);
      assert FirstCallAfter(i + 1) == i;
      assert Granted(b, calls, i, j) + calls[j].n
          <= PointLevel(b, calls, i + 1) + Earned(b.rate, PointTime(b, calls, i + 1), calls[j].now);
      CapAtMostBurst(rate, burst, born, warmup, coldFactor, started, calls[i].later);
    } else if i < j {
      IntervalBound(rate, burst, born, warmup, coldFactor, started, calls, i, j - 1);
      hide Answer, Earned;
      EarnedMonotone(rate, calls[i].now, calls[j - 1].now, calls[j].now);
    } else {
      EarnedAdds(rate, calls[i].now, calls[i].now, calls[i].now);
    }
  }

  // ---- Leaky bucket -------------------------------------------------------

  datatype Water = Water(rate: real, capacity: real, water: real, last: int)

  function NewWater(rate: real, capacity: int, now: int): Water {
    Water(rate, capacity as real, 0.0, now)
  }

  function Drained(w: Water, now: int): Water {
    var left := w.water - Earned(w.rate, w.last, now);
    w.(water := if left < 0.0 then 0.0 else left, last := now)
  }

  predicate Fits(w: Water, now: int, n: real) {
    Drained(w, now).water + n <= w.capacity
  }

  function Poured(w: Water, now: int, n: real): Water {
    var d := Drained(w, now);
    if Fits(w, now, n) then d.(water := d.water + n) else d
  }

  /** Whether call j fits when the calls are made in order. */
  predicate FitsAt(w: Water, calls: seq<Call>, j: nat)
    requires j < |calls|
  {
    Fits(RunWater(w, calls[..j]), calls[j].now, calls[j].n)
  }

  /** The amount admitted by the calls from index i up to, but not including, j. */
  function Admitted(w: Water, calls: seq<Call>, i: nat, j: nat): real
    requires j <= |calls|
  {
    if j <= i then 0.0 else Admitted(w, calls, i, j - 1) + (if FitsAt(w, calls, j - 1) then calls[j - 1].n else 0.0)
  }

  function RunWater(w: Water, calls: seq<Call>): Water {
    if calls == [] then w
    else
      var last := calls[|calls| - 1];
      Poured(RunWater(w, calls[..|calls| - 1]), last.now, last.n)
  }

  class LeakyBucket {
    var rate: real
    var capacity: real
    var water: real
    var last: int

    function Abs(): Water
      reads this
    {
      Water(rate, capacity, water, last)
    }

    constructor (rate: real, capacity: int, now: int)
      ensures Abs() == NewWater(rate, capacity, now)
    {
      this.rate, this.capacity, this.water, this.last := rate, capacity as real, 0.0, now;
    }

    method AllowN(now: int, n: real) returns (ok: bool)
      modifies this
      ensures Abs() == Poured(old(Abs()), now, n)
      ensures ok <==> Fits(old(Abs()), now, n)
    {
      water := water - Earned(rate, last, now);
      if water < 0.0 {
        water := 0.0;
      }
      last := now;
      if water + n > capacity {
        return false;
      }
      water := water + n;
      return true;
    }
  }

  /** The two buckets hold complementary amounts. */
  ghost predicate Dual(b: Tokens, w: Water) {
    && b.rate == w.rate && b.burst == w.capacity && b.last == w.last && b.warmup <= 0
    && b.tokens + w.water == w.capacity
  }

  lemma {:induction false} RunsStayDual(rate: real, burst: int, born: int, calls: seq<Call>)
    ensures Dual(Run(NewTokens(rate, burst, born), calls), RunWater(NewWater(rate, burst, born), calls))
  {
    if calls != [] {
      RunsStayDual(rate, burst, born, calls[..|calls| - 1]);
      hide Earned;
    }
  }

  /** Buckets built alike answer every call of every request sequence alike, rejected calls included. */
  lemma SameAnswers(rate: real, burst: int, born: int, calls: seq<Call>, j: nat)
    requires j < |calls|
    ensures Answer(NewTokens(rate, burst, born), calls, j)
       <==> FitsAt(NewWater(rate, burst, born), calls, j)
  {
    RunsStayDual(rate, burst, born, calls[..j]);
    hide Earned, Run, RunWater;
  }

  lemma {:induction false} SameAmounts(rate: real, burst: int, born: int, calls: seq<Call>, i: nat, j: nat)
    requires j <= |calls|
    ensures Admitted(NewWater(rate, burst, born), calls, i, j) == Granted(NewTokens(rate, burst, born), calls, i, j)
  {
    if i < j {
      SameAmounts(rate, burst, born, calls, i, j - 1);
      SameAnswers(rate, burst, born, calls, j - 1);
      hide Answer, FitsAt;
    }
  }

  /** What the leaky bucket does promise: over any interval at most its capacity plus what drains in it. */
  lemma LeakyIntervalBound(rate: real, capacity: nat, born: int, calls: seq<Call>, i: nat, j: nat)
    requires rate >= 0.0 && InOrder(calls) && i <= j < |calls|
    ensures Admitted(NewWater(rate, capacity, born), calls, i, j + 1)
              <= capacity as real + Earned(rate, calls[i].now, calls[j].now)
  {
    SameAmounts(rate, capacity, born, calls, i, j + 1);
    IntervalBound(rate, capacity, born, 0, 0, calls[i].now, calls, i, j);
    hide Earned, Granted, Admitted;
  }

  // ---- Admitting no faster than the drain rate ----------------------------

  /** A bucket without capacity admits nothing but requests for nothing. */
  lemma {:induction false} NoCapacityAdmitsNothing(rate: real, capacity: int, born: int, calls: seq<Call>, i: nat, j: nat)
    requires capacity <= 0 && rate >= 0.0 && InOrder(calls) && j <= |calls|
    ensures Admitted(NewWater(rate, capacity, born), calls, i, j) == 0.0
  {
    if i < j {
      NoCapacityAdmitsNothing(rate, capacity, born, calls, i, j - 1);
      WaterKeepsCapacity(NewWater(rate, capacity, born), calls[..j - 1]);
      hide RunWater, Earned;
    }
  }

  lemma {:induction false} WaterKeepsCapacity(w: Water, calls: seq<Call>)
    ensures RunWater(w, calls).capacity == w.capacity && RunWater(w, calls).rate == w.rate
    ensures calls != [] ==> RunWater(w, calls).last == calls[|calls| - 1].now
  {
    if calls != [] {
      WaterKeepsCapacity(w, calls[..|calls| - 1]);
      hide Earned;
    }
  }

  /** A new bucket is empty, so a request for its whole capacity fits before anything has drained. */
  lemma WholeCapacityFits(rate: real, capacity: int, born: int)
    ensures Fits(NewWater(rate, capacity, born), born, capacity as real)
  {
    EarnedAdds(rate, born, born, born);
  }

  /** The bound is reached over every interval in which no more than the capacity drains. */
  lemma LeakyBurst(rate: real, capacity: nat, born: int, length: nat)
    requires rate >= 0.0 && Earned(rate, born, born + length) <= capacity as real
    ensures var drained := Earned(rate, born, born + length);
            var calls := [Call(born, born, capacity as real), Call(born + length, born + length, drained)];
            && InOrder(calls)
            && Admitted(NewWater(rate, capacity, born), calls, 0, 2) == capacity as real + drained
  {
    EarnedAdds(rate, born, born, born);
    EarnedMonotone(rate, born, born, born + length);
    var w := NewWater(rate, capacity, born);
    var drained := Earned(rate, born, born + length);
    hide Earned;
    var calls := [Call(born, born, capacity as real), Call(born + length, born + length, drained)];
    assert calls[..0] == [] && calls[..1][..0] == [] && calls[..1][0] == calls[0];
    assert RunWater(w, calls[..1]) == w.(water := capacity as real);
    assert FitsAt(w, calls, 0) && FitsAt(w, calls, 1);
    assert Admitted(w, calls, 0, 1) == capacity as real;
  }

  /** Over no interval of any run is more admitted than drains in it. */
  ghost predicate NeverFasterThanDrain(rate: real, capacity: int) {
    forall born: int, calls: seq<Call>, i: nat, j: nat ::
      InOrder(calls) && i <= j < |calls| ==>
        Admitted(NewWater(rate, capacity, born), calls, i, j + 1) <= Earned(rate, calls[i].now, calls[j].now)
  }

  /** That holds exactly of a bucket that holds nothing. */
  lemma NeverFasterThanDrainIff(rate: real, capacity: int)
    requires rate >= 0.0
    ensures NeverFasterThanDrain(rate, capacity) <==> capacity <= 0
  {
    if capacity <= 0 {
      forall born: int, calls: seq<Call>, i: nat, j: nat | InOrder(calls) && i <= j < |calls|
        ensures Admitted(NewWater(rate, capacity, born), calls, i, j + 1) <= Earned(rate, calls[i].now, calls[j].now)
      {
        NoCapacityAdmitsNothing(rate, capacity, born, calls, i, j + 1);
        EarnedAdds(rate, calls[i].now, calls[i].now, calls[i].now);
        EarnedMonotone(rate, calls[i].now, calls[i].now, calls[j].now);
        hide Earned, Admitted;
      }
    } else {
      var w, calls := NewWater(rate, capacity, 0), [Call(0, 0, capacity as real)];
      WholeCapacityFits(rate, capacity, 0);
      EarnedAdds(rate, 0, 0, 0);
      hide Earned, Fits;
      assert calls[..0] == [] && InOrder(calls) && FitsAt(w, calls, 0);
      assert Admitted(w, calls, 0, 1) == Admitted(w, calls, 0, 0) + capacity as real;
      assert !(Admitted(w, calls, 0, 0 + 1) <= Earned(rate, calls[0].now, calls[0].now));
    }
  }
}
