// What the circuit breaker's machine amounts to (cloud/resilience/client_executor.go).
//
// The trip rule as sums of integers, the counters as counts over the whole history, and how
// long a breaker stays open and what its half-open gate lets through.
module BreakerRules {
  import opened CircuitBreaking
  import opened Options

  // ---- The trip rule in numbers -------------------------------------------

  /**
   * The trip rule without divisions: elapsed nanoseconds into the current window, the previous
   * one counts with win - elapsed parts of win. A windowed error count compares failures, the
   * ratios compare failures or slow calls with the total.
   */
  predicate TripsOn(c: Config, prev: Tally, cur: Tally, elapsed: int) {
    var left := c.win - elapsed;
    var total := prev.total * left + cur.total * c.win;
    var fails := prev.fails * left + cur.fails * c.win;
    var slows := prev.slows * left + cur.slows * c.win;
    && prev.total + cur.total >= c.minRequests && total > 0
    && match c.strategy
       case ErrorCount => fails >= c.threshold * c.win
       case SlowCall => c.slowRate > 0.0 && slows as real >= c.slowRate * total as real
       case _ =>
         || (c.rateThreshold > 0.0 && fails as real >= c.rateThreshold * total as real)
         || (c.slowRate > 0.0 && slows as real >= c.slowRate * total as real)
  }

  lemma {:induction false} BlendScaled(c: Config, prev: nat, cur: nat, elapsed: int)
    requires c.win > 0
    ensures Blend(prev, cur, WeightAfter(c, elapsed)) * c.win as real == (prev * (c.win - elapsed) + cur * c.win) as real
  {
    var weight, win := WeightAfter(c, elapsed), c.win as real;
    assert weight * win == (c.win - elapsed) as real;
    assert (prev as real * weight) * win == prev as real * (weight * win);
    assert (prev * (c.win - elapsed)) as real == prev as real * (c.win - elapsed) as real;
    assert (cur * c.win) as real == cur as real * win;
  }

  /** A ratio of two estimates reaches a rate exactly if their scaled sums do. */
  lemma {:induction false} RatioScaled(part: real, whole: real, rate: real, win: real)
    requires whole > 0.0 && win > 0.0
    ensures Ratio(part, whole) >= rate <==> part * win >= rate * (whole * win)
  {
    var ratio := part / whole;
    assert ratio * whole == part;
    assert part * win == ratio * (whole * win);
    assert whole * win > 0.0;
    if ratio >= rate {
      Times(rate, ratio, whole * win);
    } else {
      TimesLess(ratio, rate, whole * win);
    }
  }

  lemma Times(x: real, y: real, z: real)
    requires x <= y && z >= 0.0
    ensures x * z <= y * z
  {
  }

  lemma TimesLess(x: real, y: real, z: real)
    requires x < y && z > 0.0
    ensures x * z < y * z
  {
  }

  lemma {:induction false} TripsInNumbers(c: Config, b: Breaker, now: int)
    requires c.win > 0
    ensures Trips(c, b, now) <==> TripsOn(c, b.prev, b.cur, now - b.curStart)
  {
    hide Blend, WeightAfter, Ratio;
    var e, win := now - b.curStart, c.win as real;
    var weight := WeightAfter(c, e);
    var total := Blend(b.prev.total, b.cur.total, weight);
    BlendScaled(c, b.prev.total, b.cur.total, e);
    BlendScaled(c, b.prev.fails, b.cur.fails, e);
    BlendScaled(c, b.prev.slows, b.cur.slows, e);
    ScaledSign(total, win);
    CountScaled(Blend(b.prev.fails, b.cur.fails, weight), c.threshold, c.win);
    if total > 0.0 {
      RatioScaled(Blend(b.prev.fails, b.cur.fails, weight), total, c.rateThreshold, win);
      RatioScaled(Blend(b.prev.slows, b.cur.slows, weight), total, c.slowRate, win);
    }
  }

  lemma ScaledSign(x: real, win: real)
    requires win > 0.0
    ensures x > 0.0 <==> x * win > 0.0
  {
    if x <= 0.0 {
      Times(x, 0.0, win);
    }
  }

  lemma {:induction false} CountScaled(x: real, n: int, win: int)
    requires win > 0
    ensures x >= n as real <==> x * win as real >= (n * win) as real
  {
    assert (n * win) as real == n as real * win as real;
    if x >= n as real {
      Times(n as real, x, win as real);
    } else {
      TimesLess(x, n as real, win as real);
    }
  }

  /** With no previous window the rule is the plain count or ratio over the current one. */
  lemma {:induction false} TripsWithoutPrevious(c: Config, cur: Tally, elapsed: int)
    requires c.win > 0
    ensures TripsOn(c, NO_CALLS, cur, elapsed) <==>
            && cur.total >= c.minRequests && cur.total > 0
            && match c.strategy
               case ErrorCount => cur.fails >= c.threshold
               case SlowCall => c.slowRate > 0.0 && cur.slows as real >= c.slowRate * cur.total as real
               case _ =>
                 || (c.rateThreshold > 0.0 && cur.fails as real >= c.rateThreshold * cur.total as real)
                 || (c.slowRate > 0.0 && cur.slows as real >= c.slowRate * cur.total as real)
  {
    assert cur.total * c.win > 0 <==> cur.total > 0;
    CountScaled(cur.fails as real, c.threshold, c.win);
    RateScaled(cur.fails, cur.total, c.rateThreshold, c.win);
    RateScaled(cur.slows, cur.total, c.slowRate, c.win);
  }

  lemma {:induction false} RateScaled(part: nat, whole: nat, rate: real, win: int)
    requires win > 0
    ensures part as real >= rate * whole as real <==> (part * win) as real >= rate * (whole * win) as real
  {
    var x, y, w := part as real, rate * whole as real, win as real;
    assert (part * win) as real == x * w && (whole * win) as real == whole as real * w;
    assert rate * (whole as real * w) == y * w;
    if x >= y {
      Times(y, x, w);
    } else {
      TimesLess(x, y, w);
    }
  }

  /** One more sample: a failure, a success, and whether it was slow in the sense of the strategy. */
  function Sampled(c: Config, t: Tally, success: bool, dur: int): Tally {
    var slow := c.slowThreshold > 0 && dur >= c.slowThreshold && (success || c.strategy == SlowCall);
    Tally(t.total + 1, t.fails + (if success then 0 else 1), t.slows + (if slow then 1 else 0))
  }

  /**
   * What a record does to a windowed breaker without a gate: within the window it counts
   * there; in the one after it, what was counted becomes the previous window at full weight;
   * later still, nothing before it counts. The breaker opens exactly if the numbers say so.
   */
  lemma {:induction false} RecordInNumbers(c: Config, b: Breaker, now: int, success: bool, dur: int)
    requires UsesWindow(c) && c.win > 0 && b.halfOpen.None?
    ensures var b', elapsed := Step(c, b, Record(now, success, dur)), now - b.curStart;
            var start := if elapsed < c.win then b.curStart else now;
            var prev := if elapsed < c.win then b.prev else if elapsed < 2 * c.win then b.cur else NO_CALLS;
            var cur := Sampled(c, if elapsed < c.win then b.cur else NO_CALLS, success, dur);
            && b'.curStart == start && b'.prev == prev && b'.cur == cur
            && b'.openedAt == (if TripsOn(c, prev, cur, now - start) then Some(now) else b.openedAt)
  {
    var r := RolledTo(c, b, now);
    TripsInNumbers(c, r.(cur := Counted(c, r.cur, success, c.slowThreshold > 0 && dur >= c.slowThreshold)), now);
    hide Trips, TripsOn;
  }

  // ---- When the counters trip ---------------------------------------------

  /** How many of the latest records failed in a row. */
  function FailureStreak(ops: seq<Op>): nat {
    if ops == [] then 0
    else
      var before, last := FailureStreak(ops[..|ops| - 1]), ops[|ops| - 1];
      if !last.Record? then before else if last.success then 0 else before + 1
  }

  ghost predicate OnlyRecords(ops: seq<Op>) {
    forall i :: 0 <= i < |ops| ==> ops[i].Record?
  }

  /** No gate is offered at any point of the run. */
  ghost predicate Ungated(c: Config, b: Breaker, ops: seq<Op>)
    requires ValidConfig(c)
  {
    forall k :: 0 <= k <= |ops| ==> Run(c, b, ops[..k]).halfOpen.None?
  }

  lemma {:induction false} UngatedStep(c: Config, b: Breaker, ops: seq<Op>)
    requires ValidConfig(c) && Ungated(c, b, ops)
    ensures Run(c, b, ops).halfOpen.None?
    ensures ops != [] ==> Ungated(c, b, ops[..|ops| - 1]) && Run(c, b, ops[..|ops| - 1]).halfOpen.None?
  {
    hide Run;
    assert ops[..|ops|] == ops;
    if ops != [] {
      var rest := ops[..|ops| - 1];
      assert forall k :: 0 <= k <= |rest| ==> rest[..k] == ops[..k];
      assert rest[..|rest|] == rest;
    }
  }

  /** A permit question that offers no gate changes nothing. */
  lemma AskWithoutGate(c: Config, b: Breaker, op: Op)
    requires ValidConfig(c) && op.Ask? && Step(c, b, op).halfOpen.None?
    ensures Step(c, b, op) == b
  {
  }

  /** While no gate is offered, the consecutive breaker is open exactly when the latest failures in a row reach its threshold. */
  lemma {:induction false} ConsecutiveOpenIffStreak(c: Config, now: int, ops: seq<Op>)
    requires !UsesWindow(c) && c.threshold >= 1 && Ungated(c, NewBreaker(c, now), ops)
    ensures var b := Run(c, NewBreaker(c, now), ops);
            && b.halfOpen.None? && b.failures == FailureStreak(ops)
            && (StateOf(b) == Open <==> FailureStreak(ops) >= c.threshold)
  {
    UngatedStep(c, NewBreaker(c, now), ops);
    if ops != [] {
      var rest, last := ops[..|ops| - 1], ops[|ops| - 1];
      ConsecutiveOpenIffStreak(c, now, rest);
      if last.Ask? {
        AskWithoutGate(c, Run(c, NewBreaker(c, now), rest), last);
      }
    }
  }

  /** The records of a run, without its permit questions. */
  function Records(ops: seq<Op>): (r: seq<Op>)
    ensures OnlyRecords(r)
  {
    if ops == [] then []
    else
      var rest, last := Records(ops[..|ops| - 1]), ops[|ops| - 1];
      if last.Record? then rest + [last] else rest
  }

  /** While no gate is offered only the records count. */
  lemma {:induction false} AsksDoNotCount(c: Config, b: Breaker, ops: seq<Op>)
    requires ValidConfig(c) && Ungated(c, b, ops)
    ensures Run(c, b, ops) == Run(c, b, Records(ops))
  {
    UngatedStep(c, b, ops);
    if ops != [] {
      var rest, last := ops[..|ops| - 1], ops[|ops| - 1];
      AsksDoNotCount(c, b, rest);
      if last.Ask? {
        AskWithoutGate(c, Run(c, b, rest), last);
      } else {
        hide Step;
        assert Records(ops)[..|Records(ops)| - 1] == Records(rest);
      }
    }
  }

  lemma {:induction false} RecordsInOrder(born: int, ops: seq<Op>)
    requires InOrder(born, ops)
    ensures InOrder(born, Records(ops))
    ensures Records(ops) != [] ==> ops != [] && Records(ops)[|Records(ops)| - 1].now <= ops[|ops| - 1].now
  {
    if ops != [] {
      RecordsInOrder(born, ops[..|ops| - 1]);
    }
  }

  /** Where the counting window of the latest record starts: at that record, if the window before it had run out. */
  function WindowStart(c: Config, born: int, ops: seq<Op>): int {
    if ops == [] then born
    else
      var s, now := WindowStart(c, born, ops[..|ops| - 1]), ops[|ops| - 1].now;
      if now - s >= c.win then now else s
  }

  /** The start of the window just before it, unless that one ended a whole window earlier. */
  function PreviousStart(c: Config, born: int, ops: seq<Op>): Option<int> {
    if ops == [] then None
    else
      var s, now := WindowStart(c, born, ops[..|ops| - 1]), ops[|ops| - 1].now;
      if now - s < c.win then PreviousStart(c, born, ops[..|ops| - 1])
      else if now - s >= 2 * c.win then None
      else Some(s)
  }

  predicate IsSlow(c: Config, op: Op)
    requires op.Record?
  {
    c.slowThreshold > 0 && op.dur >= c.slowThreshold
  }

  /** The samples of history that fell into the window starting at s. */
  function TallyOf(c: Config, born: int, ops: seq<Op>, s: int): Tally
    requires OnlyRecords(ops)
  {
    if ops == [] then NO_CALLS
    else
      var before, last := TallyOf(c, born, ops[..|ops| - 1], s), ops[|ops| - 1];
      if WindowStart(c, born, ops) == s then Counted(c, before, last.success, IsSlow(c, last)) else before
  }

  /** What a record counts as. */
  datatype Kind = Sample | Failure | SlowCallOrFailure

  predicate CountsAs(c: Config, op: Op, kind: Kind)
    requires op.Record?
  {
    match kind
    case Sample => true
    case Failure => !op.success
    case SlowCallOrFailure => IsSlow(c, op) && (op.success || c.strategy == SlowCall)
  }

  /** How many records of one kind fell into the window starting at s. */
  function HowMany(c: Config, born: int, ops: seq<Op>, s: int, kind: Kind): nat
    requires OnlyRecords(ops)
  {
    if ops == [] then 0
    else
      HowMany(c, born, ops[..|ops| - 1], s, kind)
      + if WindowStart(c, born, ops) == s && CountsAs(c, ops[|ops| - 1], kind) then 1 else 0
  }

  function Sums(c: Config, born: int, ops: seq<Op>, s: int): Tally
    requires OnlyRecords(ops)
  {
    Tally(HowMany(c, born, ops, s, Sample), HowMany(c, born, ops, s, Failure), HowMany(c, born, ops, s, SlowCallOrFailure))
  }

  lemma {:induction false} TalliesAreSums(c: Config, born: int, ops: seq<Op>, s: int)
    requires OnlyRecords(ops)
    ensures TallyOf(c, born, ops, s) == Sums(c, born, ops, s)
  {
    if ops != [] {
      TalliesAreSums(c, born, ops[..|ops| - 1], s);
      hide WindowStart;
    }
  }

  /** A breaker whose counters are recomputed from the whole history. */
  function Recount(c: Config, born: int, ops: seq<Op>): Breaker
    requires OnlyRecords(ops)
  {
    var prev := PreviousStart(c, born, ops);
    NewBreaker(c, born).(
      curStart := WindowStart(c, born, ops),
      cur := TallyOf(c, born, ops, WindowStart(c, born, ops)),
      prev := if prev.Some? then TallyOf(c, born, ops, prev.value) else NO_CALLS)
  }

  ghost predicate InOrder(born: int, ops: seq<Op>) {
    && (forall i :: 0 <= i < |ops| ==> born <= ops[i].now)
    && (forall i, j :: 0 <= i <= j < |ops| ==> ops[i].now <= ops[j].now)
  }

  lemma {:induction false} WindowStartsGrow(c: Config, born: int, ops: seq<Op>)
    requires c.win > 0 && InOrder(born, ops) && OnlyRecords(ops)
    ensures WindowStart(c, born, ops) <= (if ops == [] then born else ops[|ops| - 1].now)
    ensures PreviousStart(c, born, ops).Some? ==> PreviousStart(c, born, ops).value < WindowStart(c, born, ops)
    ensures forall s :: s > WindowStart(c, born, ops) ==> TallyOf(c, born, ops, s) == NO_CALLS
  {
    if ops != [] {
      WindowStartsGrow(c, born, ops[..|ops| - 1]);
      hide Counted;
    }
  }

  /** The counters one more sample leaves, before the decision. */
  function CountedAt(c: Config, b: Breaker, op: Op): Breaker
    requires op.Record?
  {
    var r := RolledTo(c, b, op.now);
    r.(cur := Counted(c, r.cur, op.success, IsSlow(c, op)))
  }

  /** A windowed record without a gate counts the sample and opens the breaker exactly when the counters ask for it. */
  lemma RecordCountsThenDecides(c: Config, b: Breaker, op: Op)
    requires UsesWindow(c) && c.win > 0 && op.Record? && b.halfOpen.None?
    ensures var b', n := Step(c, b, op), CountedAt(c, b, op);
            && b'.curStart == n.curStart && b'.cur == n.cur && b'.prev == n.prev && b'.halfOpen.None?
            && b'.openedAt == if Trips(c, n, op.now) then Some(op.now) else b.openedAt
  {
    hide Trips, Counted;
  }

  lemma RecountStep(c: Config, born: int, ops: seq<Op>, b: Breaker)
    requires UsesWindow(c) && c.win > 0 && OnlyRecords(ops) && InOrder(born, ops) && ops != []
    requires var h := Recount(c, born, ops[..|ops| - 1]);
             b.curStart == h.curStart && b.cur == h.cur && b.prev == h.prev
    ensures var n, h := CountedAt(c, b, ops[|ops| - 1]), Recount(c, born, ops);
            n.curStart == h.curStart && n.cur == h.cur && n.prev == h.prev
  {
    hide Counted;
    var earlier, last := ops[..|ops| - 1], ops[|ops| - 1];
    WindowStartsGrow(c, born, earlier);
    var s := WindowStart(c, born, earlier);
    if last.now - s >= c.win {
      assert TallyOf(c, born, earlier, last.now) == NO_CALLS;
    }
  }

  lemma {:induction false} CountersRecountRecords(c: Config, born: int, ops: seq<Op>)
    requires UsesWindow(c) && c.win > 0 && OnlyRecords(ops) && InOrder(born, ops)
    ensures var b, h := Run(c, NewBreaker(c, born), ops), Recount(c, born, ops);
            b.curStart == h.curStart && b.cur == h.cur && b.prev == h.prev && b.halfOpen.None?
  {
    if ops != [] {
      var n := |ops| - 1;
      CountersRecountRecords(c, born, ops[..n]);
      var before := Run(c, NewBreaker(c, born), ops[..n]);
      RecordCountsThenDecides(c, before, ops[n]);
      RecountStep(c, born, ops, before);
      hide Recount, CountedAt, Step;
    }
  }

  /** While no gate is offered, the constant-space window counters are exact counts over the record history. */
  lemma CountersRecountHistory(c: Config, born: int, ops: seq<Op>)
    requires UsesWindow(c) && c.win > 0 && InOrder(born, ops) && Ungated(c, NewBreaker(c, born), ops)
    ensures var b, rs := Run(c, NewBreaker(c, born), ops), Records(ops);
            && b.curStart == WindowStart(c, born, rs)
            && b.cur == Sums(c, born, rs, WindowStart(c, born, rs))
            && b.prev == (match PreviousStart(c, born, rs)
                          case None => NO_CALLS
                          case Some(s) => Sums(c, born, rs, s))
            && b.halfOpen.None?
  {
    var rs := Records(ops);
    AsksDoNotCount(c, NewBreaker(c, born), ops);
    RecordsInOrder(born, ops);
    CountersRecountRecords(c, born, rs);
    TalliesAreSums(c, born, rs, WindowStart(c, born, rs));
    if PreviousStart(c, born, rs).Some? {
      TalliesAreSums(c, born, rs, PreviousStart(c, born, rs).value);
    }
    hide Run, Records, Ungated, TallyOf, Sums, WindowStart, PreviousStart;
  }

  lemma TripsReadsCounters(c: Config, b: Breaker, b': Breaker, now: int)
    requires c.win > 0 && b.curStart == b'.curStart && b.cur == b'.cur && b.prev == b'.prev
    ensures Trips(c, b, now) <==> Trips(c, b', now)
  {
  }

  /** The numbers of the first k records of the history reach the threshold. */
  ghost predicate ReachedAt(c: Config, born: int, ops: seq<Op>, k: int)
    requires OnlyRecords(ops)
  {
    && 0 < k <= |ops|
    && var start, previous := WindowStart(c, born, ops[..k]), PreviousStart(c, born, ops[..k]);
       TripsOn(c, if previous.Some? then Sums(c, born, ops[..k], previous.value) else NO_CALLS,
               Sums(c, born, ops[..k], start), ops[k - 1].now - start)
  }

  lemma ReachedIsTripping(c: Config, born: int, ops: seq<Op>)
    requires c.win > 0 && OnlyRecords(ops) && ops != []
    ensures ReachedAt(c, born, ops, |ops|) <==> Trips(c, Recount(c, born, ops), ops[|ops| - 1].now)
  {
    assert ops[..|ops|] == ops;
    TripsInNumbers(c, Recount(c, born, ops), ops[|ops| - 1].now);
    TalliesAreSums(c, born, ops, WindowStart(c, born, ops));
    if PreviousStart(c, born, ops).Some? {
      TalliesAreSums(c, born, ops, PreviousStart(c, born, ops).value);
    }
    hide Trips, TripsOn, TallyOf, Sums, WindowStart, PreviousStart;
  }

  /** When the latest of the first k records that reached the threshold was made. */
  ghost function LastReached(c: Config, born: int, ops: seq<Op>): Option<int>
    requires OnlyRecords(ops)
  {
    if ops == [] then None
    else if ReachedAt(c, born, ops, |ops|) then Some(ops[|ops| - 1].now)
    else LastReached(c, born, ops[..|ops| - 1])
  }

  lemma {:induction false} RecordsOpenAtLastReached(c: Config, born: int, ops: seq<Op>)
    requires UsesWindow(c) && c.win > 0 && OnlyRecords(ops) && InOrder(born, ops)
    ensures Run(c, NewBreaker(c, born), ops).openedAt == LastReached(c, born, ops)
  {
    if ops != [] {
      var n := |ops| - 1;
      var earlier := ops[..n];
      RecordsOpenAtLastReached(c, born, earlier);
      CountersRecountRecords(c, born, earlier);
      var before := Run(c, NewBreaker(c, born), earlier);
      RecordCountsThenDecides(c, before, ops[n]);
      RecountStep(c, born, ops, before);
      TripsReadsCounters(c, CountedAt(c, before, ops[n]), Recount(c, born, ops), ops[n].now);
      ReachedIsTripping(c, born, ops);
      hide Trips, Recount, CountedAt, Step, ReachedAt;
    }
  }

  lemma {:induction false} LastReachedIsSome(c: Config, born: int, ops: seq<Op>)
    requires OnlyRecords(ops)
    ensures LastReached(c, born, ops).Some? <==> exists k :: ReachedAt(c, born, ops, k)
  {
    hide TripsOn, Sums, WindowStart, PreviousStart;
    if ops != [] {
      var earlier := ops[..|ops| - 1];
      LastReachedIsSome(c, born, earlier);
      forall k
        ensures k < |ops| ==> (ReachedAt(c, born, ops, k) <==> ReachedAt(c, born, earlier, k))
      {
        if 0 < k < |ops| {
          assert earlier[..k] == ops[..k];
        }
      }
    }
  }

  /**
   * While no gate is offered, a windowed breaker is open exactly when the two-window sums over
   * the history reached its threshold at some record, and its cool-down runs from the latest.
   */
  lemma WindowedOpenIffEstimateReached(c: Config, born: int, ops: seq<Op>)
    requires UsesWindow(c) && c.win > 0 && InOrder(born, ops) && Ungated(c, NewBreaker(c, born), ops)
    ensures var b := Run(c, NewBreaker(c, born), ops);
            && (StateOf(b) == Open <==> exists k :: ReachedAt(c, born, Records(ops), k))
            && b.openedAt == LastReached(c, born, Records(ops))
  {
    UngatedStep(c, NewBreaker(c, born), ops);
    AsksDoNotCount(c, NewBreaker(c, born), ops);
    RecordsInOrder(born, ops);
    RecordsOpenAtLastReached(c, born, Records(ops));
    LastReachedIsSome(c, born, Records(ops));
    hide Run, ReachedAt, Records, Ungated;
  }

  // ---- Cool-down and gate -------------------------------------------------

  /** When the latest record was made. */
  function LatestRecord(ops: seq<Op>): Option<int> {
    if ops == [] then None
    else if ops[|ops| - 1].Record? then Some(ops[|ops| - 1].now)
    else LatestRecord(ops[..|ops| - 1])
  }

  /** While no gate is offered, the consecutive breaker's cool-down runs from its latest record at or beyond the threshold. */
  lemma {:induction false} ConsecutiveCoolsFromLastFailure(c: Config, now: int, ops: seq<Op>)
    requires !UsesWindow(c) && c.threshold >= 1 && Ungated(c, NewBreaker(c, now), ops)
    ensures Run(c, NewBreaker(c, now), ops).openedAt
              == if FailureStreak(ops) >= c.threshold then LatestRecord(ops) else None
  {
    UngatedStep(c, NewBreaker(c, now), ops);
    ConsecutiveOpenIffStreak(c, now, ops);
    if ops != [] {
      var rest, last := ops[..|ops| - 1], ops[|ops| - 1];
      ConsecutiveCoolsFromLastFailure(c, now, rest);
      ConsecutiveOpenIffStreak(c, now, rest);
      if last.Ask? {
        AskWithoutGate(c, Run(c, NewBreaker(c, now), rest), last);
      }
    }
  }

  /**
   * Who gets through: everybody while closed, and once openFor has passed since the trip whoever
   * finds no gate yet or a permit left. Only the latter changes anything, and takes one permit.
   */
  lemma {:induction false} AdmitsIff(c: Config, b: Breaker, now: int)
    requires ValidConfig(c)
    ensures Allows(c, b, now) <==>
              match StateOf(b)
              case Closed => true
              case Open => now >= b.openedAt.value + c.openFor
              case HalfOpen => now >= b.openedAt.value + c.openFor && b.halfOpen.value > 0
    ensures StateOf(b) == Closed || !Allows(c, b, now) ==> Step(c, b, Ask(now)) == b
    ensures StateOf(b) == HalfOpen && Allows(c, b, now) ==>
              Step(c, b, Ask(now)) == b.(halfOpen := Some(b.halfOpen.value - 1))
  {
  }

  /**
   * A breaker that opened at t refuses everybody until t + openFor. Then the first question
   * offers a gate, which lets through as many trials as are configured and no more.
   */
  lemma {:induction false} OpenUntilCooledDown(c: Config, b: Breaker, now: int, k: nat)
    requires StateOf(b) == Open && ValidConfig(c)
    ensures now < b.openedAt.value + c.openFor ==> !Allows(c, b, now) && Step(c, b, Ask(now)) == b
    ensures now >= b.openedAt.value + c.openFor ==>
              var asked := Run(c, b, Asks(now, k));
              && (Allows(c, asked, now) <==> k < Trials(c))
              && (k > 0 ==> StateOf(asked) == HalfOpen && asked.halfOpenOK == 0)
  {
    if now >= b.openedAt.value + c.openFor {
      AsksDrainGate(c, b, now, k);
    }
  }

  function Asks(now: int, k: nat): seq<Op> {
    seq(k, _ => Ask(now))
  }

  lemma {:induction false} AsksDrainGate(c: Config, b: Breaker, now: int, k: nat)
    requires StateOf(b) == Open && ValidConfig(c) && now >= b.openedAt.value + c.openFor
    ensures var asked := Run(c, b, Asks(now, k));
            && asked.openedAt == b.openedAt
            && (k == 0 ==> asked == b)
            && (k > 0 ==> asked.halfOpenOK == 0 && asked.halfOpen == Some(if k < Trials(c) then Trials(c) - k else 0))
  {
    if k > 0 {
      AsksDrainGate(c, b, now, k - 1);
      assert Asks(now, k)[..k - 1] == Asks(now, k - 1);
    }
  }

  function Successes(times: seq<int>, dur: int): seq<Op> {
    seq(|times|, i requires 0 <= i < |times| => Record(times[i], true, dur))
  }

  /**
   * A gate stays half-open until it has as many successes as it offered trials. The one that
   * completes it closes the breaker, which starts clean: no streak, no counts, a new window.
   */
  lemma {:induction false} SuccessesCloseGate(c: Config, b: Breaker, times: seq<int>, dur: int)
    requires ValidConfig(c) && b.halfOpen.Some? && b.openedAt.Some? && 0 < |times| && b.halfOpenOK + |times| <= Trials(c)
    ensures var b' := Run(c, b, Successes(times, dur));
            if b.halfOpenOK + |times| < Trials(c) then b' == b.(halfOpenOK := b.halfOpenOK + |times|)
            else
              && StateOf(b') == Closed && b'.failures == 0 && b'.cur == b'.prev == NO_CALLS
              && b'.curStart == times[|times| - 1] && b'.trace == b.trace + [Edge(HalfOpen, Closed)]
  {
    hide Trials;
    var n := |times| - 1;
    assert Successes(times, dur)[..n] == Successes(times[..n], dur);
    if n > 0 {
      SuccessesCloseGate(c, b, times[..n], dur);
    } else {
      assert Run(c, b, []) == b;
    }
  }

  /** One failed trial opens the breaker again, and the cool-down starts anew. */
  lemma FailureReopens(c: Config, b: Breaker, now: int, dur: int)
    requires ValidConfig(c) && b.halfOpen.Some?
    ensures Step(c, b, Record(now, false, dur))
              == b.(halfOpen := None, openedAt := Some(now), trace := b.trace + [Edge(HalfOpen, Open)])
  {
  }
}
