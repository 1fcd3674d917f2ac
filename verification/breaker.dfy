// The circuit breaker (cloud/resilience/client_executor.go).
//
// One open / half-open machine serves four ways of counting failures. The class is
// proved against step functions on a snapshot; the listener's notifications are kept as
// a trace. Instants and durations are integer nanoseconds, ratios are reals.
module CircuitBreaking {
  import opened Options

  datatype Strategy = Consecutive | ErrorRate | SlowCall | ErrorCount

  datatype State = Closed | Open | HalfOpen

  /** A notified transition. */
  datatype Edge = Edge(from: State, to: State)

  datatype Spec = Spec(
    strategy: Strategy,
    threshold: int,
    rateThreshold: real,
    minRequests: int,
    window: int,
    slowThreshold: int,
    slowRate: real,
    halfOpenN: int)

  /** The strategy an explicit name and the slow-call pair select. */
  function ResolveStrategy(explicit: string, slowThreshold: int, slowRate: real): (s: Strategy)
    ensures s == SlowCall <==> explicit == "slow-call"
    ensures s == ErrorCount <==> explicit == "error-count"
    ensures s == Consecutive <==>
            explicit !in {"error-rate", "slow-call", "error-count"} && !(slowThreshold > 0 && slowRate > 0.0)
  {
    if explicit == "error-rate" then ErrorRate
    else if explicit == "slow-call" then SlowCall
    else if explicit == "error-count" then ErrorCount
    else if slowThreshold > 0 && slowRate > 0.0 then ErrorRate
    else Consecutive
  }

  /** The fields a breaker keeps fixed for its life. */
  datatype Config = Config(
    strategy: Strategy,
    openFor: int,
    threshold: int,
    rateThreshold: real,
    minRequests: int,
    slowThreshold: int,
    slowRate: real,
    halfOpenN: int,
    win: int)

  predicate UsesWindow(c: Config) {
    c.strategy != Consecutive
  }

  function NewConfig(s: Spec, open: int): (c: Config)
    ensures c.strategy == s.strategy && c.openFor == open && c.threshold == s.threshold && c.rateThreshold == s.rateThreshold
    ensures UsesWindow(c) ==> c.win > 0 && c.minRequests > 0
    ensures UsesWindow(c) ==> c.win == if s.window > 0 then s.window else 1_000_000_000
    ensures c.minRequests == if UsesWindow(c) && s.minRequests <= 0 then 1 else s.minRequests
    ensures s.slowThreshold > 0 && s.slowRate > 0.0 ==> c.slowThreshold == s.slowThreshold && c.slowRate == s.slowRate
    ensures !(s.slowThreshold > 0 && s.slowRate > 0.0) ==> c.slowThreshold == 0 && c.slowRate == 0.0
    ensures Trials(c) == if s.halfOpenN > 1 then s.halfOpenN else 1
  {
    var windowed := s.strategy != Consecutive;
    var slow := s.slowThreshold > 0 && s.slowRate > 0.0;
    Config(
      s.strategy,
      open,
      s.threshold,
      s.rateThreshold,
      if windowed && s.minRequests <= 0 then 1 else s.minRequests,
      if slow then s.slowThreshold else 0,
      if slow then s.slowRate else 0.0,
      if s.halfOpenN > 1 then s.halfOpenN else 0,
      if !windowed then 0 else if s.window > 0 then s.window else 1_000_000_000)
  }

  /** How many trials one half-open gate admits. */
  function Trials(c: Config): (n: nat)
    ensures n >= 1
  {
    if c.halfOpenN <= 0 then 1 else c.halfOpenN
  }

  datatype Tally = Tally(total: nat, fails: nat, slows: nat)

  const NO_CALLS := Tally(0, 0, 0)

  datatype Breaker = Breaker(
    failures: nat,
    openedAt: Option<int>,   // None while closed
    halfOpen: Option<nat>,   // permits left in the half-open gate, None while no gate is offered
    halfOpenOK: nat,
    curStart: int,
    cur: Tally,
    prev: Tally,
    trace: seq<Edge>)

  function NewBreaker(c: Config, now: int): Breaker {
    Breaker(0, None, None, 0, if UsesWindow(c) then now else 0, NO_CALLS, NO_CALLS, [])
  }

  function StateOf(b: Breaker): State {
    if b.openedAt.None? then Closed else if b.halfOpen.Some? then HalfOpen else Open
  }

  function Notified(b: Breaker, from: State, to: State): Breaker {
    b.(trace := b.trace + [Edge(from, to)])
  }

  /** The cool-down since the last trip has elapsed. */
  predicate CooledDown(c: Config, b: Breaker, now: int) {
    b.openedAt.Some? && now - b.openedAt.value >= c.openFor
  }

  /** The gate as a call finds it: opened now if none is offered yet. */
  function GateOpened(c: Config, b: Breaker): Breaker {
    if b.halfOpen.Some? then b
    else Notified(b.(halfOpenOK := 0, halfOpen := Some(Trials(c))), Open, HalfOpen)
  }

  predicate Allows(c: Config, b: Breaker, now: int) {
    b.openedAt.None? || (CooledDown(c, b, now) && GateOpened(c, b).halfOpen.value > 0)
  }

  function Asked(c: Config, b: Breaker, now: int): Breaker {
    if !CooledDown(c, b, now) then b
    else
      var g := GateOpened(c, b);
      if g.halfOpen.value > 0 then g.(halfOpen := Some(g.halfOpen.value - 1)) else g
  }

  function ClosedAt(b: Breaker, now: int): Breaker {
    b.(failures := 0, openedAt := None, halfOpen := None, cur := NO_CALLS, prev := NO_CALLS, curStart := now)
  }

  function RecordedConsecutive(c: Config, b: Breaker, now: int, success: bool): Breaker {
    if success then b.(failures := 0, openedAt := None)
    else if b.failures + 1 >= c.threshold then
      var n := if b.openedAt.None? then Notified(b, Closed, Open) else b;
      n.(failures := b.failures + 1, openedAt := Some(now))
    else b.(failures := b.failures + 1)
  }

  /** The window counters at an instant: an adjacent window becomes the previous one, an older one is forgotten. */
  function RolledTo(c: Config, b: Breaker, now: int): Breaker {
    var elapsed := now - b.curStart;
    if elapsed >= c.win then
      b.(prev := if elapsed >= 2 * c.win then NO_CALLS else b.cur, cur := NO_CALLS, curStart := now)
    else b
  }

  function Counted(c: Config, t: Tally, success: bool, slow: bool): Tally {
    Tally(
      t.total + 1,
      if success then t.fails else t.fails + 1,
      if slow && (success || c.strategy == SlowCall) then t.slows + 1 else t.slows)
  }

  /** How much of the previous window still overlaps, elapsed nanoseconds into the current one. */
  function WeightAfter(c: Config, elapsed: int): real
    requires c.win > 0
  {
    (c.win - elapsed) as real / c.win as real
  }

  /** The two-window estimate of one counter. */
  function Blend(prev: nat, cur: nat, weight: real): real {
    prev as real * weight + cur as real
  }

  function Ratio(part: real, whole: real): real
    requires whole > 0.0
  {
    part / whole
  }

  /** Whether the counters of b, current at now, ask for a trip. */
  predicate Trips(c: Config, b: Breaker, now: int)
    requires c.win > 0
  {
    var weight := WeightAfter(c, now - b.curStart);
    var total := Blend(b.prev.total, b.cur.total, weight);
    var fails := Blend(b.prev.fails, b.cur.fails, weight);
    var slows := Blend(b.prev.slows, b.cur.slows, weight);
    && b.cur.total + b.prev.total >= c.minRequests
    && total > 0.0
    && match c.strategy
       case ErrorCount => fails >= c.threshold as real
       case SlowCall => c.slowRate > 0.0 && Ratio(slows, total) >= c.slowRate
       case _ =>
         || (c.rateThreshold > 0.0 && Ratio(fails, total) >= c.rateThreshold)
         || (c.slowRate > 0.0 && Ratio(slows, total) >= c.slowRate)
  }

  function RecordedRate(c: Config, b: Breaker, now: int, success: bool, slow: bool): Breaker
    requires c.win > 0
  {
    var r := RolledTo(c, b, now);
    var n := r.(cur := Counted(c, r.cur, success, slow));
    if Trips(c, n, now) then
      (if n.openedAt.None? then Notified(n, Closed, Open) else n).(openedAt := Some(now))
    else n
  }

  ghost predicate ValidConfig(c: Config) {
    UsesWindow(c) ==> c.win > 0
  }

  /** A half-open gate is resolved first; otherwise the strategy counts. */
  function Recorded(c: Config, b: Breaker, now: int, success: bool, dur: int): Breaker
    requires ValidConfig(c)
  {
    if b.halfOpen.Some? then
      if success then
        var ok := b.(halfOpenOK := b.halfOpenOK + 1);
        if ok.halfOpenOK >= Trials(c) then Notified(ClosedAt(ok, now), HalfOpen, Closed) else ok
      else
        Notified(b.(halfOpen := None, openedAt := Some(now)), HalfOpen, Open)
    else if UsesWindow(c) then
      RecordedRate(c, b, now, success, c.slowThreshold > 0 && dur >= c.slowThreshold)
    else
      RecordedConsecutive(c, b, now, success)
  }

  class CircuitBreaker {
    const config: Config
    var failures: nat
    var openedAt: Option<int>
    var halfOpen: Option<nat>
    var halfOpenOK: nat
    var curStart: int
    var total: nat
    var fails: nat
    var slows: nat
    var prevTotal: nat
    var prevFails: nat
    var prevSlows: nat
    var trace: seq<Edge>

    function Abs(): Breaker
      reads this
    {
      Breaker(failures, openedAt, halfOpen, halfOpenOK, curStart,
              Tally(total, fails, slows), Tally(prevTotal, prevFails, prevSlows), trace)
    }

    constructor (spec: Spec, open: int, now: int)
      ensures config == NewConfig(spec, open)
      ensures Abs() == NewBreaker(config, now)
    {
      config := NewConfig(spec, open);
      failures, openedAt, halfOpen, halfOpenOK := 0, None, None, 0;
      curStart := if spec.strategy != Consecutive then now else 0;
      total, fails, slows, prevTotal, prevFails, prevSlows := 0, 0, 0, 0, 0, 0;
      trace := [];
    }

    /** What a listener, if one is attached, hears; a transition to the same state is not announced. */
    method NotifyLocked(from: State, to: State)
      modifies this`trace
      ensures Abs() == if from == to then old(Abs()) else Notified(old(Abs()), from, to)
    {
      if from == to {
        return;
      }
      trace := trace + [Edge(from, to)];
    }

    method Allow(now: int) returns (ok: bool)
      modifies this
      ensures Abs() == Asked(config, old(Abs()), now)
      ensures ok <==> Allows(config, old(Abs()), now)
    {
      if openedAt.None? {
        return true;
      }
      if now - openedAt.value < config.openFor {
        return false;
      }
      if halfOpen.None? {
        var n := config.halfOpenN;
        if n <= 0 {
          n := 1;
        }
        halfOpenOK := 0;
        halfOpen := Some(n);
        NotifyLocked(Open, HalfOpen);
      }
      if halfOpen.value > 0 {
        halfOpen := Some(halfOpen.value - 1);
        return true;
      }
      return false;
    }

    method CloseLocked(now: int)
      modifies this
      ensures Abs() == ClosedAt(old(Abs()), now)
    {
      failures := 0;
      openedAt := None;
      halfOpen := None;
      total, fails, slows := 0, 0, 0;
      prevTotal, prevFails, prevSlows := 0, 0, 0;
      curStart := now;
    }

    method RecordConsecutive(success: bool, now: int)
      modifies this
      ensures Abs() == RecordedConsecutive(config, old(Abs()), now, success)
    {
      if success {
        failures := 0;
        openedAt := None;
        return;
      }
      failures := failures + 1;
      if failures >= config.threshold {
        if openedAt.None? {
          NotifyLocked(Closed, Open);
        }
        openedAt := Some(now);
      }
    }

    /** The counting half of the windowed strategies: roll the window, count the sample. */
    method CountInWindow(success: bool, slow: bool, now: int)
      modifies this
      ensures Abs() == (var r := RolledTo(config, old(Abs()), now); r.(cur := Counted(config, r.cur, success, slow)))
    {
      var elapsed := now - curStart;
      if elapsed >= config.win {
        if elapsed >= 2 * config.win {
          prevTotal, prevFails, prevSlows := 0, 0, 0;
        } else {
          prevTotal, prevFails, prevSlows := total, fails, slows;
        }
        total, fails, slows := 0, 0, 0;
        curStart := now;
      }
      total := total + 1;
      if !success {
        fails := fails + 1;
        if config.strategy == SlowCall && slow {
          slows := slows + 1;
        }
      } else if slow {
        slows := slows + 1;
      }
    }

    /** The deciding half: whether the estimates reach the strategy's threshold. */
    method ShouldTrip(now: int) returns (trip: bool)
      requires config.win > 0
      ensures trip <==> Trips(config, Abs(), now)
    {
      hide WeightAfter, Blend, Ratio;
      var weight := WeightAfter(config, now - curStart);
      var estimateTotal := Blend(prevTotal, total, weight);
      var estimateFails := Blend(prevFails, fails, weight);
      var estimateSlows := Blend(prevSlows, slows, weight);
      trip := false;
      if total + prevTotal >= config.minRequests && estimateTotal > 0.0 {
        match config.strategy {
          case ErrorCount =>
            trip := estimateFails >= config.threshold as real;
          case SlowCall =>
            trip := config.slowRate > 0.0 && Ratio(estimateSlows, estimateTotal) >= config.slowRate;
          case _ =>
            if config.rateThreshold > 0.0 && Ratio(estimateFails, estimateTotal) >= config.rateThreshold {
              trip := true;
            }
            if config.slowRate > 0.0 && Ratio(estimateSlows, estimateTotal) >= config.slowRate {
              trip := true;
            }
        }
      }
    }

    method RecordRate(success: bool, slow: bool, now: int)
      requires config.win > 0
      modifies this
      ensures Abs() == RecordedRate(config, old(Abs()), now, success, slow)
    {
      hide Trips, RolledTo, Counted;
      CountInWindow(success, slow, now);
      var trip := ShouldTrip(now);
      if trip {
        if openedAt.None? {
          NotifyLocked(Closed, Open);
        }
        openedAt := Some(now);
      }
    }

    method Record(success: bool, dur: int, now: int)
      requires ValidConfig(config)
      modifies this
      ensures Abs() == Recorded(config, old(Abs()), now, success, dur)
    {
      var slow := config.slowThreshold > 0 && dur >= config.slowThreshold;
      if halfOpen.Some? {
        if success {
          halfOpenOK := halfOpenOK + 1;
          var n := config.halfOpenN;
          if n <= 0 {
            n := 1;
          }
          if halfOpenOK >= n {
            CloseLocked(now);
            NotifyLocked(HalfOpen, Closed);
          }
          return;
        }
        halfOpen := None;
        openedAt := Some(now);
        NotifyLocked(HalfOpen, Open);
        return;
      }
      if config.strategy != Consecutive {
        RecordRate(success, slow, now);
        return;
      }
      RecordConsecutive(success, now);
    }
  }

  // ---- Runs and the listener's view ---------------------------------------

  datatype Op = Ask(now: int) | Record(now: int, success: bool, dur: int)

  function Step(c: Config, b: Breaker, op: Op): Breaker
    requires ValidConfig(c)
  {
    match op
    case Ask(now) => Asked(c, b, now)
    case Record(now, success, dur) => Recorded(c, b, now, success, dur)
  }

  function Run(c: Config, b: Breaker, ops: seq<Op>): Breaker
    requires ValidConfig(c)
  {
    if ops == [] then b else Step(c, Run(c, b, ops[..|ops| - 1]), ops[|ops| - 1])
  }

  ghost predicate LegalEdge(e: Edge) {
    e in {Edge(Closed, Open), Edge(Open, HalfOpen), Edge(HalfOpen, Closed), Edge(HalfOpen, Open)}
  }

  /** The state the listener believes in: the last target it was told. */
  function Told(trace: seq<Edge>): State {
    if trace == [] then Closed else trace[|trace| - 1].to
  }

  /** trace is a walk on the legal edges that starts Closed, each edge leaving the state the previous one reached. */
  ghost predicate IsPath(trace: seq<Edge>) {
    forall i :: 0 <= i < |trace| ==> LegalEdge(trace[i]) && trace[i].from == Told(trace[..i])
  }

  /** As IsPath, except that the machine may slip from Open to Closed without telling. */
  ghost predicate IsPathWithSilentClose(trace: seq<Edge>) {
    forall i :: 0 <= i < |trace| ==>
      LegalEdge(trace[i])
      && (trace[i].from == Told(trace[..i]) || (trace[i] == Edge(Closed, Open) && Told(trace[..i]) == Open))
  }

  lemma PathGrows(trace: seq<Edge>, e: Edge)
    ensures IsPath(trace) && LegalEdge(e) && e.from == Told(trace) ==> IsPath(trace + [e])
    ensures IsPathWithSilentClose(trace) && LegalEdge(e)
            && (e.from == Told(trace) || (e == Edge(Closed, Open) && Told(trace) == Open))
            ==> IsPathWithSilentClose(trace + [e])
  {
    var more := trace + [e];
    assert forall i :: 0 <= i < |trace| ==> more[i] == trace[i] && more[..i] == trace[..i];
    assert more[..|trace|] == trace;
  }

  /** Every operation appends at most one edge, and an offered gate implies a trip time. */
  lemma StepAppends(c: Config, b: Breaker, op: Op)
    requires ValidConfig(c) && (b.halfOpen.Some? ==> b.openedAt.Some?)
    ensures var b' := Step(c, b, op);
            && (b'.halfOpen.Some? ==> b'.openedAt.Some?)
            && (b'.trace == b.trace
                || (b'.trace == b.trace + [Edge(StateOf(b), StateOf(b'))] && LegalEdge(Edge(StateOf(b), StateOf(b')))))
            && (b'.trace == b.trace ==>
                  StateOf(b') == StateOf(b) || (!UsesWindow(c) && StateOf(b) == Open && StateOf(b') == Closed))
  {
    hide Trips, WeightAfter, Blend, Ratio;
  }

  /**
   * Windowed strategies: over every run the listener sees a path from Closed whose last
   * target is the breaker's actual state.
   */
  lemma {:induction false} ListenerFollowsWindowedBreaker(c: Config, now: int, ops: seq<Op>)
    requires ValidConfig(c) && UsesWindow(c)
    ensures var b := Run(c, NewBreaker(c, now), ops);
            && (b.halfOpen.Some? ==> b.openedAt.Some?)
            && IsPath(b.trace) && Told(b.trace) == StateOf(b)
  {
    hide Step, IsPath;
    if ops != [] {
      var before := Run(c, NewBreaker(c, now), ops[..|ops| - 1]);
      ListenerFollowsWindowedBreaker(c, now, ops[..|ops| - 1]);
      StepAppends(c, before, ops[|ops| - 1]);
      PathGrows(before.trace, Edge(StateOf(before), StateOf(Run(c, NewBreaker(c, now), ops))));
    } else {
      EmptyPath();
    }
  }

  lemma EmptyPath()
    ensures IsPath([]) && IsPathWithSilentClose([])
  {
  }

  /**
   * The consecutive strategy: the same, except that a late success silently closes an open
   * breaker, so the listener may still believe in Open.
   */
  lemma {:induction false} ListenerFollowsConsecutiveBreaker(c: Config, now: int, ops: seq<Op>)
    requires ValidConfig(c) && !UsesWindow(c)
    ensures var b := Run(c, NewBreaker(c, now), ops);
            && (b.halfOpen.Some? ==> b.openedAt.Some?)
            && IsPathWithSilentClose(b.trace)
            && (Told(b.trace) == StateOf(b) || (Told(b.trace) == Open && StateOf(b) == Closed))
  {
    hide Step, IsPathWithSilentClose;
    if ops != [] {
      var before := Run(c, NewBreaker(c, now), ops[..|ops| - 1]);
      ListenerFollowsConsecutiveBreaker(c, now, ops[..|ops| - 1]);
      StepAppends(c, before, ops[|ops| - 1]);
      PathGrows(before.trace, Edge(StateOf(before), StateOf(Run(c, NewBreaker(c, now), ops))));
    } else {
      EmptyPath();
    }
  }

  /** A success recorded while the breaker is open and no gate is offered: a call admitted before the trip. */
  predicate Slips(b: Breaker, op: Op) {
    op.Record? && op.success && StateOf(b) == Open
  }

  /** With the consecutive strategy such a record closes the breaker without a word, and nothing else changes it so. */
  lemma SlipEffect(c: Config, b: Breaker, op: Op)
    requires ValidConfig(c) && !UsesWindow(c) && (b.halfOpen.Some? ==> b.openedAt.Some?)
    ensures var b' := Step(c, b, op);
            && (Slips(b, op) ==> b'.trace == b.trace && StateOf(b') == Closed)
            && (!Slips(b, op) && b'.trace == b.trace ==> StateOf(b') == StateOf(b))
  {
  }

  /** Whether such a record came in since the listener was last told something. */
  predicate SlippedSinceTold(c: Config, now: int, ops: seq<Op>)
    requires ValidConfig(c)
  {
    ops != []
    && var rest := ops[..|ops| - 1];
       var before := Run(c, NewBreaker(c, now), rest);
       && Step(c, before, ops[|ops| - 1]).trace == before.trace
       && (SlippedSinceTold(c, now, rest) || Slips(before, ops[|ops| - 1]))
  }

  /** Exactly when the listener of a consecutive breaker is right about its state. */
  lemma {:induction false} ListenerIsRightIff(c: Config, now: int, ops: seq<Op>)
    requires ValidConfig(c) && !UsesWindow(c)
    ensures var b := Run(c, NewBreaker(c, now), ops);
            Told(b.trace) == StateOf(b) <==> !SlippedSinceTold(c, now, ops)
  {
    if ops != [] {
      var rest, last := ops[..|ops| - 1], ops[|ops| - 1];
      var before := Run(c, NewBreaker(c, now), rest);
      ListenerIsRightIff(c, now, rest);
      ListenerFollowsConsecutiveBreaker(c, now, rest);
      StepAppends(c, before, last);
      SlipEffect(c, before, last);
      hide Step, IsPathWithSilentClose, IsPath;
    }
  }

  /** No success was ever recorded while the breaker was open without a gate. */
  ghost predicate NeverSlips(c: Config, now: int, ops: seq<Op>)
    requires ValidConfig(c)
  {
    forall k :: 0 <= k < |ops| ==> !Slips(Run(c, NewBreaker(c, now), ops[..k]), ops[k])
  }

  lemma NeverSlipsStep(c: Config, now: int, ops: seq<Op>)
    requires ValidConfig(c) && ops != []
    ensures var rest := ops[..|ops| - 1];
            NeverSlips(c, now, ops) <==> NeverSlips(c, now, rest) && !Slips(Run(c, NewBreaker(c, now), rest), ops[|ops| - 1])
  {
    hide Run, Slips;
    var rest := ops[..|ops| - 1];
    assert forall k :: 0 <= k < |rest| ==> rest[..k] == ops[..k] && rest[k] == ops[k];
  }

  /** A broken path stays broken, and a path grows only from where it ends. */
  lemma PathShrinks(trace: seq<Edge>, e: Edge)
    ensures IsPath(trace + [e]) ==> IsPath(trace) && e.from == Told(trace)
  {
    var more := trace + [e];
    assert forall i :: 0 <= i < |trace| ==> more[i] == trace[i] && more[..i] == trace[..i];
    assert more[..|trace|] == trace && more[|trace|] == e;
  }

  /**
   * Exactly which runs of the consecutive strategy the listener can follow, every transition
   * starting where the last one ended and the last one being the state: those in which no
   * success is ever recorded while the breaker is open without a gate.
   */
  lemma {:induction false} ListenerFollowsConsecutiveIff(c: Config, now: int, ops: seq<Op>)
    requires ValidConfig(c) && !UsesWindow(c)
    ensures var b := Run(c, NewBreaker(c, now), ops);
            IsPath(b.trace) && Told(b.trace) == StateOf(b) <==> NeverSlips(c, now, ops)
  {
    if ops == [] {
      EmptyPath();
    } else {
      var rest, last := ops[..|ops| - 1], ops[|ops| - 1];
      var before := Run(c, NewBreaker(c, now), rest);
      ListenerFollowsConsecutiveIff(c, now, rest);
      ListenerFollowsConsecutiveBreaker(c, now, rest);
      NeverSlipsStep(c, now, ops);
      StepAppends(c, before, last);
      SlipEffect(c, before, last);
      hide Step, IsPathWithSilentClose, IsPath, NeverSlips;
      var e := Edge(StateOf(before), StateOf(Run(c, NewBreaker(c, now), ops)));
      PathGrows(before.trace, e);
      PathShrinks(before.trace, e);
    }
  }

  /** The silent edge is real: fail, succeed late, fail again, and the listener hears Closed to Open twice in a row. */
  lemma LateSuccessClosesSilently(c: Config)
    requires ValidConfig(c) && !UsesWindow(c) && c.threshold == 1
    ensures var ops := [Record(0, false, 0), Record(1, true, 0), Record(2, false, 0)];
            var b := Run(c, NewBreaker(c, 0), ops);
            && b.trace == [Edge(Closed, Open), Edge(Closed, Open)]
            && !IsPath(b.trace)
  {
    var ops := [Record(0, false, 0), Record(1, true, 0), Record(2, false, 0)];
    assert ops[..2] == [ops[0], ops[1]] && ops[..2][..1] == [ops[0]] && ops[..2][..1][..0] == [];
    var b0 := NewBreaker(c, 0);
    var b1 := Step(c, b0, ops[0]);
    var b2 := Step(c, b1, ops[1]);
    var b3 := Step(c, b2, ops[2]);
    assert b1.trace == [Edge(Closed, Open)] && b2.trace == b1.trace;
    assert Run(c, b0, []) == b0 && Run(c, b0, [ops[0]]) == b1 && Run(c, b0, [ops[0], ops[1]]) == b2;
    assert Run(c, b0, ops) == b3;
    assert b3.trace[..1] == [Edge(Closed, Open)];
  }
}
