// Outlier suspension (cloud/loadbalance/tracker.go).
//
// The class methods are proved against step functions on an immutable snapshot of the
// tracker. Two theorems then hold over every run: the suspended gauge is the number of
// suspended addresses, and an address is suspended exactly while its latest records are
// an unbroken run of at least Threshold failures.
module SuspensionTracker {
  import opened Discovery
  import opened Options
  import opened Sets

  const DEFAULT_SUSPEND_FOR: int := 5_000_000_000  // nanoseconds

  /** suspendedAt is None for the zero time, which means "not suspended". */
  datatype SuspendState = SuspendState(failures: nat, halfOpen: bool, suspendedAt: Option<int>)

  const FRESH := SuspendState(0, false, None)

  datatype Snapshot = Snapshot(
    threshold: int,
    suspendFor: int,
    states: map<string, SuspendState>,
    suspensions: nat,   // event counter
    suspended: int)     // gauge

  function StateOf(t: Snapshot, addr: string): SuspendState {
    if addr in t.states then t.states[addr] else FRESH
  }

  predicate Suspended(t: Snapshot, addr: string) {
    StateOf(t, addr).suspendedAt.Some?
  }

  /** Suspended and inside its cool-down window. */
  predicate CoolingDown(t: Snapshot, addr: string, now: int) {
    var at := StateOf(t, addr).suspendedAt;
    at.Some? && now - at.value < t.suspendFor
  }

  function Configured(t: Snapshot, threshold: int, suspendFor: int): Snapshot {
    t.(threshold := threshold,
       suspendFor := if suspendFor <= 0 then DEFAULT_SUSPEND_FOR else suspendFor)
  }

  /** Folds one request outcome in. */
  function Recorded(t: Snapshot, addr: string, success: bool, now: int): Snapshot {
    if t.threshold <= 0 then t
    else
      var s := StateOf(t, addr);
      if success then
        t.(states := t.states[addr := FRESH],
           suspended := if s.suspendedAt.Some? || s.halfOpen then t.suspended - 1 else t.suspended)
      else if s.halfOpen then
        t.(states := t.states[addr := SuspendState(s.failures, false, Some(now))],
           suspensions := t.suspensions + 1)
      else if s.failures + 1 >= t.threshold && s.suspendedAt.None? then
        t.(states := t.states[addr := SuspendState(s.failures + 1, false, Some(now))],
           suspensions := t.suspensions + 1,
           suspended := t.suspended + 1)
      else
        t.(states := t.states[addr := SuspendState(s.failures + 1, false, s.suspendedAt)])
  }

  /** Admission of one address: an elapsed cool-down turns into a half-open trial. */
  function Admitted(t: Snapshot, addr: string, now: int): Snapshot {
    if Suspended(t, addr) && !CoolingDown(t, addr, now)
    then t.(states := t.states[addr := StateOf(t, addr).(halfOpen := true)])
    else t
  }

  function AdmittedAll(t: Snapshot, eps: seq<Endpoint>, now: int): Snapshot {
    if eps == [] then t else Admitted(AdmittedAll(t, eps[..|eps| - 1], now), eps[|eps| - 1].addr, now)
  }

  /** The snapshot after Admissible: nothing moves while the tracker is disabled. */
  function Screened(t: Snapshot, eps: seq<Endpoint>, now: int): Snapshot {
    if t.threshold <= 0 then t else AdmittedAll(t, eps, now)
  }

  /** The endpoints of eps that are not cooling down, in order. */
  function NotCooling(t: Snapshot, eps: seq<Endpoint>, now: int): seq<Endpoint> {
    if eps == [] then []
    else
      var before, last := NotCooling(t, eps[..|eps| - 1], now), eps[|eps| - 1];
      if CoolingDown(t, last.addr, now) then before else before + [last]
  }

  lemma {:induction false} AdmittedAllFrame(t: Snapshot, eps: seq<Endpoint>, now: int)
    ensures var t' := AdmittedAll(t, eps, now);
            && t'.threshold == t.threshold && t'.suspendFor == t.suspendFor
            && t'.suspensions == t.suspensions && t'.suspended == t.suspended
            && forall a :: StateOf(t', a).suspendedAt == StateOf(t, a).suspendedAt
                        && StateOf(t', a).failures == StateOf(t, a).failures
  {
    if eps != [] {
      AdmittedAllFrame(t, eps[..|eps| - 1], now);
    }
  }

  class Tracker {
    var threshold: int
    var suspendFor: int
    var states: map<string, SuspendState>
    var suspensions: nat
    var suspended: int

    function Abs(): Snapshot
      reads this
    {
      Snapshot(threshold, suspendFor, states, suspensions, suspended)
    }

    constructor (threshold: int, suspendFor: int)
      ensures Abs() == Configured(Snapshot(0, 0, map[], 0, 0), threshold, suspendFor)
    {
      this.threshold := threshold;
      this.suspendFor := if suspendFor <= 0 then DEFAULT_SUSPEND_FOR else suspendFor;
      states, suspensions, suspended := map[], 0, 0;
    }

    method SetConfig(threshold: int, suspendFor: int)
      modifies this
      ensures Abs() == Configured(old(Abs()), threshold, suspendFor)
    {
      this.suspendFor := suspendFor;
      if suspendFor <= 0 {
        this.suspendFor := DEFAULT_SUSPEND_FOR;
      }
      this.threshold := threshold;
    }

    method AdmitLocked(addr: string, now: int) returns (ok: bool)
      modifies this
      ensures Abs() == Admitted(old(Abs()), addr, now)
      ensures ok <==> !CoolingDown(old(Abs()), addr, now)
    {
      if addr !in states || states[addr].suspendedAt.None? {
        return true;
      }
      var s := states[addr];
      if now - s.suspendedAt.value < suspendFor {
        return false;
      }
      if !s.halfOpen {
        states := states[addr := s.(halfOpen := true)];
      } else {
        assert states == states[addr := s];
      }
      return true;
    }

    /** Returns, in order, exactly the endpoints that are not cooling down; all of them when disabled. */
    method Admissible(eps: seq<Endpoint>, now: int) returns (out: seq<Endpoint>)
      modifies this
      ensures Abs() == Screened(old(Abs()), eps, now)
      ensures out == if old(threshold) <= 0 then eps else NotCooling(old(Abs()), eps, now)
    {
      if threshold <= 0 || |eps| == 0 {
        return eps;
      }
      ghost var t := Abs();
      out := [];
      for i := 0 to |eps|
        invariant Abs() == AdmittedAll(t, eps[..i], now)
        invariant out == NotCooling(t, eps[..i], now)
      {
        assert eps[..i + 1][..i] == eps[..i];
        AdmittedAllFrame(t, eps[..i], now);
        var ok := AdmitLocked(eps[i].addr, now);
        if ok {
          out := out + [eps[i]];
        }
      }
      assert eps[..|eps|] == eps;
    }

    /** Admissible with a fallback: a fully suspended set is probed rather than black-holed. */
    method Allows(eps: seq<Endpoint>, now: int) returns (out: seq<Endpoint>)
      modifies this
      ensures Abs() == Screened(old(Abs()), eps, now)
      ensures out == (var kept := NotCooling(old(Abs()), eps, now);
                      if old(threshold) <= 0 || kept == [] then eps else kept)
    {
      out := Admissible(eps, now);
      if |out| == 0 {
        return eps;
      }
    }

    method Record(addr: string, success: bool, now: int)
      modifies this
      ensures Abs() == Recorded(old(Abs()), addr, success, now)
    {
      if threshold <= 0 {
        return;
      }
      var s := if addr in states then states[addr] else FRESH;
      if success {
        var wasDown := s.suspendedAt.Some? || s.halfOpen;
        states := states[addr := SuspendState(0, false, None)];
        if wasDown {
          suspended := suspended - 1;
        }
        return;
      }
      if s.halfOpen {
        states := states[addr := s.(halfOpen := false, suspendedAt := Some(now))];
        suspensions := suspensions + 1;
        return;
      }
      s := s.(failures := s.failures + 1);
      if s.failures >= threshold && s.suspendedAt.None? {
        s := s.(suspendedAt := Some(now));
        suspensions := suspensions + 1;
        suspended := suspended + 1;
      }
      states := states[addr := s];
    }

    method IsSuspended(addr: string, now: int) returns (b: bool)
      ensures b <==> threshold > 0 && CoolingDown(Abs(), addr, now)
    {
      if threshold <= 0 {
        return false;
      }
      if addr !in states || states[addr].suspendedAt.None? {
        return false;
      }
      return now - states[addr].suspendedAt.value < suspendFor;
    }
  }

  // ---- Runs ---------------------------------------------------------------

  datatype Op =
    | Record(addr: string, success: bool, now: int)
    | Screen(eps: seq<Endpoint>, now: int)
    | Configure(threshold: int, suspendFor: int)

  function Step(t: Snapshot, op: Op): Snapshot {
    match op
    case Record(addr, success, now) => Recorded(t, addr, success, now)
    case Screen(eps, now) => Screened(t, eps, now)
    case Configure(threshold, suspendFor) => Configured(t, threshold, suspendFor)
  }

  function Run(t: Snapshot, ops: seq<Op>): Snapshot {
    if ops == [] then t else Step(Run(t, ops[..|ops| - 1]), ops[|ops| - 1])
  }

  function NewSnapshot(threshold: int, suspendFor: int): Snapshot {
    Configured(Snapshot(0, 0, map[], 0, 0), threshold, suspendFor)
  }

  function SuspendedAddrs(states: map<string, SuspendState>): set<string> {
    set a | a in states && states[a].suspendedAt.Some?
  }

  /** What every step keeps. */
  ghost predicate Inv(t: Snapshot) {
    && t.suspended == |SuspendedAddrs(t.states)|
    && (forall a :: a in t.states && t.states[a].halfOpen ==> t.states[a].suspendedAt.Some?)
    && t.suspended <= t.suspensions
  }

  lemma {:induction false} AdmittedAllKeepsInv(t: Snapshot, eps: seq<Endpoint>, now: int)
    requires Inv(t)
    ensures Inv(AdmittedAll(t, eps, now))
  {
    if eps != [] {
      var n := |eps| - 1;
      AdmittedAllKeepsInv(t, eps[..n], now);
      var before := AdmittedAll(t, eps[..n], now);
      var after := Admitted(before, eps[n].addr, now);
      assert SuspendedAddrs(after.states) == SuspendedAddrs(before.states);
    }
  }

  /** Replacing one address's state moves the count by that address alone. */
  lemma ReplacedState(states: map<string, SuspendState>, addr: string, s: SuspendState)
    ensures |SuspendedAddrs(states[addr := s])| ==
              |SuspendedAddrs(states)|
              - (if addr in states && states[addr].suspendedAt.Some? then 1 else 0)
              + (if s.suspendedAt.Some? then 1 else 0)
  {
    var down, down' := SuspendedAddrs(states), SuspendedAddrs(states[addr := s]);
    OneChanges(down, down', addr);
  }

  lemma RecordedKeepsInv(t: Snapshot, addr: string, success: bool, now: int)
    requires Inv(t)
    ensures Inv(Recorded(t, addr, success, now))
  {
    var t' := Recorded(t, addr, success, now);
    if t.threshold > 0 {
      ReplacedState(t.states, addr, StateOf(t', addr));
      assert t'.states == t.states[addr := StateOf(t', addr)];
    }
    hide SuspendedAddrs;
  }

  /** Over every run the gauge counts the suspended addresses and a half-open address is suspended. */
  lemma {:induction false} GaugeCountsSuspended(threshold: int, suspendFor: int, ops: seq<Op>)
    ensures var t := Run(NewSnapshot(threshold, suspendFor), ops);
            && t.suspended == |SuspendedAddrs(t.states)|
            && (forall a :: a in t.states && t.states[a].halfOpen ==> t.states[a].suspendedAt.Some?)
            && t.suspended <= t.suspensions
  {
    RunKeepsInv(NewSnapshot(threshold, suspendFor), ops);
  }

  lemma {:induction false} RunKeepsInv(t: Snapshot, ops: seq<Op>)
    requires Inv(t)
    ensures Inv(Run(t, ops))
  {
    if ops != [] {
      var n := |ops| - 1;
      RunKeepsInv(t, ops[..n]);
      var before := Run(t, ops[..n]);
      match ops[n]
      case Record(addr, success, now) => RecordedKeepsInv(before, addr, success, now);
      case Screen(eps, now) => AdmittedAllKeepsInv(before, eps, now);
      case Configure(_, _) =>
    }
  }

  /** How many failures addr has recorded since its last success. */
  function FailureStreak(ops: seq<Op>, addr: string): nat {
    if ops == [] then 0
    else
      var before, last := FailureStreak(ops[..|ops| - 1], addr), ops[|ops| - 1];
      if !last.Record? || last.addr != addr then before
      else if last.success then 0
      else before + 1
  }

  ghost predicate NoReconfiguration(ops: seq<Op>) {
    forall i :: 0 <= i < |ops| ==> !ops[i].Configure?
  }

  /**
   * While the configuration stands, an address is suspended exactly when its failure streak
   * has reached the threshold: half-open trials and cool-downs neither add nor lose one.
   */
  lemma {:induction false} SuspendedIffStreak(threshold: int, suspendFor: int, ops: seq<Op>, addr: string)
    requires threshold > 0 && NoReconfiguration(ops)
    ensures var t := Run(NewSnapshot(threshold, suspendFor), ops);
            && t.threshold == threshold
            && (Suspended(t, addr) <==> FailureStreak(ops, addr) >= threshold)
            && (!Suspended(t, addr) ==> StateOf(t, addr).failures == FailureStreak(ops, addr))
            && (StateOf(t, addr).halfOpen ==> Suspended(t, addr))
  {
    if ops != [] {
      var n := |ops| - 1;
      SuspendedIffStreak(threshold, suspendFor, ops[..n], addr);
      var before := Run(NewSnapshot(threshold, suspendFor), ops[..n]);
      RunKeepsInv(NewSnapshot(threshold, suspendFor), ops[..n]);
      RunKeepsInv(NewSnapshot(threshold, suspendFor), ops);
      if ops[n].Screen? {
        AdmittedAllFrame(before, ops[n].eps, ops[n].now);
      }
    }
  }

  /** The admissible list keeps the order of the list it was made from, repetitions included. */
  lemma {:induction false} AdmissibleInOrder(t: Snapshot, a: seq<Endpoint>, b: seq<Endpoint>, now: int)
    ensures NotCooling(t, a + b, now) == NotCooling(t, a, now) + NotCooling(t, b, now)
  {
    hide CoolingDown;
    if b == [] {
      assert a + b == a;
    } else {
      var n := |b| - 1;
      AdmissibleInOrder(t, a, b[..n], now);
      assert (a + b)[..|a + b| - 1] == a + b[..n];
    }
  }

  /** Membership in the admissible list, stated without the filter's recursion. */
  lemma {:induction false} AdmissibleExactly(t: Snapshot, eps: seq<Endpoint>, now: int, e: Endpoint)
    ensures e in NotCooling(t, eps, now) <==> e in eps && !CoolingDown(t, e.addr, now)
  {
    if eps != [] {
      var n := |eps| - 1;
      AdmissibleExactly(t, eps[..n], now, e);
      assert eps == eps[..n] + [eps[n]];
    }
  }

  // ---- When an address is out ---------------------------------------------

  /** An address as its history tells: in rotation, or out since an instant, perhaps with a trial admitted since. */
  datatype Standing = In | Out(since: int, trial: bool)

  /**
   * A failure takes an address out when it completes a streak of threshold, and again from the
   * instant at which a trial fails; other failures move nothing. A trial is admitted by the
   * first screening that lists the address suspendFor or more after that instant.
   */
  function StandingOf(threshold: int, suspendFor: int, ops: seq<Op>, addr: string): Standing {
    if ops == [] then In
    else
      var before := StandingOf(threshold, suspendFor, ops[..|ops| - 1], addr);
      match ops[|ops| - 1]
      case Record(a, success, now) =>
        if a != addr then before
        else if success then In
        else if before.Out? then (if before.trial then Out(now, false) else before)
        else if FailureStreak(ops, addr) >= threshold then Out(now, false)
        else In
      case Screen(eps, now) =>
        if before.Out? && addr in Addrs(eps) && now >= before.since + suspendFor then before.(trial := true) else before
      case Configure(_, _) => before
  }

  lemma {:induction false} ScreenAdmitsTrials(t: Snapshot, eps: seq<Endpoint>, now: int, addr: string)
    ensures StateOf(AdmittedAll(t, eps, now), addr).halfOpen <==>
              || StateOf(t, addr).halfOpen
              || (addr in Addrs(eps) && Suspended(t, addr) && !CoolingDown(t, addr, now))
  {
    if eps != [] {
      var n := |eps| - 1;
      ScreenAdmitsTrials(t, eps[..n], now, addr);
      AdmittedAllFrame(t, eps[..n], now);
      assert Addrs(eps) == Addrs(eps[..n]) + {eps[n].addr};
    }
  }

  /**
   * While the configuration stands, an address is suspended since the latest failure that
   * completed a streak or failed a trial, and cooling down for exactly SuspendFor from then:
   * that is when Admissible leaves it out.
   */
  lemma {:induction false} OutSinceLatestTrip(threshold: int, suspendFor: int, ops: seq<Op>, addr: string)
    requires threshold > 0 && suspendFor > 0 && NoReconfiguration(ops)
    ensures var t, st := Run(NewSnapshot(threshold, suspendFor), ops), StandingOf(threshold, suspendFor, ops, addr);
            && t.threshold == threshold && t.suspendFor == suspendFor
            && StateOf(t, addr).suspendedAt == (if st.Out? then Some(st.since) else None)
            && (StateOf(t, addr).halfOpen <==> st.Out? && st.trial)
            && (forall now :: CoolingDown(t, addr, now) <==> st.Out? && now < st.since + suspendFor)
  {
    SuspendedIffStreak(threshold, suspendFor, ops, addr);
    if ops != [] {
      var n := |ops| - 1;
      var before := Run(NewSnapshot(threshold, suspendFor), ops[..n]);
      OutSinceLatestTrip(threshold, suspendFor, ops[..n], addr);
      SuspendedIffStreak(threshold, suspendFor, ops[..n], addr);
      if ops[n].Screen? {
        AdmittedAllFrame(before, ops[n].eps, ops[n].now);
        ScreenAdmitsTrials(before, ops[n].eps, ops[n].now, addr);
        hide Addrs;
      }
    }
  }

  /** Whether the latest operation takes an address out, for the first time or again. */
  predicate Trips(threshold: int, suspendFor: int, ops: seq<Op>)
    requires ops != []
  {
    var last := ops[|ops| - 1];
    && last.Record? && !last.success
    && var before := StandingOf(threshold, suspendFor, ops[..|ops| - 1], last.addr);
       if before.Out? then before.trial else FailureStreak(ops, last.addr) >= threshold
  }

  function TripCount(threshold: int, suspendFor: int, ops: seq<Op>): nat {
    if ops == [] then 0
    else TripCount(threshold, suspendFor, ops[..|ops| - 1]) + if Trips(threshold, suspendFor, ops) then 1 else 0
  }

  /** The event counter counts those trips. */
  lemma {:induction false} SuspensionsCountTrips(threshold: int, suspendFor: int, ops: seq<Op>)
    requires threshold > 0 && suspendFor > 0 && NoReconfiguration(ops)
    ensures Run(NewSnapshot(threshold, suspendFor), ops).suspensions == TripCount(threshold, suspendFor, ops)
  {
    if ops != [] {
      var n := |ops| - 1;
      SuspensionsCountTrips(threshold, suspendFor, ops[..n]);
      var before := Run(NewSnapshot(threshold, suspendFor), ops[..n]);
      var addr := if ops[n].Record? then ops[n].addr else "";
      OutSinceLatestTrip(threshold, suspendFor, ops[..n], addr);
      SuspendedIffStreak(threshold, suspendFor, ops[..n], addr);
      if ops[n].Screen? {
        AdmittedAllFrame(before, ops[n].eps, ops[n].now);
      }
      hide StandingOf;
    }
  }

  /** A tracker with a threshold of zero or less records nothing and screens nothing; the default cool-down is five seconds. */
  lemma DisabledDoesNothing(t: Snapshot, op: Op)
    ensures t.threshold <= 0 && !op.Configure? ==> Step(t, op) == t
    ensures op.Configure? ==>
              Step(t, op) == t.(threshold := op.threshold,
                                suspendFor := if op.suspendFor > 0 then op.suspendFor else 5_000_000_000)
  {
  }
}
