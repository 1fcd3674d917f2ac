// The N-permit half-open gate under concurrent, retrying calls.
//
// Execute takes one permit per attempt but records once per call, and two early returns
// record nothing. HalfOpenGate settles exactly which configurations this can leave with
// an empty gate and nobody left to resolve it.
module HalfOpenGate {
  import opened Options
  import opened CircuitBreaking
  import opened GovernedCalls
  import opened ProtectedCalls
  import opened Sets

  /** The call has not recorded yet and is still on a path that may. */
  predicate Pending(c: Call) {
    !c.phase.Entering? && !c.phase.Leaving? && !c.phase.Returned?
  }

  /** The calls that hold a trial of the latest gate and have not recorded yet. */
  function OpenTrials(s: Sys): set<nat> {
    set id | id in s.calls && id in s.tags && s.tags[id] == s.gate && s.gate > 0 && Pending(s.calls[id])
  }

  /** Before its first permit a call belongs to no gate. */
  predicate NotAskedYet(c: Call) {
    c.runs == 0 && (c.phase.Entering? || c.phase.AtBudget? || c.phase.AtRate? || c.phase.AtBreaker?)
  }

  /** What every step keeps, whatever the configuration. */
  ghost predicate GateInv(w: World, s: Sys) {
    && s.tags.Keys == s.calls.Keys
    && (forall id :: id in s.calls ==> s.tags[id] <= s.gate)
    && (forall id :: id in s.calls && NotAskedYet(s.calls[id]) ==> s.tags[id] == 0)
    && (s.breaker.halfOpen.Some? ==>
          && s.breaker.openedAt.Some?
          && s.gate > 0
          && s.breaker.halfOpenOK < Trials(w.breaker)
          && s.breaker.halfOpen.value + s.admitted == Trials(w.breaker)
          && s.breaker.halfOpen.value + |OpenTrials(s)| <= Trials(w.breaker))
  }

  /** Permits left, trials still out and successes so far always cover the whole gate. */
  ghost predicate Covered(w: World, s: Sys) {
    s.breaker.halfOpen.Some? ==>
      s.breaker.halfOpen.value + |OpenTrials(s)| + s.breaker.halfOpenOK >= Trials(w.breaker)
  }

  /** A retry can find the budget exhausted: enough calls fit beside it to hold every budget slot. */
  predicate BudgetCanRunOut(l: Limits) {
    l.retryBudget > 0 && (l.maxConcurrent == 0 || l.maxConcurrent > l.retryBudget)
  }

  /** Retries exist, and they either take several permits of one gate or can leave without recording. */
  predicate CanWedge(w: World) {
    w.maxAttempts >= 2 && (Trials(w.breaker) >= 2 || w.limits.rateLimited || BudgetCanRunOut(w.limits))
  }

  lemma ArriveKeepsGate(w: World, s: Sys, e: Event)
    requires ValidConfig(w.breaker) && GateInv(w, s) && e.Arrive? && Advance(w, s, e).Some?
    ensures var s' := Advance(w, s, e).value;
            GateInv(w, s') && (Covered(w, s) ==> Covered(w, s'))
  {
    var s' := Advance(w, s, e).value;
    assert OpenTrials(s') == OpenTrials(s);
  }

  /** How one call moves among not asked yet, pending and done. */
  lemma CallMoves(l: Limits, c: Call, a: Action)
    requires CallInv(l, c) && Next(l, c, a).Some?
    ensures NotAskedYet(Next(l, c, a).value) ==> NotAskedYet(c)
    ensures !Pending(c) && Pending(Next(l, c, a).value) ==> NotAskedYet(c)
    ensures !a.Permit? && !a.Report? && Pending(c) && !Pending(Next(l, c, a).value) ==>
              NotAskedYet(c) || c.runs > 0 || !l.guarded
    ensures a.Permit? ==> Pending(c) && c.attempt == c.runs < c.attempts
    ensures a == Permit(true) ==> Pending(Next(l, c, a).value) && !NotAskedYet(Next(l, c, a).value)
    ensures a.Report? ==> Pending(c) && !Pending(Next(l, c, a).value)
  {
  }

  /** Actions that touch neither the breaker nor the tags. */
  lemma LocalKeepsGate(w: World, s: Sys, e: Event)
    requires w.limits.guarded && ValidConfig(w.breaker) && GateInv(w, s) && CapacityInv(w, s)
    requires e.Act? && !e.action.Permit? && !e.action.Report? && Advance(w, s, e).Some?
    ensures var s' := Advance(w, s, e).value;
            && GateInv(w, s')
            && (Covered(w, s) && !CanWedge(w) ==> Covered(w, s'))
  {
    var s' := Advance(w, s, e).value;
    var c, c' := s.calls[e.id], s'.calls[e.id];
    assert CallInv(w.limits, c);
    CallMoves(w.limits, c, e.action);
    hide Next, CallInv, NotAskedYet, Pending, Permits, CanWedge;
    OneChanges(OpenTrials(s), OpenTrials(s'), e.id);
    if e.id in OpenTrials(s) && e.id !in OpenTrials(s') {
      LeavesUnrecorded(w, s, e);
    }
  }

  /** A pending call that ran and leaves without recording found its budget empty or its rate limited. */
  lemma LeavesUnrecorded(w: World, s: Sys, e: Event)
    requires w.limits.guarded && ValidConfig(w.breaker) && CapacityInv(w, s)
    requires e.Act? && !e.action.Permit? && !e.action.Report? && Advance(w, s, e).Some?
    requires s.calls[e.id].runs > 0 && Pending(s.calls[e.id]) && !Pending(Advance(w, s, e).value.calls[e.id])
    ensures CanWedge(w)
  {
    var c := s.calls[e.id];
    assert CallInv(w.limits, c);
    if e.action == Budget(false) {
      assert c.phase.AtBudget? && !c.held;
      assert BudgetHolders(s.calls) <= SlotHolders(s.calls) || w.limits.maxConcurrent == 0;
      if w.limits.maxConcurrent > 0 {
        assert e.id in SlotHolders(s.calls) - BudgetHolders(s.calls);
        StrictlyFewer(BudgetHolders(s.calls), SlotHolders(s.calls), e.id);
      }
    }
  }

  lemma StrictlyFewer(a: set<nat>, b: set<nat>, x: nat)
    requires a <= b && x in b && x !in a
    ensures |a| < |b|
  {
    assert a <= b - {x};
    SubsetSize(a, b - {x});
  }

  /** What a permit question does to the breaker. */
  lemma AskEffect(c: Config, b: Breaker, now: int)
    requires b.halfOpen.Some? ==> b.openedAt.Some?
    ensures var b' := Asked(c, b, now);
            && (b'.halfOpen.Some? ==> CooledDown(c, b, now) || b' == b)
            && (!CooledDown(c, b, now) ==> b' == b && (Allows(c, b, now) <==> b.openedAt.None?))
            && (CooledDown(c, b, now) ==>
                  && b'.halfOpen.Some? && b'.openedAt.Some?
                  && b'.halfOpenOK == (if b.halfOpen.None? then 0 else b.halfOpenOK)
                  && var p := if b.halfOpen.None? then Trials(c) else b.halfOpen.value;
                     && (Allows(c, b, now) <==> p > 0)
                     && b'.halfOpen.value == (if p > 0 then p - 1 else 0))
  {
  }

  /** The system after a permit question, field by field. */
  lemma PermitShape(w: World, s: Sys, e: Event)
    requires w.limits.guarded && ValidConfig(w.breaker)
    requires e.Act? && e.action.Permit? && Advance(w, s, e).Some?
    ensures e.id in s.calls && Next(w.limits, s.calls[e.id], e.action).Some?
    ensures e.action.admitted <==> Allows(w.breaker, s.breaker, e.now)
    ensures var s' := Advance(w, s, e).value;
            && s'.calls == s.calls[e.id := Next(w.limits, s.calls[e.id], e.action).value]
            && s'.breaker == Asked(w.breaker, s.breaker, e.now)
            && s'.gate == (if OpensGate(w, s.breaker, e.now) then s.gate + 1 else s.gate)
            && var taken := e.action.admitted && s'.breaker.halfOpen.Some?;
               && s'.admitted == (if OpensGate(w, s.breaker, e.now) then 0 else s.admitted) + (if taken then 1 else 0)
               && s'.tags == if taken then s.tags[e.id := s'.gate] else s.tags
  {
    hide Next, Asked, Allows, CooledDown;
  }

  lemma PermitOfNewGate(w: World, s: Sys, e: Event)
    requires w.limits.guarded && ValidConfig(w.breaker) && GateInv(w, s) && CapacityInv(w, s)
    requires e.Act? && e.action.Permit? && Advance(w, s, e).Some? && OpensGate(w, s.breaker, e.now)
    ensures GateInv(w, Advance(w, s, e).value) && Covered(w, Advance(w, s, e).value)
  {
    PermitShape(w, s, e);
    var s' := Advance(w, s, e).value;
    var c := s.calls[e.id];
    CallMoves(w.limits, c, e.action);
    AskEffect(w.breaker, s.breaker, e.now);
    hide Advance, Next, CallInv, Asked, Allows, NotAskedYet, Pending;
    assert forall id :: id in OpenTrials(s') ==> id == e.id;
    OneChanges({}, OpenTrials(s'), e.id);
  }

  lemma PermitRefusedBySameGate(w: World, s: Sys, e: Event)
    requires w.limits.guarded && ValidConfig(w.breaker) && GateInv(w, s) && CapacityInv(w, s)
    requires e.Act? && e.action == Permit(false) && Advance(w, s, e).Some?
    requires CooledDown(w.breaker, s.breaker, e.now) && s.breaker.halfOpen.Some?
    ensures var s' := Advance(w, s, e).value;
            && GateInv(w, s')
            && (Covered(w, s) ==> Covered(w, s'))
  {
    PermitShape(w, s, e);
    var s' := Advance(w, s, e).value;
    var c := s.calls[e.id];
    assert CallInv(w.limits, c);
    CallMoves(w.limits, c, e.action);
    AskEffect(w.breaker, s.breaker, e.now);
    RefusedStaysPending(w.limits, c, e.action);
    NotOpening(w, s.breaker, e.now);
    hide Advance, Next, CallInv, Asked, Allows, NotAskedYet, Pending, OpensGate, CapacityInv;
    OneChanges(OpenTrials(s), OpenTrials(s'), e.id);
  }

  lemma PermitGrantedBySameGate(w: World, s: Sys, e: Event)
    requires w.limits.guarded && ValidConfig(w.breaker) && GateInv(w, s) && CapacityInv(w, s)
    requires e.Act? && e.action == Permit(true) && Advance(w, s, e).Some?
    requires CooledDown(w.breaker, s.breaker, e.now) && s.breaker.halfOpen.Some?
    ensures var s' := Advance(w, s, e).value;
            && GateInv(w, s')
            && (Covered(w, s) && !CanWedge(w) ==> Covered(w, s'))
  {
    PermitShape(w, s, e);
    var s' := Advance(w, s, e).value;
    var c := s.calls[e.id];
    assert CallInv(w.limits, c);
    CallMoves(w.limits, c, e.action);
    AskEffect(w.breaker, s.breaker, e.now);
    if !CanWedge(w) {
      SecondTrialNeedsSpare(w, s, e.id);
    }
    NotOpening(w, s.breaker, e.now);
    hide Advance, Next, CallInv, Asked, Allows, NotAskedYet, Pending, CanWedge, OpensGate, CapacityInv;
    OneChanges(OpenTrials(s), OpenTrials(s'), e.id);
  }

  lemma NotOpening(w: World, b: Breaker, now: int)
    requires b.halfOpen.Some?
    ensures !OpensGate(w, b, now)
  {
  }

  /** In a safe configuration a call never takes a second permit of one gate. */
  lemma SecondTrialNeedsSpare(w: World, s: Sys, id: nat)
    requires GateInv(w, s) && CapacityInv(w, s) && id in s.calls && s.calls[id].phase.AtBreaker?
    requires s.breaker.halfOpen.Some? && s.breaker.halfOpen.value > 0 && !CanWedge(w)
    ensures id !in OpenTrials(s)
  {
    assert CallInv(w.limits, s.calls[id]);
    if id in OpenTrials(s) {
      SubsetSize({id}, OpenTrials(s));
    }
  }

  lemma PermitWithoutGate(w: World, s: Sys, e: Event)
    requires w.limits.guarded && ValidConfig(w.breaker) && GateInv(w, s) && CapacityInv(w, s)
    requires e.Act? && e.action.Permit? && Advance(w, s, e).Some?
    requires !CooledDown(w.breaker, s.breaker, e.now)
    ensures var s' := Advance(w, s, e).value;
            && GateInv(w, s')
            && (Covered(w, s) ==> Covered(w, s'))
  {
    PermitShape(w, s, e);
    var s' := Advance(w, s, e).value;
    var c := s.calls[e.id];
    CallMoves(w.limits, c, e.action);
    AskEffect(w.breaker, s.breaker, e.now);
    if e.action == Permit(false) {
      assert CallInv(w.limits, c);
      RefusedStaysPending(w.limits, c, e.action);
    }
    hide Advance, Next, CallInv, Asked, Allows, NotAskedYet, Pending;
    OneChanges(OpenTrials(s), OpenTrials(s'), e.id);
  }

  /** A call asks for a permit. */
  lemma PermitKeepsGate(w: World, s: Sys, e: Event)
    requires w.limits.guarded && ValidConfig(w.breaker) && GateInv(w, s) && CapacityInv(w, s)
    requires e.Act? && e.action.Permit? && Advance(w, s, e).Some?
    ensures var s' := Advance(w, s, e).value;
            && GateInv(w, s')
            && (Covered(w, s) && !CanWedge(w) ==> Covered(w, s'))
  {
    hide GateInv, Covered, CapacityInv, CanWedge, Advance;
    if !CooledDown(w.breaker, s.breaker, e.now) {
      PermitWithoutGate(w, s, e);
    } else if s.breaker.halfOpen.None? {
      PermitOfNewGate(w, s, e);
    } else if e.action == Permit(true) {
      PermitGrantedBySameGate(w, s, e);
    } else {
      PermitRefusedBySameGate(w, s, e);
    }
  }

  /** A refused call with runs keeps its pending trial until it records; one without runs never had one. */
  lemma RefusedStaysPending(l: Limits, c: Call, a: Action)
    requires CallInv(l, c) && Next(l, c, a).Some? && a == Permit(false)
    ensures c.runs > 0 ==> Pending(Next(l, c, a).value)
    ensures c.runs == 0 ==> NotAskedYet(c)
  {
  }

  /** What a recorded outcome does to an offered gate, and that none is offered by recording. */
  lemma ReportEffect(c: Config, b: Breaker, now: int, success: bool, dur: int)
    requires ValidConfig(c) && (b.halfOpen.Some? ==> b.openedAt.Some?)
    ensures var b' := Recorded(c, b, now, success, dur);
            && (b.halfOpen.None? ==> b'.halfOpen.None?)
            && (b.halfOpen.Some? && !success ==> b'.halfOpen.None?)
            && (b.halfOpen.Some? && success ==>
                  if b.halfOpenOK + 1 >= Trials(c) then b'.halfOpen.None?
                  else b' == b.(halfOpenOK := b.halfOpenOK + 1))
  {
    hide Trips, Counted;
  }

  /** A call records its outcome. */
  lemma {:induction false} ReportKeepsGate(w: World, s: Sys, e: Event)
    requires w.limits.guarded && ValidConfig(w.breaker) && GateInv(w, s) && CapacityInv(w, s)
    requires e.Act? && e.action.Report? && Advance(w, s, e).Some?
    ensures var s' := Advance(w, s, e).value;
            && GateInv(w, s')
            && (Covered(w, s) ==> Covered(w, s'))
  {
    var s' := Advance(w, s, e).value;
    var c := s.calls[e.id];
    assert CallInv(w.limits, c);
    CallMoves(w.limits, c, e.action);
    ReportEffect(w.breaker, s.breaker, e.now, e.action.outcome, e.dur);
    hide Next, CallInv, Recorded;
    OneChanges(OpenTrials(s), OpenTrials(s'), e.id);
  }

  ghost predicate SystemInv(w: World, s: Sys) {
    CapacityInv(w, s) && GateInv(w, s) && (!CanWedge(w) ==> Covered(w, s))
  }

  lemma AdvanceKeepsInv(w: World, s: Sys, e: Event)
    requires w.limits.guarded && ValidConfig(w.breaker) && SystemInv(w, s) && Advance(w, s, e).Some?
    ensures SystemInv(w, Advance(w, s, e).value)
  {
    hide GateInv, CapacityInv, Covered, CanWedge;
    if e.Arrive? {
      ArriveKeepsCapacity(w, s, e);
      ArriveKeepsGate(w, s, e);
    } else {
      ActKeepsCapacity(w, s, e);
      if e.action.Permit? {
        PermitKeepsGate(w, s, e);
      } else if e.action.Report? {
        ReportKeepsGate(w, s, e);
      } else {
        LocalKeepsGate(w, s, e);
      }
    }
  }

  lemma IdleIsFine(w: World, now: int)
    ensures SystemInv(w, Idle(w, now))
  {
    assert SlotHolders(map[]) == {} && BudgetHolders(map[]) == {};
  }

  lemma {:induction false} InterleaveKeepsInv(w: World, s: Sys, events: seq<Event>)
    requires w.limits.guarded && ValidConfig(w.breaker) && SystemInv(w, s) && Interleave(w, s, events).Some?
    ensures SystemInv(w, Interleave(w, s, events).value)
  {
    hide SystemInv, Advance;
    if events != [] {
      InterleaveKeepsInv(w, s, events[..|events| - 1]);
      AdvanceKeepsInv(w, Interleave(w, s, events[..|events| - 1]).value, events[|events| - 1]);
    }
  }

  /** No gate ever admits more trials than it has permits, whatever the configuration. */
  lemma GateAdmitsAtMostN(w: World, now: int, events: seq<Event>)
    requires w.limits.guarded && ValidConfig(w.breaker) && Interleave(w, Idle(w, now), events).Some?
    ensures var s := Interleave(w, Idle(w, now), events).value;
            s.breaker.halfOpen.Some? ==>
              && s.admitted + s.breaker.halfOpen.value == Trials(w.breaker)
              && s.breaker.halfOpenOK < Trials(w.breaker)
  {
    IdleIsFine(w, now);
    InterleaveKeepsInv(w, Idle(w, now), events);
  }

  /** The gate is offered, empty, and every call has returned: nobody is left to resolve it. */
  ghost predicate Wedged(s: Sys) {
    && s.breaker.halfOpen == Some(0)
    && forall id :: id in s.calls ==> s.calls[id].phase.Returned?
  }

  /**
   * When the configuration is safe, permits left, open trials and successes always cover the
   * gate, so an empty gate has a call on its way to record.
   */
  lemma EmptyGateHasOpenTrial(w: World, now: int, events: seq<Event>)
    requires w.limits.guarded && ValidConfig(w.breaker) && Interleave(w, Idle(w, now), events).Some?
    requires !CanWedge(w)
    ensures var s := Interleave(w, Idle(w, now), events).value;
            && (s.breaker.halfOpen.Some? ==>
                  && s.breaker.halfOpen.value + |OpenTrials(s)| + s.breaker.halfOpenOK >= Trials(w.breaker)
                  && s.breaker.halfOpenOK < Trials(w.breaker))
            && (s.breaker.halfOpen == Some(0) ==> exists id :: id in OpenTrials(s))
            && !Wedged(s)
  {
    IdleIsFine(w, now);
    InterleaveKeepsInv(w, Idle(w, now), events);
    var s := Interleave(w, Idle(w, now), events).value;
    if s.breaker.halfOpen == Some(0) {
      hide Advance, Interleave, CanWedge, CallInv;
      assert |OpenTrials(s)| > 0;
      var id :| id in OpenTrials(s);
      assert Pending(s.calls[id]);
    }
  }

  // ---- A wedged gate stays wedged -----------------------------------------

  /** Every call has returned or can only be refused, and none has run since. */
  ghost predicate Stuck(w: World, s: Sys, before: set<nat>) {
    && s.breaker.halfOpen == Some(0) && s.breaker.openedAt.Some?
    && forall id :: id in s.calls ==>
         if id in before then s.calls[id].phase.Returned?
         else CallInv(w.limits, s.calls[id]) && s.calls[id].runs == 0 && s.calls[id].attempts >= 1
              && !s.calls[id].phase.Running? && !s.calls[id].phase.Recording? && !s.calls[id].phase.Finishing?
  }

  lemma RefusedCallNeverRuns(l: Limits, c: Call, a: Action)
    requires l.guarded && CallInv(l, c) && c.runs == 0 && c.attempts >= 1 && a != Permit(true)
    requires !c.phase.Running? && !c.phase.Recording? && !c.phase.Finishing?
    requires Next(l, c, a).Some?
    ensures var c' := Next(l, c, a).value;
            && !a.Report? && c'.runs == 0 && c'.attempts >= 1
            && !c'.phase.Running? && !c'.phase.Recording? && !c'.phase.Finishing?
  {
  }

  lemma {:induction false} StuckStays(w: World, s: Sys, e: Event, before: set<nat>)
    requires w.limits.guarded && ValidConfig(w.breaker) && Stuck(w, s, before) && Advance(w, s, e).Some?
    requires e.Arrive? ==> e.attempts >= 1 && e.id !in before
    ensures Stuck(w, Advance(w, s, e).value, before)
  {
    if e.Act? {
      var c := s.calls[e.id];
      if e.id !in before {
        if e.action.Permit? {
          AskEffect(w.breaker, s.breaker, e.now);
          assert e.action == Permit(false);
        }
        RefusedCallNeverRuns(w.limits, c, e.action);
        NextKeepsInv(w.limits, c, e.action);
        hide CallInv, Next;
      }
    } else {
      StartIsFine(w.limits, e.attempts);
      hide CallInv;
    }
  }

  /**
   * Once wedged, always wedged: whatever calls arrive later that make an attempt, at whatever
   * time, every one of them is refused and fn never runs again on this executor.
   */
  lemma {:induction false} WedgedForever(w: World, s: Sys, events: seq<Event>)
    requires w.limits.guarded && ValidConfig(w.breaker) && Wedged(s) && s.breaker.openedAt.Some?
    requires Interleave(w, s, events).Some?
    requires forall i :: 0 <= i < |events| && events[i].Arrive? ==> events[i].attempts >= 1 && events[i].id !in s.calls
    ensures var t := Interleave(w, s, events).value;
            && t.breaker.halfOpen == Some(0)
            && forall id :: id in t.calls && id !in s.calls ==> t.calls[id].runs == 0
  {
    StuckRun(w, s, events);
    hide Interleave;
  }

  lemma {:induction false} StuckRun(w: World, s: Sys, events: seq<Event>)
    requires w.limits.guarded && ValidConfig(w.breaker) && Wedged(s) && s.breaker.openedAt.Some?
    requires Interleave(w, s, events).Some?
    requires forall i :: 0 <= i < |events| && events[i].Arrive? ==> events[i].attempts >= 1 && events[i].id !in s.calls
    ensures Stuck(w, Interleave(w, s, events).value, s.calls.Keys)
  {
    if events != [] {
      StuckRun(w, s, events[..|events| - 1]);
      StuckStays(w, Interleave(w, s, events[..|events| - 1]).value, events[|events| - 1], s.calls.Keys);
    }
  }
}
