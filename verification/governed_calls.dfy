// Many protected calls on one executor, interleaved (cloud/resilience/client_executor.go).
//
// Every step is one atomic action of one call: a semaphore operation, a rate-limit charge,
// a breaker critical section, a return of fn. Two results hold over every interleaving:
// the bulkhead and the retry budget bound what is in flight, and the half-open gate can
// wedge exactly when the configuration satisfies CanWedge.
module GovernedCalls {
  import opened Options
  import opened CircuitBreaking
  import opened ProtectedCalls
  import opened Sets

  /** One executor's configuration; no call makes more than maxAttempts attempts. */
  datatype World = World(limits: Limits, breaker: Config, maxAttempts: nat)

  datatype Sys = Sys(
    breaker: Breaker,
    inFlight: int,
    retries: int,
    calls: map<nat, Call>,
    tags: map<nat, nat>,   // the gate a call took its latest permit from, 0 for none
    gate: nat,             // how many half-open gates have been opened
    admitted: nat)         // how many trials the latest gate has admitted

  datatype Event =
    | Arrive(id: nat, attempts: int)
    | Act(id: nat, action: Action, now: int, dur: int)

  /** Whether the shared state lets call c take the action. */
  predicate Permits(w: World, s: Sys, c: Call, a: Action, now: int) {
    var l := w.limits;
    match a
    case Enter(got) =>
      if got then l.maxConcurrent > 0 ==> s.inFlight < l.maxConcurrent
      else s.inFlight >= l.maxConcurrent || l.queued
    case Budget(got) =>
      l.retryBudget > 0 && c.attempt > 0 ==> (got <==> s.retries < l.retryBudget)
    case Permit(admitted) => l.guarded ==> (admitted <==> Allows(w.breaker, s.breaker, now))
    case _ => true
  }

  /** A permit question opens a new gate. */
  predicate OpensGate(w: World, b: Breaker, now: int) {
    CooledDown(w.breaker, b, now) && b.halfOpen.None?
  }

  function Shared(w: World, s: Sys, id: nat, c: Call, a: Action, now: int, dur: int): Sys
    requires ValidConfig(w.breaker)
  {
    if !w.limits.guarded then s
    else
      match a
      case Permit(admitted) =>
        var b := Asked(w.breaker, s.breaker, now);
        var gate := if OpensGate(w, s.breaker, now) then s.gate + 1 else s.gate;
        var before := if OpensGate(w, s.breaker, now) then 0 else s.admitted;
        if admitted && b.halfOpen.Some?
        then s.(breaker := b, gate := gate, admitted := before + 1, tags := s.tags[id := gate])
        else s.(breaker := b, gate := gate, admitted := before)
      case Report(outcome) => s.(breaker := Recorded(w.breaker, s.breaker, now, outcome, dur))
      case _ => s
  }

  function Advance(w: World, s: Sys, e: Event): Option<Sys>
    requires ValidConfig(w.breaker)
  {
    match e
    case Arrive(id, attempts) =>
      if id in s.calls || attempts > w.maxAttempts then None
      else Some(s.(calls := s.calls[id := Start(attempts)], tags := s.tags[id := 0]))
    case Act(id, a, now, dur) =>
      if id !in s.calls then None
      else
        var c := s.calls[id];
        var next := Next(w.limits, c, a);
        if next.None? || !Permits(w, s, c, a, now) then None
        else
          Some(Shared(w, s, id, c, a, now, dur).(
            calls := s.calls[id := next.value],
            inFlight := s.inFlight + SlotEffect(w.limits, c, a),
            retries := s.retries + BudgetEffect(w.limits, c, a)))
  }

  function Interleave(w: World, s: Sys, events: seq<Event>): Option<Sys>
    requires ValidConfig(w.breaker)
  {
    if events == [] then Some(s)
    else
      match Interleave(w, s, events[..|events| - 1])
      case None => None
      case Some(before) => Advance(w, before, events[|events| - 1])
  }

  function Idle(w: World, now: int): Sys {
    Sys(NewBreaker(w.breaker, now), 0, 0, map[], map[], 0, 0)
  }

  // ---- Counting calls -----------------------------------------------------

  function SlotHolders(calls: map<nat, Call>): set<nat> {
    set id | id in calls && calls[id].slot
  }

  function BudgetHolders(calls: map<nat, Call>): set<nat> {
    set id | id in calls && calls[id].held
  }

  // ---- Capacity -----------------------------------------------------------

  ghost predicate CapacityInv(w: World, s: Sys) {
    && (forall id :: id in s.calls ==> CallInv(w.limits, s.calls[id]) && s.calls[id].attempts <= w.maxAttempts)
    && s.inFlight == |SlotHolders(s.calls)|
    && s.retries == |BudgetHolders(s.calls)|
    && (w.limits.maxConcurrent > 0 ==> s.inFlight <= w.limits.maxConcurrent)
    && (w.limits.retryBudget > 0 ==> s.retries <= w.limits.retryBudget)
  }

  lemma ActKeepsCapacity(w: World, s: Sys, e: Event)
    requires ValidConfig(w.breaker) && CapacityInv(w, s) && e.Act? && Advance(w, s, e).Some?
    ensures CapacityInv(w, Advance(w, s, e).value)
  {
    var s' := Advance(w, s, e).value;
    var c, c' := s.calls[e.id], s'.calls[e.id];
    NextKeepsInv(w.limits, c, e.action);
    EffectsTrackHoldings(w.limits, c, e.action);
    hide CallInv, Shared, Next;
    OneChanges(SlotHolders(s.calls), SlotHolders(s'.calls), e.id);
    OneChanges(BudgetHolders(s.calls), BudgetHolders(s'.calls), e.id);
  }

  lemma ArriveKeepsCapacity(w: World, s: Sys, e: Event)
    requires ValidConfig(w.breaker) && CapacityInv(w, s) && e.Arrive? && Advance(w, s, e).Some?
    ensures CapacityInv(w, Advance(w, s, e).value)
  {
    var s' := Advance(w, s, e).value;
    StartIsFine(w.limits, e.attempts);
    hide CallInv;
    assert SlotHolders(s'.calls) == SlotHolders(s.calls);
    assert BudgetHolders(s'.calls) == BudgetHolders(s.calls);
  }

  lemma {:induction false} RunKeepsCapacity(w: World, s: Sys, events: seq<Event>)
    requires ValidConfig(w.breaker) && CapacityInv(w, s) && Interleave(w, s, events).Some?
    ensures CapacityInv(w, Interleave(w, s, events).value)
  {
    hide CapacityInv, Advance;
    if events != [] {
      var earlier, last := events[..|events| - 1], events[|events| - 1];
      RunKeepsCapacity(w, s, earlier);
      if last.Act? {
        ActKeepsCapacity(w, Interleave(w, s, earlier).value, last);
      } else {
        ArriveKeepsCapacity(w, Interleave(w, s, earlier).value, last);
      }
    }
  }

  /**
   * In every interleaving the semaphores count exactly the calls that hold a slot, so calls
   * in flight never exceed MaxConcurrent and retries in flight never exceed RetryBudget.
   */
  lemma CapacityHolds(w: World, now: int, events: seq<Event>)
    requires ValidConfig(w.breaker) && Interleave(w, Idle(w, now), events).Some?
    ensures var s := Interleave(w, Idle(w, now), events).value;
            && s.inFlight == |SlotHolders(s.calls)|
            && s.retries == |BudgetHolders(s.calls)|
            && (w.limits.maxConcurrent > 0 ==> |SlotHolders(s.calls)| <= w.limits.maxConcurrent)
            && (w.limits.retryBudget > 0 ==> |BudgetHolders(s.calls)| <= w.limits.retryBudget)
  {
    assert SlotHolders(map[]) == {} && BudgetHolders(map[]) == {};
    RunKeepsCapacity(w, Idle(w, now), events);
  }

  /** No call is ever stuck: until it has returned there is a step it can take. */
  lemma CallsGoOn(w: World, now: int, events: seq<Event>, id: nat, at: int)
    requires ValidConfig(w.breaker) && Interleave(w, Idle(w, now), events).Some?
    requires var s := Interleave(w, Idle(w, now), events).value; id in s.calls && !s.calls[id].phase.Returned?
    ensures exists a :: Advance(w, Interleave(w, Idle(w, now), events).value, Act(id, a, at, 0)).Some?
  {
    assert SlotHolders(map[]) == {} && BudgetHolders(map[]) == {};
    RunKeepsCapacity(w, Idle(w, now), events);
    hide Interleave;
    StepOf(w, Interleave(w, Idle(w, now), events).value, id, at);
  }

  lemma StepOf(w: World, s: Sys, id: nat, now: int)
    requires ValidConfig(w.breaker) && CapacityInv(w, s) && id in s.calls && !s.calls[id].phase.Returned?
    ensures exists a :: Advance(w, s, Act(id, a, now, 0)).Some?
  {
    var l, c := w.limits, s.calls[id];
    var a := match c.phase
             case Entering => Enter(l.maxConcurrent == 0 || s.inFlight < l.maxConcurrent)
             case AtBudget => Budget(l.retryBudget == 0 || c.attempt == 0 || s.retries < l.retryBudget)
             case AtRate => Charge(false)
             case AtBreaker => Permit(!l.guarded || Allows(w.breaker, s.breaker, now))
             case Running => Attempt(false, false)
             case Backing => GiveBudget
             case Finishing(_) => GiveBudget
             case Recording(outcome, _) => Report(outcome)
             case _ => if c.held then GiveBudget else Leave;
    assert Next(l, c, a).Some?;
    hide CapacityInv, Next;
    assert Permits(w, s, c, a, now);
    hide Permits, Shared;
    assert Advance(w, s, Act(id, a, now, 0)).Some?;
  }

  /**
   * What the shared stages answer: a slot exactly if one is free, no slot exactly if all are
   * taken or the call has queued for one in vain, a retry exactly if the budget is not used up,
   * and a permit exactly if the breaker gives one.
   */
  lemma {:induction false} AnswersIff(w: World, now: int, events: seq<Event>, id: nat, at: int, dur: int)
    requires ValidConfig(w.breaker) && Interleave(w, Idle(w, now), events).Some?
    requires id in Interleave(w, Idle(w, now), events).value.calls
    ensures var s := Interleave(w, Idle(w, now), events).value;
            var l, c := w.limits, s.calls[id];
            && (c.phase.Entering? && l.maxConcurrent > 0 ==>
                  && (Advance(w, s, Act(id, Enter(true), at, dur)).Some? <==> |SlotHolders(s.calls)| < l.maxConcurrent)
                  && (Advance(w, s, Act(id, Enter(false), at, dur)).Some? <==>
                        |SlotHolders(s.calls)| == l.maxConcurrent || l.queued))
            && (c.phase.AtBudget? && l.retryBudget > 0 && c.attempt > 0 ==>
                  && (Advance(w, s, Act(id, Budget(true), at, dur)).Some? <==> |BudgetHolders(s.calls)| < l.retryBudget)
                  && (Advance(w, s, Act(id, Budget(false), at, dur)).Some? <==> |BudgetHolders(s.calls)| == l.retryBudget))
            && (c.phase.AtBreaker? && l.guarded ==>
                  forall yes :: Advance(w, s, Act(id, Permit(yes), at, dur)).Some? <==> yes == Allows(w.breaker, s.breaker, at))
  {
    CapacityHolds(w, now, events);
    hide Interleave, Shared, Allows, SlotHolders, BudgetHolders;
  }
}
