// The runs that wedge a half-open gate, for every configuration that allows it.
module GateWedge {
  import opened Options
  import opened CircuitBreaking
  import opened GovernedCalls
  import opened HalfOpenGate
  import opened ProtectedCalls

  ghost predicate Reaches(w: World, s: Sys, t: Sys)
    requires ValidConfig(w.breaker)
  {
    exists events :: Interleave(w, s, events) == Some(t)
  }

  lemma {:induction false} InterleaveConcat(w: World, s: Sys, a: seq<Event>, b: seq<Event>)
    requires ValidConfig(w.breaker) && Interleave(w, s, a).Some?
    ensures Interleave(w, s, a + b) == Interleave(w, Interleave(w, s, a).value, b)
  {
    if b == [] {
      assert a + b == a;
    } else {
      var n := |b| - 1;
      InterleaveConcat(w, s, a, b[..n]);
      assert (a + b)[..|a + b| - 1] == a + b[..n];
      hide Advance;
    }
  }

  lemma ReachesSelf(w: World, s: Sys)
    requires ValidConfig(w.breaker)
    ensures Reaches(w, s, s)
  {
    assert Interleave(w, s, []) == Some(s);
  }

  lemma ReachesOn(w: World, s: Sys, t: Sys, u: Sys)
    requires ValidConfig(w.breaker) && Reaches(w, s, t) && Reaches(w, t, u)
    ensures Reaches(w, s, u)
  {
    var a :| Interleave(w, s, a) == Some(t);
    var b :| Interleave(w, t, b) == Some(u);
    InterleaveConcat(w, s, a, b);
  }

  lemma ReachesNext(w: World, s: Sys, e: Event)
    requires ValidConfig(w.breaker) && Advance(w, s, e).Some?
    ensures Reaches(w, s, Advance(w, s, e).value)
  {
    hide Advance;
    assert [e][..0] == [];
    assert Interleave(w, s, []) == Some(s);
    assert Interleave(w, s, [e]) == Advance(w, s, e);
  }

  lemma ReachedKeepsCapacity(w: World, s: Sys, t: Sys)
    requires ValidConfig(w.breaker) && Reaches(w, s, t) && CapacityInv(w, s)
    ensures CapacityInv(w, t)
  {
    var a :| Interleave(w, s, a) == Some(t);
    RunKeepsCapacity(w, s, a);
  }

  // ---- One step of one call -----------------------------------------------

  /** s with call id replaced and the semaphores moved. */
  function Put(s: Sys, id: nat, c: Call, slots: int, budget: int): Sys {
    s.(calls := s.calls[id := c], inFlight := s.inFlight + slots, retries := s.retries + budget)
  }

  lemma PutTwice(s: Sys, id: nat, c: Call, slots: int, budget: int, c': Call, slots': int, budget': int)
    ensures Put(Put(s, id, c, slots, budget), id, c', slots', budget') == Put(s, id, c', slots + slots', budget + budget')
  {
    assert s.calls[id := c][id := c'] == s.calls[id := c'];
  }

  lemma LocalStep(w: World, s: Sys, id: nat, a: Action)
    requires w.limits.guarded && ValidConfig(w.breaker) && id in s.calls
    requires !a.Permit? && !a.Report?
    requires Next(w.limits, s.calls[id], a).Some? && Permits(w, s, s.calls[id], a, 0)
    ensures var c := s.calls[id];
            Reaches(w, s, Put(s, id, Next(w.limits, c, a).value, SlotEffect(w.limits, c, a), BudgetEffect(w.limits, c, a)))
  {
    ReachesNext(w, s, Act(id, a, 0, 0));
    hide Next, SlotEffect, BudgetEffect;
  }

  /** Continues a run that already replaced call id. */
  lemma Continue(w: World, s: Sys, id: nat, c: Call, slots: int, budget: int, a: Action)
    requires w.limits.guarded && ValidConfig(w.breaker)
    requires Reaches(w, s, Put(s, id, c, slots, budget))
    requires !a.Permit? && !a.Report?
    requires Next(w.limits, c, a).Some? && Permits(w, Put(s, id, c, slots, budget), c, a, 0)
    ensures Reaches(w, s, Put(s, id, Next(w.limits, c, a).value,
                              slots + SlotEffect(w.limits, c, a), budget + BudgetEffect(w.limits, c, a)))
  {
    var m := Put(s, id, c, slots, budget);
    LocalStep(w, m, id, a);
    hide Next, SlotEffect, BudgetEffect, Permits, Reaches;
    var c', x, y := Next(w.limits, c, a).value, SlotEffect(w.limits, c, a), BudgetEffect(w.limits, c, a);
    PutTwice(s, id, c, slots, budget, c', x, y);
    ReachesOn(w, s, m, Put(m, id, c', x, y));
  }

  function SlotUnit(l: Limits): int {
    if l.maxConcurrent > 0 then 1 else 0
  }

  function BudgetUnit(l: Limits): int {
    if l.retryBudget > 0 then 1 else 0
  }

  /** A fresh call in front of the breaker. */
  function Asking(l: Limits, attempts: int): Call {
    Call(attempts, 0, AtBreaker, l.maxConcurrent > 0, false, 0, [])
  }

  function Arrived(s: Sys, id: nat, attempts: int): Sys {
    s.(calls := s.calls[id := Start(attempts)], tags := s.tags[id := 0])
  }

  lemma ArriveAndAsk(w: World, s: Sys, id: nat, attempts: int)
    requires w.limits.guarded && ValidConfig(w.breaker) && id !in s.calls && 1 <= attempts <= w.maxAttempts
    requires w.limits.maxConcurrent > 0 ==> s.inFlight < w.limits.maxConcurrent
    ensures Reaches(w, s, Put(s.(tags := s.tags[id := 0]), id, Asking(w.limits, attempts), SlotUnit(w.limits), 0))
  {
    ReachesNext(w, s, Arrive(id, attempts));
    var s1 := Arrived(s, id, attempts);
    assert Advance(w, s, Arrive(id, attempts)) == Some(s1);
    LocalStep(w, s1, id, Enter(true));
    var c1 := Start(attempts).(slot := w.limits.maxConcurrent > 0, phase := AtBudget);
    Continue(w, s1, id, c1, SlotUnit(w.limits), 0, Budget(true));
    Continue(w, s1, id, c1.(phase := AtRate), SlotUnit(w.limits), 0, Charge(false));
    hide Reaches;
    ReachesOn(w, s, s1, Put(s1, id, Asking(w.limits, attempts), SlotUnit(w.limits), 0));
    assert s1.calls[id := Asking(w.limits, attempts)] == s.calls[id := Asking(w.limits, attempts)];
  }

  /** A running first attempt fails and comes back to the breaker for its retry. */
  lemma FailAndRetry(w: World, s: Sys, id: nat, c: Call)
    requires w.limits.guarded && ValidConfig(w.breaker) && id in s.calls && s.calls[id] == c
    requires c.phase.Running? && c.attempt == 0 && !c.held && 1 < c.attempts
    requires w.limits.retryBudget > 0 ==> s.retries < w.limits.retryBudget
    ensures Reaches(w, s, Put(s, id, c.(runs := c.runs + 1, attempt := 1, phase := AtRate, held := w.limits.retryBudget > 0),
                              0, BudgetUnit(w.limits)))
  {
    var c1 := c.(runs := c.runs + 1, phase := Backing);
    LocalStep(w, s, id, Attempt(false, true));
    Continue(w, s, id, c1, 0, 0, GiveBudget);
    Continue(w, s, id, c1.(attempt := 1, phase := AtBudget), 0, 0, Budget(true));
  }

  /** A call in front of the breaker wins a trial of a gate that has one left, or of a new gate. */
  lemma GrantStep(w: World, s: Sys, id: nat, now: int) returns (t: Sys)
    requires w.limits.guarded && ValidConfig(w.breaker) && id in s.calls && s.calls[id].phase.AtBreaker?
    requires CooledDown(w.breaker, s.breaker, now)
    requires s.breaker.halfOpen.Some? ==> s.breaker.halfOpen.value > 0
    ensures Reaches(w, s, t)
    ensures t.calls == s.calls[id := s.calls[id].(phase := Running)]
    ensures t.inFlight == s.inFlight && t.retries == s.retries
    ensures t.breaker.openedAt == s.breaker.openedAt
    ensures t.breaker.halfOpen
         == Some((if s.breaker.halfOpen.Some? then s.breaker.halfOpen.value else Trials(w.breaker)) - 1)
    ensures t.breaker.halfOpenOK == (if s.breaker.halfOpen.Some? then s.breaker.halfOpenOK else 0)
  {
    ReachesNext(w, s, Act(id, Permit(true), now, 0));
    t := Advance(w, s, Act(id, Permit(true), now, 0)).value;
  }

  /** The breaker after a success that does not complete the gate. */
  lemma TrialSucceeds(c: Config, b: Breaker)
    requires ValidConfig(c) && b.halfOpen.Some? && b.halfOpenOK + 1 < Trials(c)
    ensures Recorded(c, b, 0, true, 0) == b.(halfOpenOK := b.halfOpenOK + 1)
  {
  }

  /** A call about to record a success does so and returns. */
  lemma ReportAndReturn(w: World, s: Sys, id: nat, c: Call) returns (t: Sys)
    requires w.limits.guarded && ValidConfig(w.breaker) && id in s.calls && s.calls[id] == c
    requires c.phase == Recording(true, Succeeded) && !c.held
    ensures Reaches(w, s, t) && t.breaker == Recorded(w.breaker, s.breaker, 0, true, 0)
    ensures exists r :: t.calls == s.calls[id := r] && r.phase.Returned? && r.attempts == c.attempts
  {
    hide Recorded;
    ReachesNext(w, s, Act(id, Report(true), 0, 0));
    var c1 := c.(records := c.records + [true], phase := Leaving(Succeeded));
    var s1 := Advance(w, s, Act(id, Report(true), 0, 0)).value;
    assert s1.calls == s.calls[id := c1];
    LocalStep(w, s1, id, Leave);
    var c2 := c1.(slot := false, phase := Returned(Succeeded));
    t := Put(s1, id, c2, SlotEffect(w.limits, c1, Leave), 0);
    hide Reaches;
    ReachesOn(w, s, s1, t);
    assert t.calls == s.calls[id := c2];
  }

  /** A running attempt succeeds, records, and the call returns; the gate is not complete yet. */
  lemma SucceedAndReturn(w: World, s: Sys, id: nat, c: Call) returns (t: Sys)
    requires w.limits.guarded && ValidConfig(w.breaker) && id in s.calls && s.calls[id] == c && c.phase.Running?
    requires s.breaker.halfOpen.Some? && s.breaker.halfOpenOK + 1 < Trials(w.breaker)
    ensures Reaches(w, s, t)
    ensures exists r :: t.calls == s.calls[id := r] && r.phase.Returned?
    ensures t.breaker == s.breaker.(halfOpenOK := s.breaker.halfOpenOK + 1)
  {
    hide Reaches, Recorded, Trials;
    LocalStep(w, s, id, Attempt(true, false));
    Continue(w, s, id, c.(runs := c.runs + 1, phase := Finishing(true)), 0, 0, GiveBudget);
    var c1 := c.(runs := c.runs + 1, held := false, phase := Recording(true, Succeeded));
    var s1 := Put(s, id, c1, 0, if c.held then -1 else 0);
    t := ReportAndReturn(w, s1, id, c1);
    TrialSucceeds(w.breaker, s.breaker);
    ReachesOn(w, s, s1, t);
    var r :| t.calls == s1.calls[id := r] && r.phase.Returned?;
    assert t.calls == s.calls[id := r];
  }

  predicate AllReturned(s: Sys) {
    forall id :: id in s.calls ==> s.calls[id].phase.Returned?
  }

  lemma QuietCounts(w: World, s: Sys)
    requires CapacityInv(w, s) && AllReturned(s)
    ensures s.inFlight == 0 && s.retries == 0
  {
    assert forall id :: id in s.calls ==> CallInv(w.limits, s.calls[id]);
    hide CapacityInv;
    assert SlotHolders(s.calls) == {} && BudgetHolders(s.calls) == {} by {
      NobodyHolds(w, s);
    }
    assert s.inFlight == |SlotHolders(s.calls)| && s.retries == |BudgetHolders(s.calls)| by {
      CountsAreHolders(w, s);
    }
  }

  lemma CountsAreHolders(w: World, s: Sys)
    requires CapacityInv(w, s)
    ensures s.inFlight == |SlotHolders(s.calls)| && s.retries == |BudgetHolders(s.calls)|
  {
  }

  lemma NobodyHolds(w: World, s: Sys)
    requires AllReturned(s) && forall id :: id in s.calls ==> CallInv(w.limits, s.calls[id])
    ensures SlotHolders(s.calls) == {} && BudgetHolders(s.calls) == {}
  {
  }

  lemma {:induction false} Bounded(ids: set<nat>) returns (bound: nat)
    ensures forall x :: x in ids ==> x < bound
  {
    bound := 0;
    if ids != {} {
      var x :| x in ids;
      var rest := Bounded(ids - {x});
      bound := if rest > x then rest else x + 1;
      forall y | y in ids
        ensures y < bound
      {
        assert y == x || y in ids - {x};
      }
    }
  }

  lemma FreshId(s: Sys) returns (id: nat)
    ensures id !in s.calls
  {
    id := Bounded(s.calls.Keys);
  }

  /** Successful single-attempt calls use up the permits of a gate that can no longer complete. */
  lemma {:induction false} DrainGate(w: World, s: Sys, now: int) returns (t: Sys)
    requires w.limits.guarded && ValidConfig(w.breaker) && CapacityInv(w, s) && AllReturned(s) && w.maxAttempts >= 1
    requires CooledDown(w.breaker, s.breaker, now) && s.breaker.halfOpen.Some?
    requires s.breaker.halfOpenOK + s.breaker.halfOpen.value < Trials(w.breaker)
    ensures Reaches(w, s, t) && Wedged(t)
    decreases s.breaker.halfOpen.value
  {
    hide Reaches, CapacityInv;
    if s.breaker.halfOpen.value == 0 {
      ReachesSelf(w, s);
      t := s;
    } else {
      QuietCounts(w, s);
      var id := FreshId(s);
      ArriveAndAsk(w, s, id, 1);
      var s1 := Put(s.(tags := s.tags[id := 0]), id, Asking(w.limits, 1), SlotUnit(w.limits), 0);
      var s2 := GrantStep(w, s1, id, now);
      var s3 := SucceedAndReturn(w, s2, id, s2.calls[id]);
      ReachesOn(w, s, s1, s2);
      ReachesOn(w, s, s2, s3);
      ReachedKeepsCapacity(w, s, s3);
      t := DrainGate(w, s3, now);
      ReachesOn(w, s, s3, t);
    }
  }

  // ---- The one way out ----------------------------------------------------

  lemma ArriveWithoutAttempts(w: World, s: Sys, id: nat) returns (t: Sys)
    requires w.limits.guarded && ValidConfig(w.breaker) && id !in s.calls
    requires w.limits.maxConcurrent > 0 ==> s.inFlight < w.limits.maxConcurrent
    ensures Reaches(w, s, t) && t.breaker == s.breaker
    ensures t.calls == s.calls[id := Start(0).(slot := w.limits.maxConcurrent > 0, phase := Recording(true, Succeeded))]
  {
    ReachesNext(w, s, Arrive(id, 0));
    var s1 := Arrived(s, id, 0);
    assert Advance(w, s, Arrive(id, 0)) == Some(s1);
    LocalStep(w, s1, id, Enter(true));
    var c1 := Start(0).(slot := w.limits.maxConcurrent > 0, phase := Finishing(true));
    Continue(w, s1, id, c1, SlotUnit(w.limits), 0, GiveBudget);
    t := Put(s1, id, c1.(phase := Recording(true, Succeeded)), SlotUnit(w.limits), 0);
    hide Reaches;
    ReachesOn(w, s, s1, t);
    assert t.calls == s.calls[id := c1.(phase := Recording(true, Succeeded))];
  }

  lemma SuccessInGate(c: Config, b: Breaker)
    requires ValidConfig(c) && b.halfOpen.Some?
    ensures var b' := Recorded(c, b, 0, true, 0);
            if b.halfOpenOK + 1 < Trials(c) then b' == b.(halfOpenOK := b.halfOpenOK + 1)
            else b'.halfOpen.None? && b'.openedAt.None?
  {
  }

  /**
   * What can still resolve a wedged gate: calls with a negative retry count make no attempt,
   * are never asked for a permit, and record a success each. As many of them as the gate
   * lacks successes close it.
   */
  lemma {:induction false} CallsWithoutAttemptsClose(w: World, s: Sys) returns (t: Sys)
    requires w.limits.guarded && ValidConfig(w.breaker) && CapacityInv(w, s) && Wedged(s)
    ensures Reaches(w, s, t) && AllReturned(t) && StateOf(t.breaker) == Closed
    ensures forall id :: id in s.calls ==> id in t.calls && t.calls[id] == s.calls[id]
    ensures forall id :: id in t.calls && id !in s.calls ==> t.calls[id].attempts == 0
    ensures |t.calls| == |s.calls|
              + if s.breaker.halfOpenOK < Trials(w.breaker) then Trials(w.breaker) - s.breaker.halfOpenOK else 1
    decreases Trials(w.breaker) - s.breaker.halfOpenOK
  {
    hide Reaches, CapacityInv, Trials, Recorded;
    QuietCounts(w, s);
    var id := FreshId(s);
    var s1 := ArriveWithoutAttempts(w, s, id);
    t := ReportAndReturn(w, s1, id, s1.calls[id]);
    ReachesOn(w, s, s1, t);
    SuccessInGate(w.breaker, s.breaker);
    if s.breaker.halfOpenOK + 1 < Trials(w.breaker) {
      ReachedKeepsCapacity(w, s, t);
      var s2 := t;
      t := CallsWithoutAttemptsClose(w, s2);
      ReachesOn(w, s, s2, t);
    }
  }

  // ---- Cause 1: one call takes two permits and records once ----------------

  lemma RetryTakesTwoPermits(w: World, s: Sys, now: int) returns (t: Sys)
    requires w.limits.guarded && ValidConfig(w.breaker) && CapacityInv(w, s) && AllReturned(s)
    requires w.maxAttempts >= 2 && Trials(w.breaker) >= 2
    requires CooledDown(w.breaker, s.breaker, now) && s.breaker.halfOpen.None?
    ensures Reaches(w, s, t) && Wedged(t)
  {
    hide Reaches, CapacityInv;
    QuietCounts(w, s);
    var id := FreshId(s);
    ArriveAndAsk(w, s, id, 2);
    var s1 := Put(s.(tags := s.tags[id := 0]), id, Asking(w.limits, 2), SlotUnit(w.limits), 0);
    var s2 := GrantStep(w, s1, id, now);
    var c2 := s2.calls[id];
    FailAndRetry(w, s2, id, c2);
    var c3 := c2.(runs := 1, attempt := 1, phase := AtRate, held := w.limits.retryBudget > 0);
    Continue(w, s2, id, c3, 0, BudgetUnit(w.limits), Charge(false));
    var s3 := Put(s2, id, c3.(phase := AtBreaker), 0, BudgetUnit(w.limits));
    var s4 := GrantStep(w, s3, id, now);
    var s5 := SucceedAndReturn(w, s4, id, s4.calls[id]);
    ReachesOn(w, s, s1, s2);
    ReachesOn(w, s, s2, s3);
    ReachesOn(w, s, s3, s4);
    ReachesOn(w, s, s4, s5);
    ReachedKeepsCapacity(w, s, s5);
    t := DrainGate(w, s5, now);
    ReachesOn(w, s, s5, t);
  }

  // ---- Cause 2: a rate-limited retry leaves without recording --------------

  /** The last steps of a call that is leaving. */
  lemma LeaveNow(w: World, s: Sys, id: nat) returns (t: Sys)
    requires w.limits.guarded && ValidConfig(w.breaker) && id in s.calls && s.calls[id].phase.Leaving?
    ensures Reaches(w, s, t)
    ensures exists r :: t.calls == s.calls[id := r] && r.phase.Returned?
    ensures t.breaker == s.breaker
  {
    var c := s.calls[id];
    var c1 := c.(held := false);
    if c.held {
      LocalStep(w, s, id, GiveBudget);
      Continue(w, s, id, c1, 0, -1, Leave);
    } else {
      LocalStep(w, s, id, Leave);
    }
    var done := c1.(slot := false, phase := Returned(c.phase.result));
    t := Put(s, id, done, SlotEffect(w.limits, c, Leave), if c.held then -1 else 0);
  }

  lemma LimitedRetryLeaves(w: World, s: Sys, now: int) returns (t: Sys)
    requires w.limits.guarded && ValidConfig(w.breaker) && CapacityInv(w, s) && AllReturned(s)
    requires w.maxAttempts >= 2 && w.limits.rateLimited
    requires CooledDown(w.breaker, s.breaker, now) && s.breaker.halfOpen.None?
    ensures Reaches(w, s, t) && Wedged(t)
  {
    hide Reaches, CapacityInv;
    QuietCounts(w, s);
    var id := FreshId(s);
    ArriveAndAsk(w, s, id, 2);
    var s1 := Put(s.(tags := s.tags[id := 0]), id, Asking(w.limits, 2), SlotUnit(w.limits), 0);
    var s2 := GrantStep(w, s1, id, now);
    var c2 := s2.calls[id];
    FailAndRetry(w, s2, id, c2);
    var c3 := c2.(runs := 1, attempt := 1, phase := AtRate, held := w.limits.retryBudget > 0);
    Continue(w, s2, id, c3, 0, BudgetUnit(w.limits), Charge(true));
    var s3 := Put(s2, id, c3.(phase := Leaving(RateLimited)), 0, BudgetUnit(w.limits));
    var s4 := LeaveNow(w, s3, id);
    ReachesOn(w, s, s1, s2);
    ReachesOn(w, s, s2, s3);
    ReachesOn(w, s, s3, s4);
    ReachedKeepsCapacity(w, s, s4);
    t := DrainGate(w, s4, now);
    ReachesOn(w, s, s4, t);
  }

  // ---- Cause 3: a retry finds the budget empty and leaves without recording ----

  /** A call refused on its retry that has recorded but still holds its budget slot. */
  predicate Parked(c: Call) {
    c.phase == Leaving(CircuitOpen) && c.held
  }

  predicate ReturnedOrParked(s: Sys) {
    forall id :: id in s.calls ==> s.calls[id].phase.Returned? || Parked(s.calls[id])
  }

  lemma ParkedCounts(w: World, s: Sys)
    requires CapacityInv(w, s) && ReturnedOrParked(s)
    ensures w.limits.maxConcurrent > 0 ==> s.inFlight == s.retries
    ensures 0 <= s.retries
  {
    CountsAreHolders(w, s);
    forall id | id in s.calls
      ensures w.limits.maxConcurrent > 0 ==> (s.calls[id].slot <==> s.calls[id].held)
    {
      assert CallInv(w.limits, s.calls[id]);
    }
    hide CapacityInv, ReturnedOrParked;
    if w.limits.maxConcurrent > 0 {
      assert SlotHolders(s.calls) == BudgetHolders(s.calls);
    }
  }

  lemma TrialFails(c: Config, b: Breaker, now: int)
    requires ValidConfig(c) && b.halfOpen.Some?
    ensures var b' := Recorded(c, b, now, false, 0);
            b'.halfOpen.None? && b'.openedAt == Some(now)
  {
  }

  /** A retry is refused by the spent single-trial gate, records its failure, and pauses before giving its budget slot back. */
  lemma RefusedAndParked(w: World, s: Sys, id: nat, c: Call, now: int) returns (t: Sys)
    requires w.limits.guarded && ValidConfig(w.breaker) && id in s.calls && s.calls[id] == c && c.phase.AtBreaker?
    requires c.runs > 0 && c.held && c.records == []
    requires CooledDown(w.breaker, s.breaker, now) && s.breaker.halfOpen == Some(0)
    ensures Reaches(w, s, t)
    ensures exists r :: t.calls == s.calls[id := r] && Parked(r)
    ensures t.breaker.halfOpen.None? && t.breaker.openedAt == Some(now)
    ensures t.retries == s.retries
  {
    var ask, report := Act(id, Permit(false), now, 0), Act(id, Report(false), now, 0);
    ReachesNext(w, s, ask);
    var s1 := Advance(w, s, ask).value;
    assert s1.breaker.halfOpen == Some(0) && s1.calls[id] == c.(phase := Recording(false, CircuitOpen));
    ReachesNext(w, s1, report);
    t := Advance(w, s1, report).value;
    TrialFails(w.breaker, s1.breaker, now);
    hide Recorded;
    assert t.calls[id] == c.(phase := Leaving(CircuitOpen), records := c.records + [false]);
    assert t.calls == s.calls[id := t.calls[id]] && Parked(t.calls[id]);
    hide Reaches;
    ReachesOn(w, s, s1, t);
  }

  /** One more call parks with a budget slot; the breaker is open again. */
  lemma ParkOne(w: World, s: Sys, now: int) returns (t: Sys)
    requires w.limits.guarded && ValidConfig(w.breaker) && CapacityInv(w, s) && ReturnedOrParked(s)
    requires w.maxAttempts >= 2 && Trials(w.breaker) == 1 && s.retries < w.limits.retryBudget
    requires w.limits.maxConcurrent > 0 ==> s.retries < w.limits.maxConcurrent
    requires CooledDown(w.breaker, s.breaker, now) && s.breaker.halfOpen.None?
    ensures Reaches(w, s, t) && ReturnedOrParked(t) && t.retries == s.retries + 1
    ensures t.breaker.halfOpen.None? && t.breaker.openedAt == Some(now)
  {
    hide Reaches, CapacityInv;
    ParkedCounts(w, s);
    var id := FreshId(s);
    ArriveAndAsk(w, s, id, 2);
    var s1 := Put(s.(tags := s.tags[id := 0]), id, Asking(w.limits, 2), SlotUnit(w.limits), 0);
    var s2 := GrantStep(w, s1, id, now);
    var c2 := s2.calls[id];
    FailAndRetry(w, s2, id, c2);
    var c3 := c2.(runs := 1, attempt := 1, phase := AtRate, held := w.limits.retryBudget > 0);
    Continue(w, s2, id, c3, 0, BudgetUnit(w.limits), Charge(false));
    var s3 := Put(s2, id, c3.(phase := AtBreaker), 0, BudgetUnit(w.limits));
    t := RefusedAndParked(w, s3, id, s3.calls[id], now);
    ReachesOn(w, s, s1, s2);
    ReachesOn(w, s, s2, s3);
    ReachesOn(w, s, s3, t);
  }

  /** Calls park until the budget is exhausted. */
  lemma {:induction false} ParkAll(w: World, s: Sys, now: int) returns (t: Sys, later: int)
    requires w.limits.guarded && ValidConfig(w.breaker) && CapacityInv(w, s) && ReturnedOrParked(s)
    requires w.maxAttempts >= 2 && Trials(w.breaker) == 1 && BudgetCanRunOut(w.limits)
    requires s.retries <= w.limits.retryBudget
    requires CooledDown(w.breaker, s.breaker, now) && s.breaker.halfOpen.None?
    ensures Reaches(w, s, t) && ReturnedOrParked(t) && t.retries == w.limits.retryBudget
    ensures CooledDown(w.breaker, t.breaker, later) && t.breaker.halfOpen.None?
    decreases w.limits.retryBudget - s.retries
  {
    hide Reaches, CapacityInv, ReturnedOrParked;
    if s.retries == w.limits.retryBudget {
      ReachesSelf(w, s);
      t, later := s, now;
    } else {
      var s1 := ParkOne(w, s, now);
      ReachedKeepsCapacity(w, s, s1);
      var next := now + (if w.breaker.openFor > 0 then w.breaker.openFor else 0);
      t, later := ParkAll(w, s1, next);
      ReachesOn(w, s, s1, t);
    }
  }

  /** Parked calls give their slots back and return; the breaker does not move. */
  lemma {:induction false} Unpark(w: World, s: Sys, parked: set<nat>) returns (t: Sys)
    requires w.limits.guarded && ValidConfig(w.breaker)
    requires forall id :: id in s.calls ==>
               s.calls[id].phase.Returned? || (id in parked && s.calls[id].phase.Leaving?)
    ensures Reaches(w, s, t) && AllReturned(t) && t.breaker == s.breaker
    decreases |parked|
  {
    hide Reaches;
    if id :| id in s.calls && s.calls[id].phase.Leaving? {
      var s1 := LeaveNow(w, s, id);
      t := Unpark(w, s1, parked - {id});
      ReachesOn(w, s, s1, t);
    } else {
      ReachesSelf(w, s);
      t := s;
    }
  }

  lemma EmptyBudgetRetryLeaves(w: World, s: Sys, now: int) returns (t: Sys)
    requires w.limits.guarded && ValidConfig(w.breaker) && CapacityInv(w, s) && AllReturned(s)
    requires w.maxAttempts >= 2 && Trials(w.breaker) == 1 && BudgetCanRunOut(w.limits)
    requires CooledDown(w.breaker, s.breaker, now) && s.breaker.halfOpen.None?
    ensures Reaches(w, s, t) && Wedged(t)
  {
    hide Reaches, CapacityInv;
    QuietCounts(w, s);
    var s0, later := ParkAll(w, s, now);
    ReachedKeepsCapacity(w, s, s0);
    ParkedCounts(w, s0);
    var id := FreshId(s0);
    ArriveAndAsk(w, s0, id, 2);
    var s1 := Put(s0.(tags := s0.tags[id := 0]), id, Asking(w.limits, 2), SlotUnit(w.limits), 0);
    var s2 := GrantStep(w, s1, id, later);
    var c2 := s2.calls[id];
    LocalStep(w, s2, id, Attempt(false, true));
    var c3 := c2.(runs := 1, phase := Backing);
    Continue(w, s2, id, c3, 0, 0, GiveBudget);
    Continue(w, s2, id, c3.(attempt := 1, phase := AtBudget), 0, 0, Budget(false));
    var s3 := Put(s2, id, c3.(attempt := 1, phase := Leaving(RetryBudgetExceeded)), 0, 0);
    t := Unpark(w, s3, s3.calls.Keys);
    ReachesOn(w, s, s0, s1);
    ReachesOn(w, s, s1, s2);
    ReachesOn(w, s, s2, s3);
    ReachesOn(w, s, s3, t);
  }

  // ---- The exact condition ------------------------------------------------

  /**
   * From every reachable state with an open breaker and no call in flight, the gate can be
   * wedged if and only if the configuration allows retries and either offers several trials,
   * or can rate-limit, or has a retry budget that can run out.
   */
  lemma GateCanWedgeIff(w: World, born: int, events: seq<Event>)
    requires w.limits.guarded && ValidConfig(w.breaker) && Interleave(w, Idle(w, born), events).Some?
    requires var s := Interleave(w, Idle(w, born), events).value;
             AllReturned(s) && s.breaker.openedAt.Some? && s.breaker.halfOpen.None?
    ensures var s := Interleave(w, Idle(w, born), events).value;
            CanWedge(w) <==> exists t :: Reaches(w, s, t) && Wedged(t)
  {
    var s := Interleave(w, Idle(w, born), events).value;
    IdleIsFine(w, born);
    InterleaveKeepsInv(w, Idle(w, born), events);
    if CanWedge(w) {
      var now := s.breaker.openedAt.value + w.breaker.openFor;
      var t;
      if Trials(w.breaker) >= 2 {
        t := RetryTakesTwoPermits(w, s, now);
      } else if w.limits.rateLimited {
        t := LimitedRetryLeaves(w, s, now);
      } else {
        t := EmptyBudgetRetryLeaves(w, s, now);
      }
      assert Reaches(w, s, t) && Wedged(t);
    }
    if t :| Reaches(w, s, t) && Wedged(t) {
      var more :| Interleave(w, s, more) == Some(t);
      InterleaveConcat(w, Idle(w, born), events, more);
      if !CanWedge(w) {
        EmptyGateHasOpenTrial(w, born, events + more);
      }
    }
  }

  // ---- From a fresh breaker -----------------------------------------------

  /** The consecutive breaker after a failure while no gate is offered. */
  lemma FailureCounts(c: Config, b: Breaker)
    requires c.strategy == Consecutive && b.openedAt.None? && b.halfOpen.None?
    ensures var b' := Recorded(c, b, 0, false, 0);
            && b'.halfOpen.None?
            && if b.failures + 1 >= c.threshold then b'.openedAt.Some?
               else b'.openedAt.None? && b'.failures == b.failures + 1
  {
  }

  lemma ReportFailure(w: World, s: Sys, id: nat, c: Call) returns (t: Sys)
    requires w.limits.guarded && ValidConfig(w.breaker) && id in s.calls && s.calls[id] == c
    requires c.phase == Recording(false, Failed)
    ensures Reaches(w, s, t)
    ensures t == s.(calls := s.calls[id := c.(records := c.records + [false], phase := Leaving(Failed))],
                    breaker := Recorded(w.breaker, s.breaker, 0, false, 0))
  {
    hide Recorded;
    ReachesNext(w, s, Act(id, Report(false), 0, 0));
    t := Advance(w, s, Act(id, Report(false), 0, 0)).value;
  }

  /** A closed breaker lets a call through unchanged. */
  lemma ClosedPermit(w: World, s: Sys, id: nat) returns (t: Sys)
    requires w.limits.guarded && ValidConfig(w.breaker) && id in s.calls && s.calls[id].phase.AtBreaker?
    requires s.breaker.openedAt.None? && s.breaker.halfOpen.None?
    ensures Reaches(w, s, t) && t.breaker == s.breaker
    ensures t.calls == s.calls[id := s.calls[id].(phase := Running)]
  {
    ReachesNext(w, s, Act(id, Permit(true), 0, 0));
    t := Advance(w, s, Act(id, Permit(true), 0, 0)).value;
  }

  /** One call that fails once and returns. */
  lemma OneFailure(w: World, s: Sys) returns (t: Sys)
    requires w.limits.guarded && ValidConfig(w.breaker) && CapacityInv(w, s) && AllReturned(s) && w.maxAttempts >= 1
    requires s.breaker.openedAt.None? && s.breaker.halfOpen.None?
    ensures Reaches(w, s, t) && AllReturned(t)
    ensures t.breaker == Recorded(w.breaker, s.breaker, 0, false, 0)
  {
    hide Reaches, CapacityInv, Recorded;
    QuietCounts(w, s);
    var id := FreshId(s);
    ArriveAndAsk(w, s, id, 1);
    var s1 := Put(s.(tags := s.tags[id := 0]), id, Asking(w.limits, 1), SlotUnit(w.limits), 0);
    var s2 := ClosedPermit(w, s1, id);
    var c2 := s2.calls[id];
    LocalStep(w, s2, id, Attempt(false, false));
    var c3 := c2.(runs := 1, phase := Finishing(false));
    Continue(w, s2, id, c3, 0, 0, GiveBudget);
    var c4 := c3.(phase := Recording(false, Failed));
    var s3 := Put(s2, id, c4, 0, 0);
    var s4 := ReportFailure(w, s3, id, c4);
    t := LeaveNow(w, s4, id);
    ReachesOn(w, s, s1, s2);
    ReachesOn(w, s, s2, s3);
    ReachesOn(w, s, s3, s4);
    ReachesOn(w, s, s4, t);
  }

  /** Enough failures in a row trip a consecutive breaker, and nobody is left in flight. */
  lemma {:induction false} FailuresTrip(w: World, s: Sys) returns (t: Sys)
    requires w.limits.guarded && ValidConfig(w.breaker) && CapacityInv(w, s) && AllReturned(s) && w.maxAttempts >= 1
    requires w.breaker.strategy == Consecutive && s.breaker.openedAt.None? && s.breaker.halfOpen.None?
    ensures Reaches(w, s, t) && AllReturned(t) && t.breaker.openedAt.Some? && t.breaker.halfOpen.None?
    decreases w.breaker.threshold - s.breaker.failures
  {
    hide Reaches, CapacityInv, AllReturned, Recorded, ValidConfig;
    FailureCounts(w.breaker, s.breaker);
    t := OneFailure(w, s);
    if t.breaker.openedAt.None? {
      var mid := t;
      ReachedKeepsCapacity(w, s, mid);
      t := FailuresTrip(w, mid);
      ReachesOn(w, s, mid, t);
    }
  }

  /**
   * A new executor with a consecutive breaker can get its gate wedged if and only if its
   * configuration allows retries and either offers several trials, or can rate-limit, or has
   * a retry budget that can run out.
   */
  lemma NewGateCanWedgeIff(w: World, born: int)
    requires w.limits.guarded && w.breaker.strategy == Consecutive
    ensures ValidConfig(w.breaker)
    ensures CanWedge(w) <==> exists t :: Reaches(w, Idle(w, born), t) && Wedged(t)
  {
    var s := Idle(w, born);
    IdleIsFine(w, born);
    if CanWedge(w) {
      var open := FailuresTrip(w, s);
      var events :| Interleave(w, s, events) == Some(open);
      GateCanWedgeIff(w, born, events);
      var t :| Reaches(w, open, t) && Wedged(t);
      ReachesOn(w, s, open, t);
    }
    if t :| Reaches(w, s, t) && Wedged(t) {
      var events :| Interleave(w, s, events) == Some(t);
      if !CanWedge(w) {
        EmptyGateHasOpenTrial(w, born, events);
      }
    }
  }
}
