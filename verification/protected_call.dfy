// One protected outbound call as an automaton (cloud/resilience/client_executor.go).
//
// The stages a call passes are atomic actions: bulkhead slot, retry budget, rate limit,
// breaker permit, attempt, record. What any walk of the automaton guarantees is proved here
// once, for the loop of Execute and for every interleaving of calls.
module ProtectedCalls {
  import opened Options

  datatype Limits = Limits(
    maxConcurrent: nat,   // 0: no bulkhead
    queued: bool,         // the bulkhead waits before rejecting
    retryBudget: nat,     // 0: no cap on retries in flight
    rateLimited: bool,    // the rate stage can answer "limited"
    guarded: bool)        // a breaker is active

  datatype Result = Succeeded | Failed | BulkheadFull | RetryBudgetExceeded | RateLimited | CircuitOpen

  datatype Phase =
    | Entering
    | AtBudget
    | AtRate
    | AtBreaker
    | Running
    | Backing                                      // failed, slept, about to retry
    | Finishing(ok: bool)                          // left the loop
    | Recording(outcome: bool, result: Result)     // about to record into the breaker
    | Leaving(result: Result)
    | Returned(result: Result)

  datatype Call = Call(
    attempts: int,
    attempt: nat,
    phase: Phase,
    slot: bool,          // holds a bulkhead slot
    held: bool,          // holds a retry-budget slot
    runs: nat,           // how often fn ran
    records: seq<bool>)  // the outcomes recorded into the breaker

  /** The atomic actions of a call. */
  datatype Action =
    | Enter(got: bool)
    | Budget(got: bool)
    | Charge(limited: bool)
    | Permit(admitted: bool)
    | Attempt(ok: bool, again: bool)
    | GiveBudget
    | Report(outcome: bool)
    | Leave

  function Start(attempts: int): Call {
    Call(attempts, 0, Entering, false, false, 0, [])
  }

  function ResultOf(ok: bool): Result {
    if ok then Succeeded else Failed
  }

  /** The call after an action, or None when the action is not possible there. */
  function Next(l: Limits, c: Call, a: Action): Option<Call> {
    match (c.phase, a)
    case (Entering, Enter(got)) =>
      if got then Some(c.(slot := l.maxConcurrent > 0, phase := if c.attempts <= 0 then Finishing(true) else AtBudget))
      else if l.maxConcurrent > 0 then Some(c.(phase := Returned(BulkheadFull)))
      else None
    case (AtBudget, Budget(got)) =>
      if l.retryBudget == 0 || c.attempt == 0 then (if got then Some(c.(phase := AtRate)) else None)
      else if got then Some(c.(held := true, phase := AtRate))
      else Some(c.(phase := Leaving(RetryBudgetExceeded)))
    case (AtRate, Charge(limited)) =>
      if !limited then Some(c.(phase := AtBreaker))
      else if l.rateLimited then Some(c.(phase := Leaving(RateLimited)))
      else None
    case (AtBreaker, Permit(admitted)) =>
      if admitted then Some(c.(phase := Running))
      else if !l.guarded then None
      else if c.runs > 0 then Some(c.(phase := Recording(false, CircuitOpen)))
      else Some(c.(phase := Leaving(CircuitOpen)))
    case (Running, Attempt(ok, again)) =>
      var ran := c.(runs := c.runs + 1);
      if ok then Some(ran.(phase := Finishing(true)))
      else if !again then Some(ran.(phase := Finishing(false)))
      else if c.attempt + 1 < c.attempts then Some(ran.(phase := Backing))
      else None
    case (Backing, GiveBudget) => Some(c.(held := false, attempt := c.attempt + 1, phase := AtBudget))
    case (Finishing(ok), GiveBudget) =>
      Some(c.(held := false, phase := if l.guarded then Recording(ok, ResultOf(ok)) else Leaving(ResultOf(ok))))
    case (Recording(outcome, result), Report(o)) =>
      if o == outcome then Some(c.(records := c.records + [o], phase := Leaving(result))) else None
    case (Leaving(result), GiveBudget) => if c.held then Some(c.(held := false)) else None
    case (Leaving(result), Leave) => if c.held then None else Some(c.(slot := false, phase := Returned(result)))
    case _ => None
  }

  /** The call after a sequence of actions. */
  function Walk(l: Limits, c: Call, actions: seq<Action>): Option<Call> {
    if actions == [] then Some(c)
    else
      match Walk(l, c, actions[..|actions| - 1])
      case None => None
      case Some(before) => Next(l, before, actions[|actions| - 1])
  }

  /** What every reachable point of a call satisfies. */
  ghost predicate CallInv(l: Limits, c: Call) {
    && (c.slot <==> l.maxConcurrent > 0 && !c.phase.Entering? && !c.phase.Returned?)
    && (c.held ==> l.retryBudget > 0 && c.attempt > 0 && c.slot == (l.maxConcurrent > 0))
    && (c.held ==> !c.phase.Entering? && !c.phase.AtBudget? && !c.phase.Returned?)
    && c.runs <= (if c.attempts <= 0 then 0 else c.attempts)
    && (c.phase.Entering? ==> c.runs == 0 && c.attempt == 0 && c.records == [])
    && (c.phase.AtBudget? || c.phase.AtRate? || c.phase.AtBreaker? || c.phase.Running? ==>
          c.runs == c.attempt < c.attempts && c.records == [])
    && (c.phase.Backing? ==> c.runs == c.attempt + 1 < c.attempts && c.records == [])
    && (c.phase.Finishing? ==> c.records == [] && (c.attempts <= 0 ==> c.phase.ok) && (c.attempts > 0 ==> c.runs > 0))
    && (c.phase.Recording? ==> l.guarded && c.records == [] && RecordFits(c.phase.outcome, c.phase.result, c))
    && (c.phase.Leaving? || c.phase.Returned? ==>
          Settled(l, c, c.phase.result) && (c.attempts <= 0 ==> c.phase.result in {Succeeded, BulkheadFull}))
  }

  ghost predicate RecordFits(outcome: bool, result: Result, c: Call) {
    || (result == ResultOf(outcome) && (c.attempts > 0 ==> c.runs > 0) && (c.attempts <= 0 ==> outcome))
    || (result == CircuitOpen && !outcome && c.runs > 0)
  }

  /** What was recorded by the time the result is fixed. */
  ghost predicate Settled(l: Limits, c: Call, result: Result) {
    match result
    case Succeeded => c.records == (if l.guarded then [true] else []) && (c.attempts > 0 ==> c.runs > 0)
    case Failed => c.records == (if l.guarded then [false] else []) && c.runs > 0
    case CircuitOpen => l.guarded && c.records == (if c.runs > 0 then [false] else [])
    case BulkheadFull => c.records == [] && c.runs == 0
    case RetryBudgetExceeded => c.records == [] && c.runs > 0 && l.retryBudget > 0
    case RateLimited => c.records == [] && l.rateLimited
  }

  predicate InLoop(c: Call) {
    c.phase.AtBudget? || c.phase.AtRate? || c.phase.AtBreaker? || c.phase.Running? || c.phase.Backing?
  }

  lemma LoopKeepsInv(l: Limits, c: Call, a: Action)
    requires CallInv(l, c) && Next(l, c, a).Some? && InLoop(c)
    ensures CallInv(l, Next(l, c, a).value)
    ensures Next(l, c, a).value.attempts == c.attempts
  {
  }

  lemma ExitKeepsInv(l: Limits, c: Call, a: Action)
    requires CallInv(l, c) && Next(l, c, a).Some? && !InLoop(c)
    ensures CallInv(l, Next(l, c, a).value)
    ensures Next(l, c, a).value.attempts == c.attempts
  {
  }

  lemma NextKeepsInv(l: Limits, c: Call, a: Action)
    requires CallInv(l, c) && Next(l, c, a).Some?
    ensures CallInv(l, Next(l, c, a).value)
    ensures Next(l, c, a).value.attempts == c.attempts
  {
    hide CallInv, Next;
    if InLoop(c) {
      LoopKeepsInv(l, c, a);
    } else {
      ExitKeepsInv(l, c, a);
    }
  }

  lemma {:induction false} WalkKeepsInv(l: Limits, attempts: int, actions: seq<Action>)
    requires Walk(l, Start(attempts), actions).Some?
    ensures CallInv(l, Walk(l, Start(attempts), actions).value)
    ensures Walk(l, Start(attempts), actions).value.attempts == attempts
  {
    hide Next, CallInv;
    if actions != [] {
      WalkKeepsInv(l, attempts, actions[..|actions| - 1]);
      NextKeepsInv(l, Walk(l, Start(attempts), actions[..|actions| - 1]).value, actions[|actions| - 1]);
    } else {
      StartIsFine(l, attempts);
    }
  }

  lemma StartIsFine(l: Limits, attempts: int)
    ensures CallInv(l, Start(attempts))
  {
  }

  /** The slots a walk took less the slots it gave back. */
  function SlotBalance(l: Limits, c: Call, actions: seq<Action>): int
    requires Walk(l, c, actions).Some?
  {
    if actions == [] then 0
    else
      var before := Walk(l, c, actions[..|actions| - 1]).value;
      SlotBalance(l, c, actions[..|actions| - 1]) + SlotEffect(l, before, actions[|actions| - 1])
  }

  function BudgetBalance(l: Limits, c: Call, actions: seq<Action>): int
    requires Walk(l, c, actions).Some?
  {
    if actions == [] then 0
    else
      var before := Walk(l, c, actions[..|actions| - 1]).value;
      BudgetBalance(l, c, actions[..|actions| - 1]) + BudgetEffect(l, before, actions[|actions| - 1])
  }

  /** What an action does to the bulkhead's semaphore. */
  function SlotEffect(l: Limits, c: Call, a: Action): int {
    match a
    case Enter(got) => if got && l.maxConcurrent > 0 then 1 else 0
    case Leave => if c.slot then -1 else 0
    case _ => 0
  }

  /** What an action does to the retry budget's semaphore. */
  function BudgetEffect(l: Limits, c: Call, a: Action): int {
    match a
    case Budget(got) => if got && l.retryBudget > 0 && c.attempt > 0 then 1 else 0
    case GiveBudget => if c.held then -1 else 0
    case _ => 0
  }

  lemma EffectsTrackHoldings(l: Limits, c: Call, a: Action)
    requires CallInv(l, c) && Next(l, c, a).Some?
    ensures SlotEffect(l, c, a) == (if Next(l, c, a).value.slot then 1 else 0) - (if c.slot then 1 else 0)
    ensures BudgetEffect(l, c, a) == (if Next(l, c, a).value.held then 1 else 0) - (if c.held then 1 else 0)
  {
  }

  lemma {:induction false} BalanceIsHolding(l: Limits, attempts: int, actions: seq<Action>)
    requires Walk(l, Start(attempts), actions).Some?
    ensures SlotBalance(l, Start(attempts), actions) == (if Walk(l, Start(attempts), actions).value.slot then 1 else 0)
    ensures BudgetBalance(l, Start(attempts), actions) == (if Walk(l, Start(attempts), actions).value.held then 1 else 0)
  {
    hide Next, SlotEffect, BudgetEffect, CallInv;
    if actions != [] {
      var earlier := actions[..|actions| - 1];
      BalanceIsHolding(l, attempts, earlier);
      WalkKeepsInv(l, attempts, earlier);
      EffectsTrackHoldings(l, Walk(l, Start(attempts), earlier).value, actions[|actions| - 1]);
    }
  }

  /**
   * Every way a call can return: it gave back exactly the slots it took, fn ran at most
   * `attempts` times, and the breaker got exactly one outcome if fn ran, except on the two
   * early returns, which record nothing. A success ran fn exactly if an attempt was allowed;
   * without one the call still records a success.
   */
  lemma EveryReturnIsBalanced(l: Limits, attempts: int, actions: seq<Action>, r: Result)
    requires Walk(l, Start(attempts), actions).Some?
    requires Walk(l, Start(attempts), actions).value.phase == Returned(r)
    ensures SlotBalance(l, Start(attempts), actions) == 0
    ensures BudgetBalance(l, Start(attempts), actions) == 0
    ensures var c := Walk(l, Start(attempts), actions).value;
            && c.runs <= (if attempts <= 0 then 0 else attempts)
            && (r in {RetryBudgetExceeded, RateLimited, BulkheadFull} ==> c.records == [])
            && (l.guarded && c.runs > 0 && r !in {RetryBudgetExceeded, RateLimited} ==> c.records == [r == Succeeded])
            && (c.runs == 0 ==> c.records == [] || (attempts <= 0 && c.records == [true]))
            && (r == Succeeded ==> (c.runs > 0 <==> attempts >= 1) && c.records == if l.guarded then [true] else [])
            && (attempts <= 0 ==> c.runs == 0 && r in {Succeeded, BulkheadFull})
  {
    WalkKeepsInv(l, attempts, actions);
    BalanceIsHolding(l, attempts, actions);
    hide Next, SlotBalance, BudgetBalance, Walk;
  }

  lemma WalkMore(l: Limits, c: Call, actions: seq<Action>, a: Action)
    requires Walk(l, c, actions).Some?
    ensures Walk(l, c, actions + [a]) == Next(l, Walk(l, c, actions).value, a)
  {
    hide Next;
    assert (actions + [a])[..|actions|] == actions;
  }

  lemma OnlyReportRecords(l: Limits, c: Call, a: Action)
    requires Next(l, c, a).Some?
    ensures Next(l, c, a).value.attempts == c.attempts
    ensures !a.Report? ==> Next(l, c, a).value.records == c.records
  {
  }

  /** With a negative retry count a call never runs fn, and yet succeeds and tells the breaker so. */
  lemma WithoutAttempts(l: Limits, attempts: int)
    requires attempts <= 0 && l.guarded
    ensures var returned := Walk(l, Start(attempts), [Enter(true)] + [GiveBudget] + [Report(true)] + [Leave]);
            returned == Some(Start(attempts).(phase := Returned(Succeeded), records := [true]))
  {
    hide Walk;
    var c := Start(attempts);
    WalkOne(l, c, Enter(true));
    WalkMore(l, c, [Enter(true)], GiveBudget);
    WalkMore(l, c, [Enter(true)] + [GiveBudget], Report(true));
    WalkMore(l, c, [Enter(true)] + [GiveBudget] + [Report(true)], Leave);
    assert c.records + [true] == [true];
  }

  lemma WalkOne(l: Limits, c: Call, a: Action)
    ensures Walk(l, c, [a]) == Next(l, c, a)
  {
    hide Next;
    assert [a][..0] == [];
  }
}
