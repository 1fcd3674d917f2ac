// The loop of Execute (cloud/resilience/client_executor.go).
//
// A whole call is proved to walk the automaton of ProtectedCalls from Entering to Returned,
// to give back every slot it took, and to leave in the breaker exactly the operations of
// that walk.
module ClientExecutor {
  import opened Options
  import opened CircuitBreaking
  import opened ProtectedCalls
  import opened RetryPolicies

  datatype RateReply = Allowed | Limited | StoreFailed

  /** What the surroundings do to one attempt. */
  datatype Env = Env(
    reply: RateReply,
    askAt: int,
    ok: bool,             // fn returned nil
    cancelled: bool,      // the call's budget is over after the attempt
    retryable: bool,      // the error asks for a retry
    interrupted: bool,    // the backoff sleep was cut short
    dur: int)

  /** Only a failed attempt is followed by another, and only if nothing forbids it. */
  predicate AsksAgain(e: Env) {
    !e.ok && !e.cancelled && e.retryable && !e.interrupted
  }

  /** What a call is given: the limits, its number of attempts, and what each of them will meet. */
  datatype Given = Given(limits: Limits, config: Config, attempts: int, env: seq<Env>, recordAt: int, budgetFree: bool)

  /** What a call leaves behind: its result, how often fn ran, and the operations on the breaker. */
  datatype Account = Account(result: Result, runs: nat, ops: seq<Op>)

  function AskOps(l: Limits, now: int): seq<Op> {
    if l.guarded then [Ask(now)] else []
  }

  function RecordOps(l: Limits, now: int, ok: bool, dur: int): seq<Op> {
    if l.guarded then [Op.Record(now, ok, dur)] else []
  }

  /** Why attempt i is turned away before fn runs, if it is. */
  function Refusal(e: Env, i: nat, budgetFree: bool, allowed: bool): Option<Result> {
    if i > 0 && !budgetFree then Some(RetryBudgetExceeded)
    else if e.reply.Limited? then Some(RateLimited)
    else if !allowed then Some(CircuitOpen)
    else None
  }

  /** The operations on the breaker that a turn of the loop makes. */
  function TurnOps(l: Limits, e: Env, refusal: Option<Result>, ran: bool, lastDur: int): seq<Op> {
    (if refusal in {None, Some(CircuitOpen)} then AskOps(l, e.askAt) else [])
    + (if refusal == Some(CircuitOpen) && ran then [Op.Record(e.askAt, false, lastDur)] else [])
  }

  /** The rest of a call that stands before attempt i, after the given breaker operations. */
  function FromAttempt(g: Given, b0: Breaker, ops: seq<Op>, i: nat, dur: int): Account
    requires ValidConfig(g.config) && i < g.attempts <= |g.env|
    decreases g.attempts - i
  {
    var e := g.env[i];
    var refusal := Refusal(e, i, g.budgetFree, g.limits.guarded ==> Allows(g.config, Run(g.config, b0, ops), e.askAt));
    var ops' := ops + TurnOps(g.limits, e, refusal, i > 0, dur);
    if refusal.Some? then Account(refusal.value, i, ops')
    else if AsksAgain(e) && i + 1 < g.attempts then FromAttempt(g, b0, ops', i + 1, e.dur)
    else Account(ResultOf(e.ok), i + 1, ops' + RecordOps(g.limits, g.recordAt, e.ok, e.dur))
  }

  lemma FromAttemptUnfolds(g: Given, b0: Breaker, ops: seq<Op>, i: nat, dur: int)
    requires ValidConfig(g.config) && i < g.attempts <= |g.env|
    ensures var e := g.env[i];
            var refusal := Refusal(e, i, g.budgetFree, g.limits.guarded ==> Allows(g.config, Run(g.config, b0, ops), e.askAt));
            var ops' := ops + TurnOps(g.limits, e, refusal, i > 0, dur);
            FromAttempt(g, b0, ops, i, dur)
              == match refusal
                 case Some(r) => Account(r, i, ops')
                 case None =>
                   if AsksAgain(e) && i + 1 < g.attempts then FromAttempt(g, b0, ops', i + 1, e.dur)
                   else Account(ResultOf(e.ok), i + 1, ops' + RecordOps(g.limits, g.recordAt, e.ok, e.dur))
  {
    hide Refusal, Allows, Run, TurnOps, RecordOps;
  }

  /** A whole call, with or without a free bulkhead slot. */
  function AccountOf(g: Given, b0: Breaker, slotFree: bool): Account
    requires ValidConfig(g.config) && g.attempts <= |g.env|
  {
    if !slotFree then Account(BulkheadFull, 0, [])
    else if g.attempts <= 0 then Account(Succeeded, 0, RecordOps(g.limits, g.recordAt, true, 0))
    else FromAttempt(g, b0, [], 0, 0)
  }

  lemma NoAttempt(g: Given, b0: Breaker)
    requires ValidConfig(g.config) && g.attempts <= |g.env| && g.attempts <= 0
    ensures AccountOf(g, b0, true) == Account(ResultOf(true), 0, [] + RecordOps(g.limits, g.recordAt, true, 0))
  {
    assert [] + RecordOps(g.limits, g.recordAt, true, 0) == RecordOps(g.limits, g.recordAt, true, 0);
  }

  /**
   * How a call ends, by what its attempts met: every attempt but the last failed and asked
   * for another; the last one gave the result, and succeeded, forbade another or was the last
   * allowed; and a call that is turned away instead was turned away for the reason it names.
   */
  lemma {:induction false} EndsAsAttemptsSay(g: Given, b0: Breaker, ops: seq<Op>, i: nat, dur: int)
    requires ValidConfig(g.config) && i < g.attempts <= |g.env|
    ensures var a, env := FromAttempt(g, b0, ops, i, dur), g.env;
            && i <= a.runs <= g.attempts
            && (forall k :: i <= k < a.runs - 1 ==>
                  !env[k].ok && !env[k].cancelled && env[k].retryable && !env[k].interrupted)
            && (forall k :: i <= k < a.runs ==> !env[k].reply.Limited?)
            && match a.result
               case BulkheadFull => false
               case RetryBudgetExceeded => 0 < a.runs < g.attempts && !g.budgetFree && (a.runs > i ==> AsksAgain(env[a.runs - 1]))
               case RateLimited => && a.runs < g.attempts && env[a.runs].reply.Limited?
                                   && (a.runs > i ==> AsksAgain(env[a.runs - 1]))
               case CircuitOpen => a.runs < g.attempts && g.limits.guarded && (a.runs > i ==> AsksAgain(env[a.runs - 1]))
               case _ =>
                 && a.runs > i
                 && a.result == (if env[a.runs - 1].ok then Succeeded else Failed)
                 && (|| env[a.runs - 1].ok || env[a.runs - 1].cancelled || !env[a.runs - 1].retryable
                     || env[a.runs - 1].interrupted || a.runs == g.attempts)
    decreases g.attempts - i
  {
    hide Allows, Run, TurnOps, RecordOps, FromAttempt;
    FromAttemptUnfolds(g, b0, ops, i, dur);
    var e := g.env[i];
    var refusal := Refusal(e, i, g.budgetFree, g.limits.guarded ==> Allows(g.config, Run(g.config, b0, ops), e.askAt));
    if refusal == None && AsksAgain(e) && i + 1 < g.attempts {
      EndsAsAttemptsSay(g, b0, ops + TurnOps(g.limits, e, refusal, i > 0, dur), i + 1, e.dur);
    }
  }

  /** What a call's attempts met says how often fn ran and with which result. */
  ghost predicate EndsAsMet(env: seq<Env>, attempts: int, r: Result, runs: nat) {
    && runs <= |env|
    && (forall k :: 0 <= k < runs - 1 ==> !env[k].ok && !env[k].cancelled && env[k].retryable && !env[k].interrupted)
    && (r in {Succeeded, Failed} && runs > 0 ==>
          && r == (if env[runs - 1].ok then Succeeded else Failed)
          && (|| env[runs - 1].ok || env[runs - 1].cancelled || !env[runs - 1].retryable
              || env[runs - 1].interrupted || runs == attempts))
  }

  lemma EndsAsMetBy(g: Given, b0: Breaker, slotFree: bool)
    requires ValidConfig(g.config) && g.attempts <= |g.env|
    ensures var a := AccountOf(g, b0, slotFree); EndsAsMet(g.env, g.attempts, a.result, a.runs)
  {
    if slotFree && g.attempts > 0 {
      EndsAsAttemptsSay(g, b0, [], 0, 0);
    }
    hide FromAttempt;
  }

  /** What a call records at its end, if attempt i would be next and lastDur was the last duration. */
  function LastWords(g: Given, result: Result, i: nat, lastDur: int): seq<Op> {
    match result
    case CircuitOpen =>
      if i < |g.env| then
        [Ask(g.env[i].askAt)] + if i > 0 then [Op.Record(g.env[i].askAt, false, lastDur)] else []
      else []
    case Succeeded => [Op.Record(g.recordAt, true, lastDur)]
    case Failed => [Op.Record(g.recordAt, false, lastDur)]
    case _ => []
  }

  /** The operations a call adds to ops from attempt i on: a question per run of fn, each answered yes, then its last words. */
  ghost predicate AsksAndTells(g: Given, b0: Breaker, ops: seq<Op>, i: nat, dur: int, a: Account)
    requires ValidConfig(g.config)
  {
    && i <= a.runs <= g.attempts <= |g.env| && ops <= a.ops && |ops| + a.runs - i <= |a.ops|
    && (forall k :: i <= k < a.runs ==>
          && a.ops[|ops| + k - i] == Ask(g.env[k].askAt)
          && Allows(g.config, Run(g.config, b0, a.ops[..|ops| + k - i]), g.env[k].askAt))
    && a.ops[|ops| + a.runs - i..] == LastWords(g, a.result, a.runs, if a.runs > i then g.env[a.runs - 1].dur else dur)
    && (a.result.CircuitOpen? ==>
          && a.runs < g.attempts
          && !Allows(g.config, Run(g.config, b0, a.ops[..|ops| + a.runs - i]), g.env[a.runs].askAt))
  }

  lemma TurnedAway(g: Given, b0: Breaker, ops: seq<Op>, i: nat, dur: int)
    requires ValidConfig(g.config) && i < g.attempts <= |g.env| && g.limits.guarded
    ensures var e := g.env[i];
            var refusal := Refusal(e, i, g.budgetFree, Allows(g.config, Run(g.config, b0, ops), e.askAt));
            refusal.Some? ==>
              AsksAndTells(g, b0, ops, i, dur, Account(refusal.value, i, ops + TurnOps(g.limits, e, refusal, i > 0, dur)))
  {
    hide Allows, Run;
    var e := g.env[i];
    var refusal := Refusal(e, i, g.budgetFree, Allows(g.config, Run(g.config, b0, ops), e.askAt));
    var all := ops + TurnOps(g.limits, e, refusal, i > 0, dur);
    assert all[..|ops|] == ops && all[|ops|..] == TurnOps(g.limits, e, refusal, i > 0, dur);
  }

  lemma AskedOnce(g: Given, e: Env, ran: bool, dur: int)
    requires g.limits.guarded
    ensures TurnOps(g.limits, e, None, ran, dur) == [Ask(e.askAt)]
  {
  }

  lemma RanLast(g: Given, b0: Breaker, ops: seq<Op>, i: nat, dur: int)
    requires ValidConfig(g.config) && i < g.attempts <= |g.env| && g.limits.guarded
    requires Allows(g.config, Run(g.config, b0, ops), g.env[i].askAt)
    ensures var e := g.env[i];
            AsksAndTells(g, b0, ops, i, dur,
                         Account(ResultOf(e.ok), i + 1, ops + [Ask(e.askAt)] + RecordOps(g.limits, g.recordAt, e.ok, e.dur)))
  {
    hide Allows, Run;
    var e := g.env[i];
    var all := ops + [Ask(e.askAt)] + RecordOps(g.limits, g.recordAt, e.ok, e.dur);
    assert all[..|ops|] == ops && all[|ops| + 1..] == RecordOps(g.limits, g.recordAt, e.ok, e.dur);
  }

  lemma RanBefore(g: Given, b0: Breaker, ops: seq<Op>, i: nat, dur: int, a: Account)
    requires ValidConfig(g.config) && i < g.attempts <= |g.env| && g.limits.guarded
    requires Allows(g.config, Run(g.config, b0, ops), g.env[i].askAt)
    requires AsksAndTells(g, b0, ops + [Ask(g.env[i].askAt)], i + 1, g.env[i].dur, a)
    ensures AsksAndTells(g, b0, ops, i, dur, a)
  {
    hide Allows, Run, LastWords;
    var more := ops + [Ask(g.env[i].askAt)];
    assert a.ops[..|more|] == more;
    assert a.ops[|ops|] == more[|ops|] && a.ops[..|ops|] == more[..|ops|] == ops;
    forall k | i <= k < a.runs
      ensures a.ops[|ops| + k - i] == Ask(g.env[k].askAt)
      ensures Allows(g.config, Run(g.config, b0, a.ops[..|ops| + k - i]), g.env[k].askAt)
    {
      if k > i {
        assert |more| + k - (i + 1) == |ops| + k - i;
      }
    }
  }

  /**
   * What a guarded call does to the breaker: it asks before every run of fn and is allowed
   * each time; at the end it records one outcome, with the duration of the last run, unless
   * it was turned away by the budget or the rate limit; and a refused retry records a failure.
   */
  lemma {:induction false} CallAsksAndTells(g: Given, b0: Breaker, ops: seq<Op>, i: nat, dur: int)
    requires ValidConfig(g.config) && i < g.attempts <= |g.env| && g.limits.guarded
    ensures AsksAndTells(g, b0, ops, i, dur, FromAttempt(g, b0, ops, i, dur))
    decreases g.attempts - i
  {
    hide Allows, Run, AsksAndTells, TurnOps, RecordOps;
    var e := g.env[i];
    var refusal := Refusal(e, i, g.budgetFree, Allows(g.config, Run(g.config, b0, ops), e.askAt));
    TurnedAway(g, b0, ops, i, dur);
    AskedOnce(g, e, i > 0, dur);
    if refusal == None {
      if AsksAgain(e) && i + 1 < g.attempts {
        CallAsksAndTells(g, b0, ops + [Ask(e.askAt)], i + 1, e.dur);
        RanBefore(g, b0, ops, i, dur, FromAttempt(g, b0, ops + [Ask(e.askAt)], i + 1, e.dur));
      } else {
        RanLast(g, b0, ops, i, dur);
      }
    }
  }

  /** The outcomes among a sequence of breaker operations. */
  function Outcomes(ops: seq<Op>): seq<bool> {
    if ops == [] then []
    else
      var last := ops[|ops| - 1];
      Outcomes(ops[..|ops| - 1]) + (if last.Record? then [last.success] else [])
  }

  lemma BreakerMore(c: Config, b: Breaker, ops: seq<Op>, op: Op)
    requires ValidConfig(c)
    ensures Run(c, b, ops + [op]) == Step(c, Run(c, b, ops), op)
    ensures Outcomes(ops + [op]) == Outcomes(ops) + (if op.Record? then [op.success] else [])
  {
    assert (ops + [op])[..|ops|] == ops;
  }

  /** The history of one Execute so far: the walk it is on and the breaker operations it made. */
  datatype Log = Log(actions: seq<Action>, ops: seq<Op>)

  class Executor {
    const limits: Limits
    const policyRetry: RetryPolicy
    const breaker: CircuitBreaker?
    var inFlight: nat
    var retries: nat

    ghost predicate Valid()
      reads this
    {
      && (limits.guarded <==> breaker != null)
      && (breaker != null ==> ValidConfig(breaker.config))
      && (limits.maxConcurrent > 0 ==> inFlight <= limits.maxConcurrent)
      && (limits.retryBudget > 0 ==> retries <= limits.retryBudget)
    }

    constructor (limits: Limits, policyRetry: RetryPolicy, breaker: CircuitBreaker?)
      requires limits.guarded <==> breaker != null
      requires breaker != null ==> ValidConfig(breaker.config)
      ensures Valid() && inFlight == 0 && retries == 0
      ensures this.limits == limits && this.policyRetry == policyRetry && this.breaker == breaker
    {
      this.limits, this.policyRetry, this.breaker := limits, policyRetry, breaker;
      inFlight, retries := 0, 0;
    }

    /** A full bulkhead rejects; nothing is taken then. */
    method AcquireBulkhead() returns (got: bool)
      requires Valid()
      modifies this`inFlight
      ensures Valid()
      ensures got <==> limits.maxConcurrent == 0 || old(inFlight) < limits.maxConcurrent
      ensures inFlight == old(inFlight) + (if got && limits.maxConcurrent > 0 then 1 else 0)
    {
      if limits.maxConcurrent == 0 {
        return true;
      }
      if inFlight < limits.maxConcurrent {
        inFlight := inFlight + 1;
        return true;
      }
      return false;
    }

    method ReleaseBulkhead()
      requires Valid() && (limits.maxConcurrent > 0 ==> inFlight > 0)
      modifies this`inFlight
      ensures Valid()
      ensures inFlight == old(inFlight) - (if limits.maxConcurrent > 0 then 1 else 0)
    {
      if limits.maxConcurrent > 0 {
        inFlight := inFlight - 1;
      }
    }

    method RetryBudgetRelease(held: bool)
      requires Valid() && (held ==> retries > 0)
      modifies this`retries
      ensures Valid()
      ensures retries == old(retries) - (if held then 1 else 0)
    {
      if !held {
        return;
      }
      retries := retries - 1;
    }

    ghost predicate Consistent(log: Log, c: Call, b0: Breaker)
      reads breaker
    {
      && Walk(limits, Start(c.attempts), log.actions) == Some(c)
      && Outcomes(log.ops) == c.records
      && (breaker != null ==> ValidConfig(breaker.config) && breaker.Abs() == Run(breaker.config, b0, log.ops))
    }

    /** Appends a purely local action to the log. */
    ghost method Note(log: Log, c: Call, b0: Breaker, a: Action) returns (log': Log, c': Call)
      requires Consistent(log, c, b0) && Next(limits, c, a).Some?
      requires !a.Report?
      ensures Consistent(log', c', b0) && c' == Next(limits, c, a).value && log'.ops == log.ops
    {
      hide Next, Walk, Outcomes, Run;
      WalkMore(limits, Start(c.attempts), log.actions, a);
      OnlyReportRecords(limits, c, a);
      log' := log.(actions := log.actions + [a]);
      c' := Next(limits, c, a).value;
    }

    /** Asks the breaker, if there is one, for a permit. */
    method AskBreaker(now: int, ghost log: Log, ghost c: Call, ghost b0: Breaker)
      returns (ok: bool, ghost log': Log, ghost c': Call)
      requires Valid() && Consistent(log, c, b0) && c.phase.AtBreaker?
      modifies breaker
      ensures Valid() && Consistent(log', c', b0) && Next(limits, c, Permit(ok)) == Some(c')
      ensures log'.ops == log.ops + AskOps(limits, now)
      ensures ok <==> breaker == null || Allows(breaker.config, old(breaker.Abs()), now)
    {
      WalkMore(limits, Start(c.attempts), log.actions, Permit(true));
      WalkMore(limits, Start(c.attempts), log.actions, Permit(false));
      if breaker == null {
        ok := true;
        log' := log.(actions := log.actions + [Permit(true)]);
      } else {
        BreakerMore(breaker.config, b0, log.ops, Ask(now));
        ok := breaker.Allow(now);
        log' := Log(log.actions + [Permit(ok)], log.ops + [Ask(now)]);
      }
      c' := Next(limits, c, Permit(ok)).value;
    }

    /** Records the call's outcome into the breaker. */
    method RecordOutcome(success: bool, dur: int, now: int, ghost log: Log, ghost c: Call, ghost b0: Breaker)
      returns (ghost log': Log, ghost c': Call)
      requires Valid() && breaker != null && Consistent(log, c, b0)
      requires c.phase.Recording? && c.phase.outcome == success
      modifies breaker
      ensures Valid() && Consistent(log', c', b0) && Next(limits, c, Report(success)) == Some(c')
      ensures log'.ops == log.ops + [Op.Record(now, success, dur)]
    {
      WalkMore(limits, Start(c.attempts), log.actions, Report(success));
      BreakerMore(breaker.config, b0, log.ops, Record(now, success, dur));
      breaker.Record(success, dur, now);
      log' := Log(log.actions + [Report(success)], log.ops + [Record(now, success, dur)]);
      c' := Next(limits, c, Report(success)).value;
    }

    /** The retry-budget stage: the first attempt passes, a retry needs a slot. */
    method TakeBudget(i: nat, ghost log: Log, ghost c: Call, ghost b0: Breaker)
      returns (got: bool, held: bool, ghost log': Log, ghost c': Call)
      requires Valid() && Consistent(log, c, b0) && c.phase.AtBudget? && !c.held && c.attempt == i
      modifies this`retries
      ensures Valid() && Consistent(log', c', b0)
      ensures held ==> got
      ensures c' == if got then c.(held := held, phase := AtRate) else c.(phase := Leaving(RetryBudgetExceeded))
      ensures retries == old(retries) + (if held then 1 else 0)
      ensures got <==> limits.retryBudget == 0 || i == 0 || old(retries) < limits.retryBudget
      ensures log'.ops == log.ops
    {
      held := false;
      if limits.retryBudget > 0 && i > 0 {
        if retries < limits.retryBudget {
          retries := retries + 1;
          held := true;
        } else {
          log', c' := Note(log, c, b0, Budget(false));
          return false, false, log', c';
        }
      }
      got := true;
      log', c' := Note(log, c, b0, Budget(true));
    }

    /** The rate-limit stage: only a limit decision stops the call, a store failure does not. */
    method ChargeRate(reply: RateReply, ghost log: Log, ghost c: Call, ghost b0: Breaker)
      returns (pass: bool, ghost log': Log, ghost c': Call)
      requires Valid() && Consistent(log, c, b0) && c.phase.AtRate?
      requires reply.Limited? ==> limits.rateLimited
      ensures Consistent(log', c', b0)
      ensures pass <==> !reply.Limited?
      ensures c' == c.(phase := if pass then AtBreaker else Leaving(RateLimited))
      ensures log'.ops == log.ops
    {
      pass := !reply.Limited?;
      log', c' := Note(log, c, b0, Charge(!pass));
    }

    /** Gives back the budget slot a call still holds on its way out. */
    method DropBudget(held: bool, ghost log: Log, ghost c: Call, ghost b0: Breaker)
      returns (ghost log': Log, ghost c': Call)
      requires Valid() && Consistent(log, c, b0) && c.phase.Leaving? && c.held == held && (held ==> retries > 0)
      modifies this`retries
      ensures Valid() && Consistent(log', c', b0)
      ensures c' == c.(held := false) && log'.ops == log.ops
      ensures retries == old(retries) - (if held then 1 else 0)
    {
      log', c' := log, c;
      if held {
        log', c' := Note(log, c, b0, GiveBudget);
      }
      RetryBudgetRelease(held);
    }

    /** The breaker stage. A refused call that already ran folds its last, failed outcome in. */
    method PassBreaker(e: Env, ran: bool, lastDur: int, held: bool, ghost log: Log, ghost c: Call, ghost b0: Breaker)
      returns (pass: bool, ghost log': Log, ghost c': Call)
      requires Valid() && Consistent(log, c, b0) && c.phase.AtBreaker? && c.held == held && (held ==> retries > 0)
      requires ran <==> c.runs > 0
      modifies this`retries, breaker
      ensures Valid() && Consistent(log', c', b0)
      ensures pass ==> c' == c.(phase := Running) && retries == old(retries)
      ensures !pass ==> c'.phase == Leaving(CircuitOpen) && !c'.held
                        && c' == c.(phase := c'.phase, held := false, records := c'.records)
      ensures !pass ==> retries == old(retries) - (if held then 1 else 0)
      ensures pass <==> breaker == null || Allows(breaker.config, old(breaker.Abs()), e.askAt)
      ensures log'.ops == log.ops + AskOps(limits, e.askAt)
                          + if !pass && ran then [Op.Record(e.askAt, false, lastDur)] else []
    {
      pass, log', c' := AskBreaker(e.askAt, log, c, b0);
      if !pass {
        if ran {
          log', c' := RecordOutcome(false, lastDur, e.askAt, log', c', b0);
        }
        log', c' := DropBudget(held, log', c', b0);
      }
    }

    /** fn has answered: stop on success, on a spent budget, on a final error or on the last attempt; otherwise back off. */
    method AfterFn(attempts: int, i: nat, e: Env, budgetHeld: bool, ghost log: Log, ghost c: Call, ghost b0: Breaker)
      returns (verdict: Verdict, held: bool, ghost log': Log, ghost c': Call)
      requires Valid() && Consistent(log, c, b0)
      requires c.phase.Running? && c.held == budgetHeld && c.attempt == i < c.attempts == attempts
      requires budgetHeld ==> retries > 0
      modifies this`retries
      ensures Valid() && Consistent(log', c', b0) && !verdict.Exit?
      ensures retries == old(retries) - (if budgetHeld && !held then 1 else 0) && (held ==> budgetHeld)
      ensures c'.attempts == c.attempts && c'.held == held && c'.slot == c.slot && c'.runs == c.runs + 1
      ensures verdict.Stop? ==> c'.phase == Finishing(e.ok) && held == budgetHeld
      ensures verdict.Retry? ==> c'.phase.AtBudget? && !held && c'.attempt == i + 1
      ensures verdict.Retry? <==> !e.ok && !e.cancelled && e.retryable && !e.interrupted && i + 1 < attempts
      ensures log'.ops == log.ops
    {
      hide Consistent, Valid;
      held := budgetHeld;
      if e.ok {
        log', c' := Note(log, c, b0, Attempt(true, false));
        return Stop, held, log', c';
      }
      if e.cancelled || !e.retryable || i == attempts - 1 || e.interrupted {
        log', c' := Note(log, c, b0, Attempt(false, false));
        return Stop, held, log', c';
      }
      log', c' := Note(log, c, b0, Attempt(false, true));
      log', c' := Note(log', c', b0, GiveBudget);
      RetryBudgetRelease(held);
      return Retry, false, log', c';
    }

    ghost predicate BudgetFree()
      reads this
    {
      limits.retryBudget == 0 || retries < limits.retryBudget
    }

    ghost predicate Allowed(now: int)
      reads breaker
    {
      breaker == null || Allows(breaker.config, breaker.Abs(), now)
    }

    /** The stages in front of fn. */
    method PassStages(i: nat, e: Env, ran: bool, lastDur: int, ghost log: Log, ghost c: Call, ghost b0: Breaker)
      returns (refusal: Option<Result>, held: bool, ghost log': Log, ghost c': Call)
      requires Valid() && Consistent(log, c, b0)
      requires c.phase.AtBudget? && !c.held && c.attempt == i && (ran <==> c.runs > 0)
      requires e.reply.Limited? ==> limits.rateLimited
      modifies this`retries, breaker
      ensures Valid() && Consistent(log', c', b0)
      ensures c'.attempts == c.attempts && c'.held == held && c'.slot == c.slot && c'.runs == c.runs && c'.attempt == i
      ensures retries == old(retries) + (if held then 1 else 0)
      ensures refusal == Refusal(e, i, old(BudgetFree()), old(Allowed(e.askAt)))
      ensures if refusal.Some? then c'.phase == Leaving(refusal.value) && !held else c'.phase.Running?
      ensures log'.ops == log.ops + TurnOps(limits, e, refusal, ran, lastDur)
    {
      hide Consistent, Valid, Next, Allows, AskOps;
      var pass;
      pass, held, log', c' := TakeBudget(i, log, c, b0);
      if !pass {
        return Some(RetryBudgetExceeded), false, log', c';
      }
      pass, log', c' := ChargeRate(e.reply, log', c', b0);
      if !pass {
        log', c' := DropBudget(held, log', c', b0);
        return Some(RateLimited), false, log', c';
      }
      pass, log', c' := PassBreaker(e, ran, lastDur, held, log', c', b0);
      if !pass {
        return Some(CircuitOpen), false, log', c';
      }
      refusal := None;
    }

    /** One turn of the attempt loop. */
    method RunAttempt(attempts: int, i: nat, e: Env, ran: bool, lastDur: int, ghost log: Log, ghost c: Call, ghost b0: Breaker)
      returns (verdict: Verdict, held: bool, ghost log': Log, ghost c': Call)
      requires Valid() && Consistent(log, c, b0)
      requires c.phase.AtBudget? && !c.held && c.attempt == i < c.attempts == attempts && (ran <==> c.runs > 0)
      requires e.reply.Limited? ==> limits.rateLimited
      modifies this`retries, breaker
      ensures Valid() && Consistent(log', c', b0)
      ensures c'.attempts == c.attempts && c'.held == held && c'.slot == c.slot
      ensures retries == old(retries) + (if held then 1 else 0)
      ensures match verdict
              case Exit(r) => c'.phase == Leaving(r) && !held && c'.runs == c.runs
              case Stop => c'.phase == Finishing(e.ok) && c'.runs == c.runs + 1
              case Retry => c'.phase.AtBudget? && !held && c'.attempt == i + 1 < c.attempts && c'.runs == c.runs + 1
      ensures var refusal := Refusal(e, i, old(BudgetFree()), old(Allowed(e.askAt)));
              && verdict == (match refusal
                             case Some(r) => Exit(r)
                             case None => if AsksAgain(e) && i + 1 < attempts then Retry else Stop)
              && log'.ops == log.ops + TurnOps(limits, e, refusal, ran, lastDur)
    {
      hide Consistent, Valid, Next, Allows, TurnOps, Refusal, Allowed, BudgetFree;
      var refusal;
      refusal, held, log', c' := PassStages(i, e, ran, lastDur, log, c, b0);
      if refusal.Some? {
        return Exit(refusal.value), false, log', c';
      }
      verdict, held, log', c' := AfterFn(attempts, i, e, held, log', c', b0);
    }

    /** After the loop: the budget slot goes back, then the call's one outcome is recorded. */
    method Finish(ok: bool, dur: int, now: int, held: bool, ghost log: Log, ghost c: Call, ghost b0: Breaker)
      returns (ghost log': Log, ghost c': Call)
      requires Valid() && Consistent(log, c, b0)
      requires c.phase == Finishing(ok) && c.held == held && (held ==> retries > 0)
      modifies this`retries, breaker
      ensures Valid() && Consistent(log', c', b0)
      ensures c'.phase == Leaving(ResultOf(ok)) && !c'.held && c'.runs == c.runs && c'.attempts == c.attempts
      ensures log'.ops == log.ops + RecordOps(limits, now, ok, dur)
      ensures retries == old(retries) - (if held then 1 else 0)
    {
      log', c' := Note(log, c, b0, GiveBudget);
      RetryBudgetRelease(held);
      if breaker != null {
        log', c' := RecordOutcome(ok, dur, now, log', c', b0);
      }
    }

    /** What a call is given on this executor as it stands. */
    ghost function GivenTo(callRetry: RetryPolicy, env: seq<Env>, recordAt: int): (g: Given)
      reads this
      ensures limits.guarded && breaker != null ==> g.config == breaker.config
    {
      Given(limits, if breaker == null then NO_CONFIG else breaker.config, AttemptsOf(policyRetry, callRetry), env, recordAt,
            BudgetFree())
    }

    ghost function BreakerNow(): Breaker
      reads breaker
    {
      if breaker == null then NO_BREAKER else breaker.Abs()
    }

    /**
     * One protected call. fn's answers and the clock come from env, one entry per attempt.
     * Its result, how often fn ran and what the breaker was asked and told are those of
     * AccountOf. Whatever happens, the call walks its automaton to Returned and gives back
     * every slot it took.
     */
    method Execute(callRetry: RetryPolicy, env: seq<Env>, recordAt: int)
      returns (r: Result, runs: nat, ghost log: Log, ghost c: Call)
      requires Valid() && |env| >= AttemptsOf(policyRetry, callRetry)
      requires forall i :: 0 <= i < |env| && env[i].reply.Limited? ==> limits.rateLimited
      modifies this`inFlight, this`retries, breaker
      ensures Valid() && inFlight == old(inFlight) && retries == old(retries)
      ensures ValidConfig(old(GivenTo(callRetry, env, recordAt)).config)
      ensures Account(r, runs, log.ops)
                == AccountOf(old(GivenTo(callRetry, env, recordAt)), old(BreakerNow()),
                             limits.maxConcurrent == 0 || old(inFlight) < limits.maxConcurrent)
      ensures EndsAsMet(env, AttemptsOf(policyRetry, callRetry), r, runs)
      ensures Walk(limits, Start(AttemptsOf(policyRetry, callRetry)), log.actions) == Some(c)
      ensures c.phase == Returned(r) && c.runs == runs && c.records == Outcomes(log.ops)
      ensures breaker != null ==> breaker.Abs() == Run(breaker.config, old(breaker.Abs()), log.ops)
    {
      hide Walk, AttemptsOf, Consistent, Next, Allows, Run, FromAttempt, EndsAsMet;
      var attempts := AttemptsOf(policyRetry, callRetry);
      ghost var b0, g := BreakerNow(), GivenTo(callRetry, env, recordAt);
      var got;
      got, log, c := EnterCall(attempts, b0);
      if !got {
        ReadLog(log, c, b0);
        EndsAsMetBy(g, b0, false);
        return BulkheadFull, 0, log, c;
      }
      var ok, dur, held, verdict;
      verdict, ok, dur, held, runs, log, c := RunAttempts(g, attempts, env, log, c, b0);
      if verdict.Exit? {
        r := verdict.result;
      } else {
        log, c := Finish(ok, dur, recordAt, held, log, c, b0);
        r := ResultOf(ok);
      }
      log, c := LeaveCall(log, c, b0);
      ReadLog(log, c, b0);
      EndsAsMetBy(g, b0, true);
    }

    /** The attempt loop. */
    method RunAttempts(ghost g: Given, attempts: int, env: seq<Env>, ghost log: Log, ghost c: Call, ghost b0: Breaker)
      returns (verdict: Verdict, ok: bool, dur: int, held: bool, runs: nat, ghost log': Log, ghost c': Call)
      requires Valid() && Consistent(log, c, b0) && log.ops == [] && attempts <= |env|
      requires c == Start(attempts).(slot := c.slot, phase := if attempts <= 0 then Finishing(true) else AtBudget)
      requires forall i :: 0 <= i < |env| && env[i].reply.Limited? ==> limits.rateLimited
      requires g == Given(limits, if breaker == null then NO_CONFIG else breaker.config, attempts, env, g.recordAt, BudgetFree())
      modifies this`retries, breaker
      ensures Valid() && Consistent(log', c', b0) && ValidConfig(g.config)
      ensures c'.attempts == attempts && c'.runs == runs && c'.held == held && c'.slot == c.slot
      ensures retries == old(retries) + (if held then 1 else 0)
      ensures verdict.Exit? ==> c'.phase == Leaving(verdict.result) && !held
      ensures verdict.Exit? ==> Account(verdict.result, runs, log'.ops) == AccountOf(g, b0, true)
      ensures !verdict.Exit? ==> c'.phase == Finishing(ok)
      ensures !verdict.Exit? ==>
                Account(ResultOf(ok), runs, log'.ops + RecordOps(limits, g.recordAt, ok, dur)) == AccountOf(g, b0, true)
    {
      hide Walk, Consistent, Next, Allows, Run, FromAttempt, TurnOps, RecordOps, Refusal;
      runs, ok, dur, held, verdict, log', c' := 0, true, 0, false, Retry, log, c;
      var i := 0;
      while i < attempts && verdict.Retry?
        invariant Valid() && Consistent(log', c', b0) && ValidConfig(g.config)
        invariant c'.attempts == attempts && c'.runs == runs && c'.held == held && c'.slot == c.slot
        invariant retries == old(retries) + (if held then 1 else 0)
        invariant 0 <= i
        invariant verdict.Retry? && attempts > 0 ==>
                    c'.phase.AtBudget? && !held && c'.attempt == i == runs < attempts
                    && FromAttempt(g, b0, log'.ops, i, dur) == AccountOf(g, b0, true)
        invariant verdict.Retry? && attempts <= 0 ==>
                    c'.phase == Finishing(true) && ok && !held && log'.ops == [] && dur == 0 && runs == 0
        invariant verdict.Stop? ==> c'.phase == Finishing(ok)
        invariant verdict.Stop? ==>
                    Account(ResultOf(ok), runs, log'.ops + RecordOps(limits, g.recordAt, ok, dur)) == AccountOf(g, b0, true)
        invariant verdict.Exit? ==> c'.phase == Leaving(verdict.result) && !held
        invariant verdict.Exit? ==> Account(verdict.result, runs, log'.ops) == AccountOf(g, b0, true)
        decreases attempts - i, verdict.Retry?
      {
        StateIsRun(log', c', b0);
        FromAttemptUnfolds(g, b0, log'.ops, i, dur);
        verdict, held, log', c' := RunAttempt(attempts, i, env[i], runs > 0, dur, log', c', b0);
        if !verdict.Exit? {
          runs := runs + 1;
          ok, dur := env[i].ok, env[i].dur;
        }
        i := i + 1;
      }
      if verdict.Retry? {
        NoAttempt(g, b0);
      }
    }

    lemma StateIsRun(log: Log, c: Call, b0: Breaker)
      requires Consistent(log, c, b0)
      ensures breaker != null ==> ValidConfig(breaker.config) && breaker.Abs() == Run(breaker.config, b0, log.ops)
    {
    }

    /** The deferred bulkhead release. */
    method LeaveCall(ghost log: Log, ghost c: Call, ghost b0: Breaker) returns (ghost log': Log, ghost c': Call)
      requires Valid() && Consistent(log, c, b0) && c.phase.Leaving? && !c.held
      requires limits.maxConcurrent > 0 ==> inFlight > 0
      modifies this`inFlight
      ensures Valid() && Consistent(log', c', b0)
      ensures c' == c.(slot := false, phase := Returned(c.phase.result)) && log'.ops == log.ops
      ensures inFlight == old(inFlight) - (if limits.maxConcurrent > 0 then 1 else 0)
    {
      log', c' := Note(log, c, b0, Leave);
      ReleaseBulkhead();
    }

    /** The start of a call: the bulkhead is asked for a slot. */
    method EnterCall(attempts: int, ghost b0: Breaker) returns (got: bool, ghost log: Log, ghost c: Call)
      requires Valid() && (breaker != null ==> b0 == breaker.Abs())
      modifies this`inFlight
      ensures Valid() && Consistent(log, c, b0)
      ensures got ==> c == Start(attempts).(slot := limits.maxConcurrent > 0,
                                            phase := if attempts <= 0 then Finishing(true) else AtBudget)
      ensures !got ==> c == Start(attempts).(phase := Returned(BulkheadFull))
      ensures log.ops == [] && (got <==> limits.maxConcurrent == 0 || old(inFlight) < limits.maxConcurrent)
      ensures inFlight == old(inFlight) + (if got && limits.maxConcurrent > 0 then 1 else 0)
    {
      log, c := Log([], []), Start(attempts);
      NothingLogged(limits, c, b0, breaker);
      got := AcquireBulkhead();
      log, c := Note(log, c, b0, Enter(got));
    }

    lemma ReadLog(log: Log, c: Call, b0: Breaker)
      requires Consistent(log, c, b0)
      ensures Walk(limits, Start(c.attempts), log.actions) == Some(c) && c.records == Outcomes(log.ops)
      ensures breaker != null ==> ValidConfig(breaker.config) && breaker.Abs() == Run(breaker.config, b0, log.ops)
    {
    }
  }

  ghost const NO_CONFIG := NewConfig(Spec(Consecutive, 0, 0.0, 0, 0, 0, 0.0, 0), 0)
  ghost const NO_BREAKER := NewBreaker(NO_CONFIG, 0)

  /** How one turn of the loop ends: an early return, the end of the loop, or another turn. */
  datatype Verdict = Exit(result: Result) | Stop | Retry

  lemma NothingLogged(l: Limits, c: Call, b0: Breaker, breaker: CircuitBreaker?)
    ensures Walk(l, c, []) == Some(c)
    ensures Outcomes([]) == []
    ensures breaker != null && ValidConfig(breaker.config) ==> Run(breaker.config, b0, []) == b0
  {
  }
}
