# Verified model of the resilience, balancing, rate-limit, lock and log engines

This project models the stateful engines of go-spring in Dafny and proves what they promise
over every run. `dafny verify dfyconfig.toml` verifies the whole project.

Where the Go code changes fields, the model is a class with those fields. Each method is proved
against a function on values, and the results are lemmas about runs of these functions. Where
goroutines share state, every critical section, channel operation or atomic update is one step
of a state machine, and the results hold for every interleaving of these steps. Time is integer
nanoseconds and Go floats are reals.

- **Circuit breaker and protected calls** (`breaker`, `breaker_rules`, `retry`,
  `protected_call`, `executor`,
  `governed_calls`, `half_open_gate`, `gate_wedge`). The breaker with its strategies and its
  N-permit half-open gate; `Execute` with bulkhead, retry budget, rate stage and breaker; many
  calls interleaved. The gate can end up empty with nobody left to resolve it. `GateCanWedgeIff`
  says exactly for which configurations, and `WedgedForever` that it then never recovers.
- **Executor registry** (`client_registry`, `client_stale`). Lazy builds racing with `Apply` and
  `Close`. The store happens after the last check has released the lock, so one executor can be a policy
  behind, and never two; `StaleIsOwed` says after exactly which runs.
- **Balancers** (`weighted`, `consistent_hash`, `tracker`). Exact fairness of smooth weighted
  round-robin over every window, minimal movement of the hash ring with the hash uninterpreted,
  and the suspension tracker.
- **Rate limiters** (`buckets`, `windows`, `gcra`). The constant-space counters against rules over the
  whole history; the token bucket and the leaky bucket are the same limiter.
- **Lock and election** (`lease_protocol`, `memory_lock`, `election`). Lease generations with
  renewal, reclaim and the two halves of Unlock; many election instances on one key.
- **Log core** (`utf8`, `log_string`, `json_text`, `log_fields`, `encoder_state`, `encoders`,
  `ordered_keys`, `async_protocol`, `async_policy`, `async_stop`, `async_logger`,
  `tag_loggers`). Byte-level string
  escaping, the JSON and text encoders against a parser for RFC 8259, the asynchronous logger with
  its three overflow policies, and the lookup of the logger for a tag. The parser
  is held to the RFC itself: its numbers are those of section 6 (`NumberGrammar`), and it reads every
  escape of section 7 (`EveryCodePointCanBeEscaped`, `ShortEscapes`).

`options`, `discovery`, `sets` and `sums` hold shared datatypes and facts.

Where the code and its documentation disagree, the model follows the code. There is an input for
each case, and a proof of exactly when the documentation is right:

- `SlidingWindow` is called a hard cap on a rolling window (`cloud/resilience/ratelimit.go:54-55`).
  It is one if and only if `window * (limit - 1)` is below twice the whole part of the limit, which
  for a whole limit and a window of four nanoseconds or more means a limit of at most one
  (`SlidingCapsIff`, `SlidingCanExceedLimit`); otherwise it admits up to twice the limit
  (`SlidingWindowBound`).
- `LeakyBucket` is said to admit no faster than its drain rate over any interval
  (`cloud/ratelimit/leaky_bucket.go:30-31`). A full capacity fits at once (`WholeCapacityFits`), so
  this holds if and only if there is no capacity (`NeverFasterThanDrainIff`); what holds is capacity
  plus drained (`LeakyIntervalBound`), the bound of the token bucket.
- `GCRA` is called the dual of the token bucket (`cloud/ratelimit/gcra.go:37-38`). No configuration
  answers alike (`NeverTheTokenBucket`): its schedule is never moved up to the present, so it is a
  rule about the whole run (`AdmittedIffRunAllows`, `IdleTimeIsCredit`).
- `Execute` folds a rejected retry in so that a trial is never left unresolved
  (`cloud/resilience/client_executor.go:283-289`); it can be (`GateCanWedgeIff`).
- A breaker reports its transitions to a listener. With the consecutive strategy one transition is
  silent (`LateSuccessClosesSilently`, `ListenerFollowsConsecutiveIff`).
- `buildLocked` says re-reading the settings is the whole fix for a superseded policy
  (`cloud/resilience/client_manager.go:127-131`). It is unless an `Apply` or `Close` falls between
  the last check and the store (`NotOvertakenLeavesNothing`, `OvertakenStaysStale`, `StaleIsOwed`).
- `AsyncLogger.Stop` guarantees that buffered events are processed
  (`log/plugin_logger.go:204-206`). An Append beside it under drop-oldest can take the sentinel out
  (`StopCanHangIff`). Then only an Append whose event reuses the pooled object of the sentinel ends
  the wait, and that event is lost (`HangsIff`, `AfterLossReturnsIff`).
- The ring is kept for a reordered list (`cloud/loadbalance/consistenthash.go:133-135`), which is
  sound if and only if no virtual nodes collide (`OrderDoesNotMatterIff`). It is kept for changed
  records too, and then serves the old ones (`ChangedRecordsAreStillServed`).
- `MaxInterval` is the growth limit of `Backoff` (`cloud/resilience/client_executor.go:407-411`). It
  does not bound the wait after the first failure (`CapHoldsAfterFirst`), and jitter is added after
  it (`JitterExceedsCap`, `CapHoldsIff`, `ReturnedWaitKeepsCapIff`).
- Of the instances of an election exactly one is said to be the leader at any time
  (`cloud/lock/election.go:60`). One whose lease has expired can go on working beside its successor
  (`WorkOverlapsIff`), though only with its Lost closed (`OverlapNeedsALostLease`).

Two more limits, which the documentation does not mention:

- A negative `MaxRetries` means fn is never run and a success is recorded
  (`EveryReturnIsBalanced`, `WithoutAttempts`).
- Tag patterns are accepted that match no valid tag (`AliveIff`).

## Model

| member | source | states |
|---|---|---|
| SmoothWeighted.EffectiveWeight | cloud/loadbalance/weighted.go:61-66 | a missing or non-positive weight counts as exactly 1, so every endpoint keeps some traffic |
| SmoothWeighted.Winner | cloud/loadbalance/weighted.go:90-104 | the pick is an endpoint with the highest bid (score plus weight), the first of them on a tie |
| SmoothWeighted.Weighted.Pick | cloud/loadbalance/weighted.go:81-113 | one pick returns the winner and leaves exactly the scores of the round: all earned, the winner paid the total, addresses not listed forgotten; an empty list is an error and changes nothing |
| SmoothWeighted.ScoresSumToZero | cloud/loadbalance/weighted.go:87-104 | after any number of picks the scores of the listed endpoints add up to zero |
| SmoothWeighted.ScoreIsBalance | cloud/loadbalance/weighted.go:87-104 | the score of an endpoint is its share n*weight less total times its wins |
| SmoothWeighted.ScoreBounded | cloud/loadbalance/weighted.go:87-104 | no score ever reaches minus the total weight |
| SmoothWeighted.FullCycle | cloud/loadbalance/weighted.go:68-113 | from an empty balancer, a cycle of as many picks as the total weight chooses every endpoint exactly as often as its weight says |
| SmoothWeighted.CycleResets | cloud/loadbalance/weighted.go:87-104 | a full cycle brings every score back to zero |
| SmoothWeighted.Periodic | cloud/loadbalance/weighted.go:68-113 | the pick sequence and the scores repeat with the total weight as period |
| SmoothWeighted.EveryWindowIsFair | cloud/loadbalance/weighted.go:68-113 | any window of total-weight consecutive picks, wherever it starts, is exactly fair |
| SmoothWeighted.NeverAWholeWinAhead | cloud/loadbalance/weighted.go:68-113 | at no time is an endpoint a whole win ahead of its exact share, so picks are interleaved and not bunched |
| SmoothWeighted.NeverFarBehind | cloud/loadbalance/weighted.go:87-104 | nor is it further behind its share than the other endpoints together can be ahead |
| ConsistentHash.PointsAreReplicaHashes | cloud/loadbalance/consistenthash.go:118-125 | the virtual nodes of an address are the hashes of the address, a # and the number of the replica |
| ConsistentHash.ReplicaStringsDiffer | cloud/loadbalance/consistenthash.go:122 | those strings differ for any two addresses and numbers, even if an address holds a # |
| ConsistentHash.OwnerOf | cloud/loadbalance/consistenthash.go:118-126 | the owner of a ring point is a listed endpoint with a virtual node there |
| ConsistentHash.LastOneOwns | cloud/loadbalance/consistenthash.go:118-126 | of the endpoints with a virtual node at a point, the one listed last owns it |
| ConsistentHash.First | cloud/loadbalance/consistenthash.go:97-103 | the point that serves a hash is the first at or after it, or the smallest if there is none |
| ConsistentHash.MinimalMovement | cloud/loadbalance/consistenthash.go:97-103 | inserting one endpoint anywhere in the list sends every key to its old endpoint or to the new one; removal is the converse |
| ConsistentHash.OwnerAfterInsert | cloud/loadbalance/consistenthash.go:118-126 | an old point keeps its owner unless the new endpoint took it over, colliding points included |
| ConsistentHash.SearchAtLeast | cloud/loadbalance/consistenthash.go:99 | binary search over the ascending ring splits it at the hash |
| ConsistentHash.SearchFindsFirst | cloud/loadbalance/consistenthash.go:97-103 | the search hit, wrapped to 0 past the end, is the point that serves the hash, on any sorted arrangement of the points |
| ConsistentHash.Balancer.ComputeFingerprint | cloud/loadbalance/consistenthash.go:136-142 | the fingerprint is the XOR of the address hashes with the number of endpoints |
| ConsistentHash.FingerprintIgnoresOrder | cloud/loadbalance/consistenthash.go:133-142 | the fingerprint does not depend on the order of the list |
| ConsistentHash.Balancer.Rebuild | cloud/loadbalance/consistenthash.go:113-131 | the ring holds every virtual node of the list, sorted, each point owned by the last endpoint that has it; it is kept if the fingerprint is unchanged |
| ConsistentHash.Balancer.Pick | cloud/loadbalance/consistenthash.go:84-106 | an unkeyed pick is round-robin; a keyed pick serves the placement over the list the ring was built from |
| ConsistentHash.OrderDoesNotMatterIff | cloud/loadbalance/consistenthash.go:113-142 | reusing the ring for a reordered list is sound for every reordering and every key if and only if no two endpoints share a virtual node |
| ConsistentHash.CollidingReorderMovesKeys | cloud/loadbalance/consistenthash.go:113-126 | an input where it is not: the same fingerprint, another owner |
| ConsistentHash.ChangedRecordsAreStillServed | cloud/loadbalance/consistenthash.go:113-142 | lists with the same addresses share a fingerprint, so after a change of weight or metadata some key is served by a record that is no longer listed exactly if a record changed |
| ConsistentHash.CachedRingServesOldRecord | cloud/loadbalance/consistenthash.go:113-117 | an input: after a change of its metadata a single endpoint is served by its old record for every key |
| ConsistentHash.CachedPicksAreMembersIff | cloud/loadbalance/consistenthash.go:84-106 | in general, shared points or not, every pick is a member of the current list if and only if the owner of every ring point is |
| ConsistentHash.CachedPicksAreCurrentIff | cloud/loadbalance/consistenthash.go:84-106 | without shared points, every pick from a cached ring is a member of the current list if and only if every record the ring was built from still is |
| SuspensionTracker.Tracker.SetConfig | cloud/loadbalance/tracker.go:148-153 | a new threshold and cool-down apply from now on and no state is lost |
| SuspensionTracker.Tracker.AdmitLocked | cloud/loadbalance/tracker.go:205-220 | an address is admitted unless it is cooling down; an elapsed cool-down becomes a half-open trial |
| SuspensionTracker.Tracker.Admissible | cloud/loadbalance/tracker.go:182-200 | the endpoints not cooling down, in order; the list itself when the tracker is disabled |
| SuspensionTracker.Tracker.Allows | cloud/loadbalance/tracker.go:172-178 | as Admissible, but never empty for a non-empty list |
| SuspensionTracker.Tracker.Record | cloud/loadbalance/tracker.go:228-277 | success clears an address; a failed trial suspends it again; a streak that reaches the threshold suspends it |
| SuspensionTracker.Tracker.IsSuspended | cloud/loadbalance/tracker.go:281-296 | whether an address is in its cool-down now |
| SuspensionTracker.AdmissibleExactly | cloud/loadbalance/tracker.go:182-220 | an endpoint is in the admissible list if and only if it is listed and not cooling down |
| SuspensionTracker.AdmissibleInOrder | cloud/loadbalance/tracker.go:182-220 | the admissible list keeps the order and the repetitions of the list it was made from |
| SuspensionTracker.GaugeCountsSuspended | cloud/loadbalance/tracker.go:228-277 | over every run of Record, Admissible and SetConfig the gauge equals the number of suspended addresses, and a half-open address is suspended |
| SuspensionTracker.SuspendedIffStreak | cloud/loadbalance/tracker.go:228-277 | with the configuration unchanged, an address is suspended if and only if its failures since its last success reach the threshold |
| SuspensionTracker.OutSinceLatestTrip | cloud/loadbalance/tracker.go:205-277 | over every run an address is out since the latest failure that completed a streak or failed a trial, and cooling down for exactly SuspendFor from then |
| SuspensionTracker.SuspensionsCountTrips | cloud/loadbalance/tracker.go:255-270 | the event counter counts exactly those trips |
| SuspensionTracker.DisabledDoesNothing | cloud/loadbalance/tracker.go:148-153 | without a positive threshold nothing is recorded or screened; the default cool-down is five seconds |
| Buckets.TokenBucket.WithWarmUp | cloud/ratelimit/token_bucket.go:63-75 | warm-up starts the bucket at its cold capacity |
| Buckets.TokenBucket.Cap | cloud/ratelimit/token_bucket.go:79-89 | the capacity grows linearly from burst/coldFactor to burst over the warm-up |
| Buckets.TokenBucket.AllowN | cloud/ratelimit/token_bucket.go:92-106 | a request is granted or refused, and leaves the level, as the refill rule says, with the capacity taken at its own reading of the clock |
| Buckets.TokenBucket.WaitN | cloud/ratelimit/token_bucket.go:113-150 | queueing is a run of AllowN attempts of which only the last can succeed, so it spends no more than AllowN would; it gives up only when its context ends or the rest cannot be earned by the deadline |
| Buckets.TokensAreSmallestHeadroom | cloud/ratelimit/token_bucket.go:92-106 | the one stored number is the smallest headroom over all refill points of the history |
| Buckets.GrantedIffHistoryAllows | cloud/ratelimit/token_bucket.go:63-106 | a request is granted if and only if, for every earlier refill point, what was admitted since plus the request is at most the capacity there plus what the rate earned, warm-up or not |
| Buckets.EarnedIsPerSecond | cloud/ratelimit/token_bucket.go:95 | what is earned is the rate times the elapsed seconds |
| Buckets.TimeToEarnIsEnough | cloud/ratelimit/token_bucket.go:137-138 | the wait computed for an amount ends in the nanosecond in which the rate has earned it |
| Buckets.TruncatedTowardsZero | cloud/ratelimit/token_bucket.go:137-138 | a wait is cut to whole nanoseconds, towards zero |
| Buckets.WarmUpCapacity | cloud/ratelimit/token_bucket.go:63-89 | the capacity is burst / factor when warm-up starts, the burst once it is over, and on the straight line between them meanwhile |
| Buckets.WarmUpGrants | cloud/ratelimit/token_bucket.go:63-106 | a bucket put on warm-up grants burst / factor and no more when it starts, and the full burst once warm-up is over and enough has been earned |
| Buckets.CapAtMostBurst | cloud/ratelimit/token_bucket.go:79-89 | the capacity never exceeds the burst |
| Buckets.IntervalBound | cloud/ratelimit/token_bucket.go:63-106 | every interval admits at most burst plus rate times its length |
| Buckets.LeakyBucket.AllowN | cloud/ratelimit/leaky_bucket.go:53-67 | the water leaks at the rate and a request is admitted if it fits |
| Buckets.RunsStayDual | cloud/ratelimit/leaky_bucket.go:53-67 | tokens plus water equal the capacity after every call, refused calls included |
| Buckets.SameAnswers | cloud/ratelimit/leaky_bucket.go:29-67 | token and leaky bucket built alike answer every request sequence alike |
| Buckets.LeakyIntervalBound | cloud/ratelimit/leaky_bucket.go:53-67 | the leaky bucket admits over every interval at most its capacity plus what drains in it |
| Buckets.LeakyBurst | cloud/ratelimit/leaky_bucket.go:53-67 | that bound is reached over every interval in which no more than the capacity drains |
| Buckets.WholeCapacityFits | cloud/ratelimit/leaky_bucket.go:53-67 | a new bucket admits its whole capacity before anything has drained |
| Buckets.NeverFasterThanDrainIff | cloud/ratelimit/leaky_bucket.go:26-67 | no interval of any run admits more than drains in it if and only if the capacity is not positive |
| Windows.FixedWindow.AllowN | cloud/ratelimit/fixed_window.go:54-68 | a call is counted in the window aligned to the epoch and refused beyond the limit, whatever the window |
| Windows.FixedWindowBounds | cloud/ratelimit/fixed_window.go:30-68 | an aligned window admits at most the limit, any interval shorter than a window at most twice the limit |
| Windows.FixedMarkIsAlignedWindow | cloud/ratelimit/fixed_window.go:54-60 | every call is counted in the aligned window of its instant |
| Windows.FixedAdmitsIff | cloud/ratelimit/fixed_window.go:54-68 | a call is admitted if and only if what its aligned window admitted before leaves room |
| Windows.BoundaryBurst | cloud/ratelimit/fixed_window.go:30-33 | the factor two is reached across a window edge |
| Windows.SlidingWindow.AllowN | cloud/ratelimit/sliding_window.go:47-71 | a call is admitted if the weighted estimate of two windows leaves room, whatever the window |
| Windows.SlidingWindowBound | cloud/ratelimit/sliding_window.go:47-71 | any interval shorter than a window admits at most twice the limit |
| Windows.SlidingCountsHistory | cloud/ratelimit/sliding_window.go:47-71 | the two stored counts are exactly what was admitted in the current window and in the one that ended less than a window before it |
| Windows.SlidingAdmitsIff | cloud/ratelimit/sliding_window.go:47-71 | a call is admitted if and only if those amounts, the earlier one by its remaining share of a window, leave room |
| Windows.SlidingCapsIff | cloud/ratelimit/sliding_window.go:31-71 | the limit caps every interval shorter than a window in every run if and only if window * (limit - 1) is below twice the whole part of the limit |
| Windows.SlidingCanExceedLimit | cloud/ratelimit/sliding_window.go:47-71 | an input where it does not: a run admits 18 with limit 10 |
| Windows.WithoutWindow | cloud/ratelimit/sliding_window.go:41-71 | a window that is not positive is accepted and remembers nothing; a sliding window of zero refuses nothing |
| Windows.TwiceTheLimit | cloud/ratelimit/sliding_window.go:47-71 | counters whose generations lie a window apart and stay within the limit admit at most twice the limit |
| Gcra.Limiter.AllowN | cloud/ratelimit/gcra.go:54-67 | a request is admitted if the schedule is within the tolerance, and then moves it by what the request is worth |
| Gcra.AdmittedIffRunAllows | cloud/ratelimit/gcra.go:54-67 | a request is admitted if and only if what was admitted before it is worth at most the tolerance plus the time since the first request |
| Gcra.IdleTimeIsCredit | cloud/ratelimit/gcra.go:58-65 | idle time is credit without a ceiling: after enough of it any number of requests is admitted at one instant |
| Gcra.NeverTheTokenBucket | cloud/ratelimit/gcra.go:37-38 | the claimed duality with the token bucket fails for every configuration: a first request of one more than the burst is admitted here and refused there |
| CircuitBreaking.ResolveStrategy | cloud/resilience/client_executor.go:572-581 | which configurations get which strategy |
| CircuitBreaking.NewConfig | cloud/resilience/client_executor.go:587-616 | the thresholds are those given; the slow-call pair counts only whole; a windowed strategy always gets a positive window and minimum sample; a gate has at least one trial |
| CircuitBreaking.CircuitBreaker.NotifyLocked | cloud/resilience/client_executor.go:779-784 | every announced transition is appended to what the listener hears; one to the same state is not announced |
| CircuitBreaking.CircuitBreaker.Allow | cloud/resilience/client_executor.go:625-656 | a closed breaker admits, an open one refuses until its cool-down, a half-open one admits while permits are left |
| CircuitBreaking.CircuitBreaker.CloseLocked | cloud/resilience/client_executor.go:766-774 | closing clears trip time, gate, streak and window counters |
| CircuitBreaking.CircuitBreaker.RecordConsecutive | cloud/resilience/client_executor.go:694-707 | the streak counts failures since the last success; at the threshold the breaker opens |
| CircuitBreaking.CircuitBreaker.CountInWindow | cloud/resilience/client_executor.go:713-737 | a sample goes into the current window; an adjacent window becomes the previous one, an older one is forgotten |
| CircuitBreaking.CircuitBreaker.ShouldTrip | cloud/resilience/client_executor.go:738-757 | whether the estimate over two windows reaches the threshold of the strategy |
| CircuitBreaking.CircuitBreaker.RecordRate | cloud/resilience/client_executor.go:713-764 | a windowed record counts first and then opens the breaker if the estimate asks for it |
| CircuitBreaking.CircuitBreaker.Record | cloud/resilience/client_executor.go:661-692 | an offered gate is resolved first: enough successes close it, one failure opens it again; otherwise the strategy counts |
| CircuitBreaking.ListenerFollowsWindowedBreaker | cloud/resilience/client_executor.go:625-784 | windowed strategies: the listener hears a path Closed, Open, HalfOpen, then Closed or Open, whose last target is the actual state, and an offered gate implies a trip time |
| CircuitBreaking.ListenerFollowsConsecutiveBreaker | cloud/resilience/client_executor.go:625-784 | consecutive strategy: the same with one extra silent edge from Open to Closed |
| CircuitBreaking.ListenerFollowsConsecutiveIff | cloud/resilience/client_executor.go:661-707 | for every run, what the listener hears is a legal path ending in the state if and only if no success was ever recorded while open without a gate |
| CircuitBreaking.ListenerIsRightIff | cloud/resilience/client_executor.go:661-707 | the listener is right about the state if and only if no such success was recorded since it was last told something |
| CircuitBreaking.LateSuccessClosesSilently | cloud/resilience/client_executor.go:694-698 | an input with the silent edge: a late success closes the breaker and the listener hears Closed to Open twice in a row |
| BreakerRules.ConsecutiveOpenIffStreak | cloud/resilience/client_executor.go:694-707 | while no gate is offered, open if and only if the latest failures in a row reach the threshold |
| BreakerRules.CountersRecountHistory | cloud/resilience/client_executor.go:713-737 | while no gate is offered, the constant-space window counters are the numbers of samples, failures and slow calls among the records of their window |
| BreakerRules.WindowedOpenIffEstimateReached | cloud/resilience/client_executor.go:713-764 | while no gate is offered, a windowed breaker is open if and only if the sums over the history, the previous window by its remaining share, reached the threshold at some record; its cool-down runs from the latest such record |
| BreakerRules.TripsInNumbers | cloud/resilience/client_executor.go:738-757 | the trip test is a comparison of integer sums in which the previous window counts with win - elapsed parts of win |
| BreakerRules.TripsWithoutPrevious | cloud/resilience/client_executor.go:738-757 | with no previous window it is the plain count or ratio over the current one, for each strategy |
| BreakerRules.RecordInNumbers | cloud/resilience/client_executor.go:713-764 | what one record does to the counters and the trip time of a windowed breaker, in numbers |
| BreakerRules.ConsecutiveCoolsFromLastFailure | cloud/resilience/client_executor.go:694-707 | the cool-down of a consecutive breaker runs from its latest record at or beyond the threshold |
| BreakerRules.OpenUntilCooledDown | cloud/resilience/client_executor.go:625-656 | an open breaker refuses until its cool-down has passed; then as many trials pass as are configured, and no more |
| BreakerRules.AdmitsIff | cloud/resilience/client_executor.go:625-656 | a call is admitted if and only if the breaker is closed, or cooled down and without a gate yet, or cooled down with a permit left, of which it takes one |
| BreakerRules.SuccessesCloseGate | cloud/resilience/client_executor.go:661-692 | a gate closes with as many successes as it offered trials, and the breaker starts clean |
| BreakerRules.FailureReopens | cloud/resilience/client_executor.go:684-689 | one failed trial opens the breaker again with a new cool-down |
| RetryPolicies.EffectiveRetry | cloud/resilience/client_executor.go:376-383 | either node can forbid retries; the schedule is the policy node if it has one, else that of the call |
| RetryPolicies.AttemptsOf | cloud/resilience/client_executor.go:229-246 | MaxRetries + 1 attempts, at most one if either node is NonIdempotent, none if MaxRetries is negative |
| RetryPolicies.Backoff | cloud/resilience/client_executor.go:412-434 | the wait grows by the multiplier from InitialInterval, stops at MaxInterval once it has exceeded it, is spread by the jitter around that and cut to whole nanoseconds |
| RetryPolicies.ScheduleIff | cloud/chain/retry.go:102-111 | which nodes declare a schedule: all but those that set at most the safety flag and the budget |
| RetryPolicies.WaitsInNumbers | cloud/resilience/client_executor.go:412-427 | no wait without an interval; the first wait is the interval, each next one the last times the multiplier, up to the cap |
| RetryPolicies.JitterInNumbers | cloud/resilience/client_executor.go:428-432 | the jitter moves a wait by the drawn share of its randomization factor |
| RetryPolicies.NanosecondsCut | cloud/resilience/client_executor.go:433 | the returned wait is cut toward zero by less than a nanosecond |
| RetryPolicies.WaitsGrow | cloud/resilience/client_executor.go:407-424 | with a multiplier of at least one the uncapped wait never shrinks |
| RetryPolicies.CapHoldsAfterFirst | cloud/resilience/client_executor.go:418-424 | before jitter MaxInterval bounds the wait if and only if it is not the first one or InitialInterval is within it |
| RetryPolicies.CapHoldsIff | cloud/resilience/client_executor.go:418-432 | over all draws MaxInterval bounds the wait with jitter if and only if the wait times one plus the randomization factor is within it |
| RetryPolicies.ReturnedWaitKeepsCapIff | cloud/resilience/client_executor.go:418-434 | the same for the whole nanoseconds returned |
| RetryPolicies.JitterExceedsCap | cloud/resilience/client_executor.go:426-432 | an input: a wait of 125 after the second failure with MaxInterval 100 |
| ClientExecutor.Executor.AcquireBulkhead | cloud/resilience/client_executor.go:165-185 | a slot is taken if and only if one is free |
| ClientExecutor.Executor.ReleaseBulkhead | cloud/resilience/client_executor.go:187 | a slot is given back |
| ClientExecutor.Executor.RetryBudgetRelease | cloud/resilience/client_executor.go:190-195 | a held retry slot is given back, and nothing otherwise |
| ClientExecutor.Executor.TakeBudget | cloud/resilience/client_executor.go:252-264 | the first attempt passes; a retry takes a slot or ends the call without recording |
| ClientExecutor.Executor.ChargeRate | cloud/resilience/client_executor.go:265-281 | only a limit decision ends the call; a store failure lets it proceed |
| ClientExecutor.Executor.PassBreaker | cloud/resilience/client_executor.go:282-294 | fn runs if and only if the breaker allows it; a refused call that has run records its last outcome and gives its slot back |
| ClientExecutor.Executor.AfterFn | cloud/resilience/client_executor.go:296-331 | another attempt follows if and only if this one failed, was not cancelled, may be retried, was not interrupted and was not the last; a retry gives its slot back first |
| ClientExecutor.Executor.Finish | cloud/resilience/client_executor.go:332-344 | the slot goes back and one outcome is recorded |
| ClientExecutor.Executor.Execute | cloud/resilience/client_executor.go:197-345 | result, runs of fn and operations on the breaker are those of AccountOf for what the attempts met; the call walks its automaton to a return and gives back every slot |
| ClientExecutor.EndsAsAttemptsSay | cloud/resilience/client_executor.go:252-331 | every attempt but the last failed and asked for another, the last one gave the result, and a call turned away was turned away for the reason it names |
| ClientExecutor.CallAsksAndTells | cloud/resilience/client_executor.go:282-344 | the breaker is asked before every run of fn and allows each; one outcome is recorded at the end with the duration of the last run, and none after a limit or an empty budget |
| ProtectedCalls.WalkKeepsInv | cloud/resilience/client_executor.go:197-345 | every reachable point of a call, whatever its environment, satisfies the call invariant |
| ProtectedCalls.BalanceIsHolding | cloud/resilience/client_executor.go:162-195 | slots taken less slots given back is always what the call holds |
| ProtectedCalls.EveryReturnIsBalanced | cloud/resilience/client_executor.go:197-345 | on every return all slots are back, fn ran at most MaxRetries + 1 times, exactly one outcome was recorded if fn ran, except on the two early returns, and a success ran fn if and only if an attempt was allowed |
| ProtectedCalls.WithoutAttempts | cloud/resilience/client_executor.go:229-345 | with a negative MaxRetries a call returns success and records it without running fn |
| GovernedCalls.CapacityHolds | cloud/resilience/client_executor.go:162-264 | in every interleaving calls in flight stay within MaxConcurrent and retries in flight within RetryBudget |
| GovernedCalls.CallsGoOn | cloud/resilience/client_executor.go:162-264 | in every interleaving a call that has not returned has a step it can take |
| GovernedCalls.AnswersIff | cloud/resilience/client_executor.go:162-264 | in every interleaving a slot is given exactly if one is free and refused exactly if all are taken or the call queued in vain, and likewise a retry and a permit |
| HalfOpenGate.GateAdmitsAtMostN | cloud/resilience/client_executor.go:625-692 | no half-open gate admits more than N trials, whatever the configuration |
| HalfOpenGate.EmptyGateHasOpenTrial | cloud/resilience/client_executor.go:625-692 | unless the configuration can wedge: permits left, unrecorded trials and successes cover the gate, so an empty gate has a trial outstanding |
| HalfOpenGate.WedgedForever | cloud/resilience/client_executor.go:625-656 | a wedged gate refuses every later call that makes an attempt, for ever |
| GateWedge.RetryTakesTwoPermits | cloud/resilience/client_executor.go:282-345 | with several trials per gate, a retried call takes two permits and records once, and the gate can end up empty and unresolved |
| GateWedge.LimitedRetryLeaves | cloud/resilience/client_executor.go:265-281 | a rate-limited retry returns without recording the trial it holds |
| GateWedge.EmptyBudgetRetryLeaves | cloud/resilience/client_executor.go:252-264 | a retry that finds the budget empty returns without recording the trial it holds |
| GateWedge.GateCanWedgeIff | cloud/resilience/client_executor.go:197-345 | from every reachable quiet open state: the gate can be wedged if and only if there are retries and several trials, or rate limiting, or a budget that can run out |
| GateWedge.NewGateCanWedgeIff | cloud/resilience/client_executor.go:197-345 | the same from a new executor with a consecutive breaker |
| GateWedge.CallsWithoutAttemptsClose | cloud/resilience/client_executor.go:332-344 | the one way out: as many calls with a negative MaxRetries as the gate lacks successes close it |
| ClientRegistry.PolicyFor | cloud/resilience/client_manager.go:84-91 | a label resolves to its first rule, else to the default |
| ClientRegistry.ClientSide.PolicyLocked | cloud/resilience/client_manager.go:84-91 | the scan finds what the label resolves to |
| ClientRegistry.ClientSide.EvictChangedLocked | cloud/resilience/client_manager.go:172-179 | exactly the entries whose label resolves to another policy are dropped |
| ClientRegistry.ClientSide.Apply | cloud/resilience/manager.go:187-201 | the settings are adopted, no stale entry is left, an entry whose policy is unchanged keeps its executor |
| ClientRegistry.ClientSide.DrainClientCache | cloud/resilience/client_manager.go:301-309 | the registry is emptied and what was in it returned |
| ClientRegistry.ClientSide.Close | cloud/resilience/manager.go:227-244 | a closed manager is unarmed, has no settings and no executors |
| ClientRegistry.ClientSide.BuildLocked | cloud/resilience/client_manager.go:138-166 | whatever Apply or Close lands while the driver builds, the executor registered carries the policy in force at the last check, comes from the driver if and only if the side is armed then and the driver could build it, and another round needs another Apply or Close |
| ClientRegistry.ClientSide.Backing | cloud/resilience/client_manager.go:102-112 | a registered label keeps its executor; otherwise one is built and registered, by the driver if and only if the side is armed and the driver could build it |
| ClientRegistry.UndisturbedBuild | cloud/resilience/client_manager.go:138-166 | a build that nothing lands in is a run of the interleaving and registers the executor of the driver on an armed side |
| ClientRegistry.ArmedUntilClosed | cloud/resilience/manager.go:187-244 | in every interleaving the manager is armed, with the settings of the latest Apply, exactly until a Close |
| ClientRegistry.AtMostOneStale | cloud/resilience/client_manager.go:138-166 | in every interleaving of builds, Apply and Close at most one registered executor is stale when no sweep is running |
| ClientRegistry.SweepIsExact | cloud/resilience/client_manager.go:172-179 | when the sweep of Apply ends, every entry it started from is gone if stale and untouched otherwise, builds beside it notwithstanding |
| ClientRegistry.DrainIsComplete | cloud/resilience/client_manager.go:301-309 | when Close has drained, nothing that was registered before is left |
| ClientRegistry.RebuildNeedsApply | cloud/resilience/client_manager.go:127-131 | a build starts over only if an Apply or a Close came in since it read the settings |
| ClientRegistry.OneStaleIsReachable | cloud/resilience/client_manager.go:155-163 | an input: one stale executor remains after an Apply between the last check and the store |
| StaleClients.StaleIsOwed | cloud/resilience/client_manager.go:127-179 | for every run, the stale labels at rest are exactly the one, if any, that the latest Apply or Close overtook between check and store, stored since, and not met by that sweep |
| StaleClients.NotOvertakenLeavesNothing | cloud/resilience/client_manager.go:127-131 | if no Apply or Close begins between a last check and its store, reading the settings again is the whole fix: nothing is stale |
| StaleClients.OvertakenStaysStale | cloud/resilience/client_manager.go:155-163 | from every reachable checked state: a push of another policy for the label, swept before the store, leaves that label stale and no other until the next Apply or Close |
| StaleClients.PassThroughSurvivesIff | cloud/resilience/client_manager.go:172-179 | a pass-through registered while unarmed outlives the first sweep if and only if its label resolves to the zero policy |
| StaleClients.UnarmedHasNoDriverExecutor | cloud/resilience/client_manager.go:133-157 | unless an Apply or Close begins between a last check and its store, an unarmed side never has an executor of the driver |
| MemoryLocks.MemoryLocker.TryAcquire | cloud/lock/memory.go:74-103 | refused while the lease runs; otherwise the expired generation is ended and a new one handed out |
| MemoryLocks.MemoryLocker.Acquire | cloud/lock/memory.go:106-120 | the first attempt that is not refused wins; without one nothing has changed |
| MemoryLocks.MemoryLocker.DropLocked | cloud/lock/memory.go:165-169 | the entry goes, its renewal stops and its Lost closes |
| MemoryLocks.MemoryLocker.RenewTick | cloud/lock/memory.go:138-162 | one round of a renew loop: a tick extends the lease of the current generation and ends the loop of any other, and the loop also ends when it takes a stop |
| MemoryLocks.MemoryLocker.UnlockKey | cloud/lock/memory.go:173-186 | the key is freed if its current token matches; a free key is no error, another token is ErrNotHeld |
| MemoryLocks.MemoryLocker.Close | cloud/lock/memory.go:124-134 | closing tells every renew loop to stop and touches no lease |
| MemoryLocks.MemoryLock.MarkLost | cloud/lock/memory.go:62 | Lost closes, once |
| MemoryLocks.MemoryLock.Unlock | cloud/lock/memory.go:200-210 | the first call releases and then closes Lost; every later call changes nothing and answers nil |
| LeaseProtocol.Normalize | cloud/lock/lock.go:133-147 | what the caller left open is filled with 30 s, a third of the lease, 100 ms and the drawn token; what it set is kept |
| LeaseProtocol.MutualExclusion | cloud/lock/memory.go:74-210 | with fresh tokens, over every interleaving, a key has at most one live handle and it is the entry of the key |
| LeaseProtocol.FreshIfTakesDiffer | cloud/lock/memory.go:74-103 | tokens are fresh in every run in which no two attempts on a key carry the same |
| LeaseProtocol.DrawnTokensExclude | cloud/lock/memory.go:74-210 | so mutual exclusion holds, without any assumption on tokens, in every run of attempts that leave the token to be drawn, if no token is drawn twice |
| LeaseProtocol.RenewalStopsWithTheEntry | cloud/lock/memory.go:146-186 | a renewal loop is stopped exactly when its generation is no longer the entry of its key |
| LeaseProtocol.GenerationIsAsAsked | cloud/lock/memory.go:73-104 | for every run, a generation keeps the key, token, lease and renewal interval of the attempt that handed it out |
| LeaseProtocol.HandleTellsItsHistory | cloud/lock/memory.go:73-211 | for every run, Lost is closed exactly if the own Unlock closed it or the expired lease was reclaimed, the phase is how far that Unlock has come, and without a renewal interval the lease runs from when it was handed out |
| LeaseProtocol.StepsIff | cloud/lock/memory.go:73-211 | an attempt can always be made, a renewed lease ticks, and each handle is unlocked once |
| LeaseProtocol.EveryEntryHasALiveHandle | cloud/lock/memory.go:74-210 | a held key always has a live handle that can release it |
| LeaseProtocol.LiveEndsOnlyBy | cloud/lock/memory.go:79-86 | a handle stops being live exactly by its own Unlock or by being reclaimed after its lease expired |
| LeaseProtocol.LeaseRunsFromLastRefresh | cloud/lock/memory.go:88-158 | after any run the deadline of a generation is its ttl after it was handed out or last renewed |
| LeaseProtocol.RefusedIffLeaseRuns | cloud/lock/memory.go:79-83 | an attempt is refused if and only if the key is held and the lease of its holder has run less than its ttl since the last refresh |
| LeaseProtocol.StaleHandleIsHarmless | cloud/lock/memory.go:148-157 | the renew tick and the Unlock of a superseded handle change nothing of the newer generation, and Unlock says ErrNotHeld exactly if somebody has the key |
| LeaseProtocol.HolderReleases | cloud/lock/memory.go:173-186 | the Unlock of the holder frees the key without error |
| LeaseProtocol.StaleUnlockRemovesIff | cloud/lock/memory.go:180 | a superseded Unlock removes the newer generation if and only if that generation reuses its token |
| LeaseProtocol.ReusedTokenBreaksExclusion | cloud/lock/memory.go:180 | with a token used twice two handles of one key can be live |
| Elections.Election.ServeTerm | cloud/lock/election.go:133-175 | a term is exactly these steps in order: leader, work launched, woken, resigned, work joined, stepped down, key freed, Lost closed |
| Elections.Election.Run | cloud/lock/election.go:88-123 | the loop serves one term for every round it gets to that acquires the lock, and ends as soon as it sees its context ended |
| Elections.CampaignServesUntilDone | cloud/lock/election.go:88-123 | the campaign serves a term for every lock it gets until a round that sees the context ended |
| Elections.CampaignIsComplete | cloud/lock/election.go:88-123 | the campaign loop is between complete terms whenever it looks at its context and when it returns |
| Elections.OneOpenTerm | cloud/lock/election.go:154-159 | no two instances are ever waiting in a term with an open Lost |
| Elections.TermGoesOnIff | cloud/lock/election.go:126-181 | in every run a term can go on, except while it waits for the context to end or for Lost, and while it waits for the work to return |
| Elections.HappensIff | cloud/lock/election.go:126-181 | which steps from outside a term there are, and that a reclaim is an attempt on a key whose lease has expired |
| Elections.WakesIff | cloud/lock/election.go:126-181 | the wait of a term ends by the context or by a closed Lost, and says which |
| Elections.OverlapNeedsALostLease | cloud/lock/election.go:133-175 | two instances work or call themselves leader at once only while one has a closed Lost |
| Elections.WorkNeverOverlaps | cloud/lock/election.go:161-175 | in runs without a reclaim OnStartedLeading of different instances never overlaps |
| Elections.WorkOverlapsIff | cloud/lock/election.go:133-175 | from every reachable fleet with one instance working under a live lease: the attempt of another and its launch are a run, and the two then work at once, if and only if that lease has expired |
| Elections.AttemptWinsIff | cloud/lock/memory.go:74-103 | while a term holds a live lease, the attempt of another instance starts a term beside it if and only if the lease has expired |
| Elections.WorkOverlapsAfterReclaim | cloud/lock/election.go:154-164 | such a run from the start |
| Elections.HistoryKeepsInv | cloud/lock/election.go:133-175 | in every run the stage of an instance decides its leader flag, when its work may run and what its handle has done |
| LogStrings.TryAddRuneSelf | log/field_encoder.go:359-389 | an ASCII byte is written as itself or as its escape |
| LogStrings.TryAddRuneError | log/field_encoder.go:392-398 | an undecodable byte is written as an escaped U+FFFD |
| LogStrings.WriteLogString | log/field_encoder.go:338-356 | the text is written piece by piece, one per character or undecodable byte |
| LogStrings.EscapedReadsBack | log/field_encoder.go:338-398 | unescaping by section 7 of RFC 8259 gives the input with each undecodable byte replaced by U+FFFD, and the closing quote is the first unescaped one |
| LogStrings.ValidTextSurvivesIff | log/field_encoder.go:338-356 | the text itself comes back if and only if it is valid UTF-8 |
| LogStrings.NoRawControl | log/field_encoder.go:363-388 | no control byte is written raw |
| LogStrings.EscapedOnlyIfNeeded | log/field_encoder.go:338-398 | the text is never shorter, and is as long, and then the same, if and only if it is valid UTF-8 without control bytes, quotes and backslashes |
| LogStrings.EscapeSpelling | log/field_encoder.go:359-389 | quote and backslash get a backslash, newline, return and tab their short form, every other control byte four lower-case digits |
| LogStrings.EscapedIsValid | log/field_encoder.go:338-356 | what is written is valid UTF-8 |
| Utf8.DecodeRune | log/field_encoder.go:346-351 | size 1 with RuneError means undecodable, and nothing else does |
| Utf8.RepairedIsIdentityIff | log/field_encoder.go:346-354 | only undecodable bytes are replaced |
| Utf8.EncodeThenDecode | log/field_encoder.go:346-354 | the decoder and the encoder of section 3 of RFC 3629 are inverse on every code point |
| Utf8.DecodeThenEncode | log/field_encoder.go:346-354 | every decodable character is a code point in its one shortest form |
| Encoders.JSONEncoder.AppendSeparator | log/field_encoder.go:125-129 | a comma is written exactly after a value or the end of a structure |
| Encoders.JSONEncoder.AppendObjectBegin | log/field_encoder.go:98-102 | appends its token after the comma the last one calls for |
| Encoders.JSONEncoder.AppendObjectEnd | log/field_encoder.go:105-108 | appends its token, never a comma |
| Encoders.JSONEncoder.AppendArrayBegin | log/field_encoder.go:111-115 | appends its token after the comma the last one calls for |
| Encoders.JSONEncoder.AppendArrayEnd | log/field_encoder.go:118-121 | appends its token, never a comma |
| Encoders.JSONEncoder.AppendKey | log/field_encoder.go:132-139 | appends its token after the comma the last one calls for |
| Encoders.JSONEncoder.AppendBool | log/field_encoder.go:142-146 | appends its token after the comma the last one calls for |
| Encoders.JSONEncoder.AppendInt64 | log/field_encoder.go:149-153 | appends its token after the comma the last one calls for |
| Encoders.JSONEncoder.AppendUint64 | log/field_encoder.go:156-160 | appends its token after the comma the last one calls for |
| Encoders.JSONEncoder.AppendFloat64 | log/field_encoder.go:163-173 | appends its token after the comma the last one calls for; NaN and infinities become strings |
| Encoders.JSONEncoder.AppendString | log/field_encoder.go:176-182 | appends its token after the comma the last one calls for |
| Encoders.JSONEncoder.AppendReflect | log/field_encoder.go:186-197 | appends its token after the comma the last one calls for; a value that cannot be marshalled becomes its error message |
| Encoders.TextEncoder.AppendObjectBegin | log/field_encoder.go:226-229 | one level deeper, printed by the inner encoder |
| Encoders.TextEncoder.AppendObjectEnd | log/field_encoder.go:233-239 | one level up; at the top the inner encoder starts afresh |
| Encoders.TextEncoder.AppendArrayBegin | log/field_encoder.go:243-246 | one level deeper, printed by the inner encoder |
| Encoders.TextEncoder.AppendArrayEnd | log/field_encoder.go:250-256 | one level up; at the top the inner encoder starts afresh |
| Encoders.TextEncoder.AppendKey | log/field_encoder.go:261-273 | a top-level key follows the separator except the first |
| Encoders.TextEncoder.AppendBool | log/field_encoder.go:276-282 | inside a structure as JSON, else plain |
| Encoders.TextEncoder.AppendInt64 | log/field_encoder.go:285-291 | inside a structure as JSON, else plain |
| Encoders.TextEncoder.AppendUint64 | log/field_encoder.go:294-300 | inside a structure as JSON, else plain |
| Encoders.TextEncoder.AppendFloat64 | log/field_encoder.go:303-309 | inside a structure as JSON, else plain and unquoted |
| Encoders.TextEncoder.AppendString | log/field_encoder.go:312-318 | inside a structure as JSON, else escaped and unquoted |
| Encoders.TextEncoder.AppendReflect | log/field_encoder.go:322-333 | inside a structure as JSON, else the document or the escaped message |
| Encoders.EncodeArray | log/field.go:189-249 | an array is encoded item by item, in order |
| Encoders.EncodeValue | log/field.go:405-437 | a nested array or object is bracketed by its begin and end |
| Encoders.EncodeField | log/field.go:405-442 | a field is its key and value; a map field is its entries, with no key of its own |
| Encoders.EncodeFields | log/field.go:445-449 | fields are encoded in order, through either encoder |
| Encoders.EncodeMap | log/field.go:435-439 | a map field writes each entry once, in the order of its sorted keys |
| OrderedKeys.MapKeys | stdlib/ordered/ordered.go:30-37 | exactly the keys of the map, in ascending byte order |
| OrderedKeys.KeysAreUnique | stdlib/ordered/ordered.go:28-29 | the order is deterministic: a map has one sorted list of keys |
| Encoders.WriteJsonLine | log/plugin_layout.go:94-112 | a JSON line, however its fields nest, reads back by RFC 8259 as the members it was written from |
| EncoderStates.ValueIsPrinted | log/field_encoder.go:98-197 | after any token, a value is printed as its canonical text, with a comma before it exactly if one is due |
| EncoderStates.FieldsArePrinted | log/field.go:405-449 | fields are printed as one comma-separated list, map fields expanded in place |
| EncoderStates.JsonLineReadsBack | log/field.go:405-449 | for every field tree the output is one object whose members and values read back in order |
| LogFields.ValueDenotes | log/field.go:405-442 | the canonical text of every value is valid JSON and is read as that value wherever a value may stand |
| EncoderStates.NestedIsPrintedAsJson | log/field_encoder.go:226-333 | up to 127 levels deep the text encoder prints a nested structure byte for byte as a fresh JSON encoder, and is back at the top level afterwards |
| EncoderStates.NestingIsDepth | log/field_encoder.go:226-333 | the nesting of a value is how deep its begin and end tokens lead, and they lead back |
| EncoderStates.TextLineIsPrinted | log/field_encoder.go:261-333 | a text line is its key=value texts with the separator between each two |
| EncoderStates.TopTextReadsBack | log/field_encoder.go:275-333 | a top-level value of a text line reads back: a string by section 7 of RFC 8259, a float that is no number by its name, anything else as the JSON value it stands for |
| EncoderStates.Punctuation | log/field_encoder.go:275-333 | the bytes of the punctuation and of the literals |
| EncoderStates.PrintsAsJsonIff | log/field_encoder.go:201-256 | 127 is exact: the depth counter is an int8, and at 128 levels the two encoders differ |
| JsonTexts.FormattedIsNumber | log/field_encoder.go:149-160 | every formatted integer is a JSON number |
| JsonTexts.FormattedReadsBack | log/field_encoder.go:149-160 | a formatted integer is its sign and the decimal digits of its magnitude |
| AsyncLoggers.Start | log/plugin_logger.go:176-202 | a buffer below 100 is rejected |
| AsyncLoggers.AsyncLogger.Append | log/plugin_logger.go:216-250 | one Append run without interruption: reset if disabled, buffered if there is room, else what the policy says; block waits |
| AsyncLoggers.AsyncLogger.Work | log/plugin_logger.go:188-199 | the worker delivers and resets everything buffered, up to the object of the sentinel |
| AsyncLoggers.AsyncLogger.Stop | log/plugin_logger.go:207-212 | everything buffered before is delivered, in order, before Stop returns |
| AsyncLoggers.AppendIsPlay | log/plugin_logger.go:216-250 | an uninterrupted Append is a run of the interleaved protocol |
| AsyncLoggers.DrainIsPlay | log/plugin_logger.go:188-199 | so is a drain by the worker |
| AsyncProtocol.ResetOnceAndNeverUsedAfter | log/plugin_logger.go:188-250 | under every policy and interleaving an event is reset at most once, nobody has it afterwards, and until then exactly one has it; only an event taken for the sentinel is lost, which needs an Append beside Stop under drop-oldest |
| AsyncProtocol.EventsAreConserved | log/plugin_logger.go:216-250 | enabled events are those delivered, being handled, buffered, and as many as discardCounter says |
| AsyncProtocol.OrderIsKept | log/plugin_logger.go:188-250 | delivered then buffered events are a subsequence of the sends, and all of them under block and discard |
| AsyncPolicies.PolicyDecides | log/plugin_logger.go:222-249 | block: every event is sent and none dropped; discard: it is sent or dropped, never both; drop-oldest: it is sent |
| AsyncPolicies.AppendGoesOnIff | log/plugin_logger.go:216-250 | an Append that has begun can go on unless the channel is closed or it waits for room under block |
| AsyncPolicies.WorkerAndStopGoOnIff | log/plugin_logger.go:188-212 | the worker waits for an item and for nothing else, Stop for room and for the end of the worker |
| AsyncProtocol.ClosedChannelIsLeft | log/plugin_logger.go:204-212 | once Stop has returned nothing enters the channel any more |
| AsyncProtocol.BeginsIff | log/plugin_logger.go:204-250 | an Append may begin beside Stop, and Stop beside an Append, exactly if they may overlap |
| AsyncProtocol.StopFlushes | log/plugin_logger.go:204-212 | when Stop returns the buffer is empty, every enabled event was delivered or counted, and every event reset |
| AsyncStop.HangsIff | log/plugin_logger.go:207-242 | in every reachable state with Stop waiting: no run that leaves the object of the sentinel alone lets it return if and only if that object is in the event pool or about to be put there |
| AsyncStop.AfterLossReturnsIff | log/plugin_logger.go:186-212 | after the sentinel is lost, Stop returns if and only if the worker has received an event in the pooled object |
| AsyncStop.ReuseLetsStopReturn | log/log_event.go:44-63 | once the object is pooled, an Append whose event gets it can end the wait, and that event is neither delivered, nor counted, nor reset |
| AsyncStop.ReturnAfterLossSwallowsOne | log/plugin_logger.go:188-242 | if Stop returns after the loss, exactly one event has been swallowed so |
| AsyncStop.EndedWorkerDeliversNothing | log/plugin_logger.go:188-201 | once the worker has ended nothing is delivered any more, whatever is still buffered |
| AsyncStop.StopCanHangIff | log/plugin_logger.go:207-242 | a run can leave Stop waiting with nothing but such a reuse to end the wait if and only if Append may run beside it under drop-oldest |
| TagLoggers.CheckTags | log/log_refresh.go:246-263 | blank tags are skipped; a tag with * must end in _*; a logger needs one tag |
| TagLoggers.BuildTags | log/log_refresh.go:232-273 | the configuration is refused exactly if a logger has no tag, a bad pattern, or a tag another logger has; otherwise the table maps every tag to its logger |
| TagLoggers.FindLogger | log/log_refresh.go:315-327 | the logger of the tag if configured, else of the longest configured pattern over its underscores but a leading one, else the root |
| TagLoggers.OnlyRelevantEntriesMatter | log/log_refresh.go:315-327 | the logger of a valid tag depends on the entries for the tag and for the prefixes at its underscores, and on nothing else |
| TagLoggers.AliveIff | log/log_refresh.go:250-257 | an accepted pattern can match a valid tag if and only if it is one, or its stem has 1 to 34 tag characters and at most three non-empty segments |
| TagLoggers.ValidTagIff | log/log_tag.go:54-80 | a tag is valid if and only if it has 3 to 36 of the allowed characters, at most three underscores beyond the first character, none at the end and no two in a row |
| TagLoggers.DeadPatternsChangeNothing | log/log_refresh.go:315-327 | leaving out any other pattern changes the logger of no valid tag |
| TagLoggers.SplitJoins | log/log_tag.go:74-81 | the segments of a tag hold no underscore and give the tag back |

## Left out

- Buckets.TokenBucket.WaitN: the sleeps are clock readings of the caller's choosing, and what converting an infinite float to a duration yields is a parameter.
- RetryPolicies.Backoff: the jitter draw is a parameter.
- ClientExecutor.Executor.Execute: backoff sleeps, contexts, logging and spans are parameters or absent; fn does not panic.
- Elections.Election.ServeTerm: callbacks, logging and the outcome of Unlock are not modelled beyond their order.
- Elections.Election.Run: the campaign loop ends with its list of rounds, where Run goes on until its context ends.
- MemoryLocks.MemoryLocker.RenewTick: one round at a time; which ready channel a round takes is a parameter, and the interleaved protocol lets a tick come at any time.
- AsyncLoggers.AsyncLogger.Stop: the uninterrupted form lets the worker empty the buffer first; AsyncProtocol has every other schedule.
- AsyncStop.ReuseLetsStopReturn: of the event pool only the sentinel's object is followed; whether a call gets it is the run's choice, and use of it by other loggers is not modelled.
- ClientRegistry.ClientSide.BuildLocked: an executor is an identity, and the driver and the listener handshake are not modelled.
- ClientRegistry.ClientSide.Apply: notifying the policy subscribers is not modelled.
- ClientRegistry.ClientSide.Close: subscribers and the closing of the drained executors are not modelled.
- ClientExecutor.Executor.AcquireBulkhead: the queueing wait of BulkheadQueueDuration is a step of the interleaved model only.
- Encoders.EncodeMap: the values of the map are typed already; the type switch of Any is not modelled.
- Encoders.EncodeArray: a custom ArrayValue is a list of values; one that writes unbalanced tokens is not modelled.
- Encoders.WriteJsonLine: the header fields and the closing newline of the layout are not written.
- LogFields.ValueDenotes: what strconv prints for a finite float and json.Marshal for a value is taken to be a JSON text; integers are formatted and proved.
- TagLoggers.FindLogger: plugin creation, starting and binding of loggers are not modelled.
- The fingerprint is a pair instead of a formatted string, and FNV hashing is any function.
- Tracker and breaker states are values in a map or fields, without identity between entries.
- Integer widths: only the int8 depth counter and the uint64 round-robin counter wrap; lengths, counts and durations are unbounded.
- The rate stage answers allowed, limited or store failure; the stores behind it are not modelled.
- Policy subscribers, the inbound side of the manager, metrics, spans and access logs.
- A zero MemoryLocker, a nil tracker and the lock.held gauge.
- P2C, random, round-robin and least-connection balancers, caches and messaging would only add easier members.
- File and rolling appenders, configuration sources and plugin injection.
- Wall-clock jumps, float rounding and goroutine panics.
