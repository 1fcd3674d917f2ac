// The Generic Cell Rate Algorithm (cloud/ratelimit/gcra.go).
//
// Durations are whole nanoseconds, cut as the conversion cuts them. The schedule is never
// moved up to the present, so it is a rule about the whole run and not the token bucket.
module Gcra {
  import Buckets
  import opened Options

  datatype Schedule = Schedule(
    rate: real,
    tolerance: int,
    infinite: int,       // what converting an infinite float to a duration yields
    tat: Option<int>)    // theoretical arrival time, None before the first event

  function Cost(g: Schedule, n: int): int {
    Buckets.TimeToEarn(g.rate, n as real, g.infinite)
  }

  function NewSchedule(rate: real, burst: int, infinite: int): Schedule {
    Schedule(rate, Buckets.TimeToEarn(rate, burst as real, infinite), infinite, None)
  }

  function Due(g: Schedule, now: int): int {
    if g.tat.Some? then g.tat.value else now
  }

  predicate Admits(g: Schedule, now: int) {
    Due(g, now) - now <= g.tolerance
  }

  function Moved(g: Schedule, now: int, n: int): Schedule {
    g.(tat := Some(if Admits(g, now) then Due(g, now) + Cost(g, n) else Due(g, now)))
  }

  class Limiter {
    var rate: real
    var tolerance: int
    var infinite: int
    var tat: Option<int>

    function Abs(): Schedule
      reads this
    {
      Schedule(rate, tolerance, infinite, tat)
    }

    constructor (rate: real, burst: int, infinite: int)
      ensures Abs() == NewSchedule(rate, burst, infinite)
    {
      this.rate, this.infinite, this.tat := rate, infinite, None;
      tolerance := Buckets.TimeToEarn(rate, burst as real, infinite);
    }

    method AllowN(now: int, n: int) returns (ok: bool)
      modifies this`tat
      ensures Abs() == Moved(old(Abs()), now, n)
      ensures ok <==> Admits(old(Abs()), now)
    {
      if tat.None? {
        tat := Some(now);
      }
      var ahead := tat.value - now;
      if ahead > tolerance {
        return false;
      }
      tat := Some(tat.value + Buckets.TimeToEarn(rate, n as real, infinite));
      return true;
    }
  }

  // ---- The rule over a whole run ------------------------------------------

  datatype Request = Request(now: int, n: int)

  function Run(g: Schedule, requests: seq<Request>): Schedule {
    if requests == [] then g
    else
      var last := requests[|requests| - 1];
      Moved(Run(g, requests[..|requests| - 1]), last.now, last.n)
  }

  predicate Admitted(g: Schedule, requests: seq<Request>, j: nat)
    requires j < |requests|
  {
    Admits(Run(g, requests[..j]), requests[j].now)
  }

  /** The time the admitted requests are worth. */
  function Charged(g: Schedule, requests: seq<Request>): int {
    if requests == [] then 0
    else
      var rest, last := requests[..|requests| - 1], requests[|requests| - 1];
      Charged(g, rest) + if Admits(Run(g, rest), last.now) then Cost(g, last.n) else 0
  }

  lemma CostIgnoresSchedule(g: Schedule, tat: Option<int>, n: int)
    ensures Cost(g.(tat := tat), n) == Cost(g, n)
  {
  }

  lemma {:induction false} ScheduleIsFirstPlusCharged(g: Schedule, requests: seq<Request>)
    requires g.tat.None? && requests != []
    ensures Run(g, requests) == g.(tat := Some(requests[0].now + Charged(g, requests)))
  {
    hide Cost;
    var rest := requests[..|requests| - 1];
    CostIgnoresSchedule(g, Run(g, rest).tat, requests[|requests| - 1].n);
    if rest != [] {
      ScheduleIsFirstPlusCharged(g, rest);
    } else {
      assert Run(g, rest) == g && Charged(g, rest) == 0;
    }
  }

  /**
   * The one stored instant decides by the whole run: a request is admitted if and only if
   * what was admitted before it is worth no more than the tolerance plus the time since the
   * first request. Its own size does not matter.
   */
  lemma AdmittedIffRunAllows(g: Schedule, requests: seq<Request>, j: nat)
    requires g.tat.None? && j < |requests|
    ensures Admitted(g, requests, j) <==>
            Charged(g, requests[..j]) <= g.tolerance + (requests[j].now - requests[0].now)
  {
    hide Cost, Moved;
    if j == 0 {
      assert requests[..0] == [];
    } else {
      ScheduleIsFirstPlusCharged(g, requests[..j]);
      assert requests[..j][0] == requests[0];
    }
  }

  // ---- Not the token bucket -----------------------------------------------

  function Repeated(request: Request, k: nat): seq<Request> {
    seq(k, _ => request)
  }

  lemma RepeatedMore(first: Request, request: Request, k: nat)
    requires k > 0
    ensures var all := [first] + Repeated(request, k); all[..|all| - 1] == [first] + Repeated(request, k - 1)
    ensures ([first] + Repeated(request, k))[k] == request
  {
  }

  /** Idle time is credit without a ceiling: after enough of it any number of requests is admitted at one instant. */
  lemma {:induction false} IdleTimeIsCredit(g: Schedule, idle: nat, k: nat)
    requires g.tat.None? && g.tolerance >= 0 && Cost(g, 0) == 0 && Cost(g, 1) >= 0
    requires k > 0 ==> (k - 1) * Cost(g, 1) <= g.tolerance + idle
    ensures var requests := [Request(0, 0)] + Repeated(Request(idle, 1), k);
            && Charged(g, requests) == k * Cost(g, 1)
            && forall j :: 0 <= j <= k ==> Admitted(g, requests, j)
  {
    var requests := [Request(0, 0)] + Repeated(Request(idle, 1), k);
    hide Cost;
    if k == 0 {
      assert requests == [Request(0, 0)] && requests[..0] == [];
      assert Run(g, []) == g && Charged(g, []) == 0;
      assert Charged(g, requests) == Charged(g, requests[..0]) + Cost(g, 0);
    } else {
      var fewer := [Request(0, 0)] + Repeated(Request(idle, 1), k - 1);
      FewerCost(k, Cost(g, 1));
      IdleTimeIsCredit(g, idle, k - 1);
      RepeatedMore(Request(0, 0), Request(idle, 1), k);
      assert requests[..k] == fewer;
      AdmittedIffRunAllows(g, requests, k);
      forall j | 0 <= j < k
        ensures Admitted(g, requests, j)
      {
        assert requests[..j] == fewer[..j] && requests[j] == fewer[j];
        assert Admitted(g, fewer, j);
      }
    }
  }

  lemma FewerCost(k: nat, cost: int)
    requires k > 0 && cost >= 0
    ensures k * cost == (k - 1) * cost + cost
    ensures k > 1 ==> (k - 2) * cost <= (k - 1) * cost
  {
  }

  /**
   * The claim that it admits what a token bucket of the same rate and burst does is false of
   * every configuration: a first request of one more than the burst is admitted here and
   * refused there.
   */
  lemma NeverTheTokenBucket(rate: real, burst: nat, infinite: int, now: int)
    requires rate > 0.0
    ensures Admitted(NewSchedule(rate, burst, infinite), [Request(now, burst + 1)], 0)
    ensures !Buckets.Answer(Buckets.NewTokens(rate, burst, now), [Buckets.Call(now, now, (burst + 1) as real)], 0)
  {
    var g := NewSchedule(rate, burst, infinite);
    assert [Request(now, burst + 1)][..0] == [];
    assert g.tolerance >= 0 by {
      NotNegative(burst as real, rate);
    }
    Buckets.EarnedAdds(rate, now, now, now);
    assert [Buckets.Call(now, now, (burst + 1) as real)][..0] == [];
  }

  lemma NotNegative(x: real, y: real)
    requires x >= 0.0 && y > 0.0
    ensures x / y * 1_000_000_000.0 >= 0.0
  {
  }
}
