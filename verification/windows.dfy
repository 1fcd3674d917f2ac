// Fixed and sliding window counters (cloud/ratelimit/fixed_window.go, sliding_window.go).
//
// Both counters split a run into generations at least one window apart whose counts
// never exceed the limit. That alone bounds what any interval of one window can admit.
module Windows {
  import opened Options

  datatype Call = Call(now: int, n: int)

  ghost predicate InOrder(calls: seq<Call>) {
    && (forall i, j :: 0 <= i <= j < |calls| ==> calls[i].now <= calls[j].now)
    && (forall i :: 0 <= i < |calls| ==> calls[i].n >= 0)
  }

  // ---- Generations --------------------------------------------------------

  /** What a counter leaves behind for one call: its instant, the amount admitted, and the start of its generation. */
  datatype Mark = Mark(now: int, amount: real, start: int)

  function Amount(marks: seq<Mark>): real {
    if marks == [] then 0.0 else Amount(marks[..|marks| - 1]) + marks[|marks| - 1].amount
  }

  /** The amount admitted in the generation that began at start. */
  function AmountOf(marks: seq<Mark>, start: int): real {
    if marks == [] then 0.0
    else
      var last := marks[|marks| - 1];
      AmountOf(marks[..|marks| - 1], start) + (if last.start == start then last.amount else 0.0)
  }

  ghost predicate Generations(marks: seq<Mark>, window: int, limit: real) {
    && (forall k :: 0 <= k < |marks| ==> marks[k].start <= marks[k].now < marks[k].start + window)
    && (forall k :: 0 <= k < |marks| ==> marks[k].amount >= 0.0)
    && (forall i, j :: 0 <= i < j < |marks| ==>
          marks[i].start == marks[j].start || marks[i].start + window <= marks[j].start)
    && (forall start :: AmountOf(marks, start) <= limit)
  }

  lemma {:induction false} AmountOfSlice(marks: seq<Mark>, i: nat, j: nat, start: int)
    requires i <= j <= |marks|
    requires forall k :: 0 <= k < |marks| ==> marks[k].amount >= 0.0
    ensures 0.0 <= AmountOf(marks[i..j], start) <= AmountOf(marks, start)
  {
    if marks == [] {
    } else if j < |marks| {
      AmountOfSlice(marks[..|marks| - 1], i, j, start);
      assert marks[..|marks| - 1][i..j] == marks[i..j];
    } else if i < j {
      AmountOfSlice(marks[..|marks| - 1], i, j - 1, start);
      var last := marks[|marks| - 1];
      assert marks[i..j] == marks[..|marks| - 1][i..j - 1] + [last];
      AmountWithLast(marks[..|marks| - 1][i..j - 1], last, start);
    } else {
      AmountOfSlice(marks[..|marks| - 1], i - 1, j - 1, start);
    }
  }

  lemma {:induction false} TwoGenerationsCover(marks: seq<Mark>, s: int, t: int)
    requires forall k :: 0 <= k < |marks| ==> marks[k].start == s || marks[k].start == t
    requires forall k :: 0 <= k < |marks| ==> marks[k].amount >= 0.0
    ensures Amount(marks) <= AmountOf(marks, s) + AmountOf(marks, t)
    ensures s == t ==> Amount(marks) == AmountOf(marks, s)
  {
    if marks != [] {
      TwoGenerationsCover(marks[..|marks| - 1], s, t);
    }
  }

  /** Calls less than one window apart belong to at most two generations, so they admit at most twice the limit. */
  lemma TwiceTheLimit(marks: seq<Mark>, window: int, limit: real, i: nat, j: nat)
    requires Generations(marks, window, limit)
    requires i < j <= |marks| && marks[j - 1].now - marks[i].now < window
    ensures Amount(marks[i..j]) <= limit + limit
  {
    var s, t := marks[i].start, marks[j - 1].start;
    forall k | 0 <= k < j - i
      ensures marks[i..j][k].start == s || marks[i..j][k].start == t
    {
      assert marks[i..j][k] == marks[i + k];
      assert s <= marks[i].now < s + window && t <= marks[j - 1].now;
    }
    TwoGenerationsCover(marks[i..j], s, t);
    AmountOfSlice(marks, i, j, s);
    AmountOfSlice(marks, i, j, t);
  }

  lemma {:induction false} AmountOfNewStart(marks: seq<Mark>, start: int)
    requires forall k :: 0 <= k < |marks| ==> marks[k].start != start
    ensures AmountOf(marks, start) == 0.0
  {
    if marks != [] {
      AmountOfNewStart(marks[..|marks| - 1], start);
    }
  }

  /** One more call keeps the generations apart when its counter is within the limit. */
  lemma GenerationsGrow(marks: seq<Mark>, window: int, limit: real, m: Mark)
    requires Generations(marks, window, limit)
    requires m.start <= m.now < m.start + window && m.amount >= 0.0
    requires forall i :: 0 <= i < |marks| ==> marks[i].start == m.start || marks[i].start + window <= m.start
    requires AmountOf(marks, m.start) + m.amount <= limit
    ensures Generations(marks + [m], window, limit)
    ensures AmountOf(marks + [m], m.start) == AmountOf(marks, m.start) + m.amount
  {
    assert (marks + [m])[..|marks|] == marks;
    forall start
      ensures AmountOf(marks + [m], start)
           == AmountOf(marks, start) + (if m.start == start then m.amount else 0.0)
    {
    }
  }

  // ---- Fixed window -------------------------------------------------------

  datatype Fixed = Fixed(limit: real, window: int, curStart: int, count: real)

  /** Rounds an instant down to a multiple of the window; without a positive window it is left as it is. */
  function Truncated(now: int, window: int): (t: int)
    ensures window > 0 ==> t <= now < t + window && exists q: int :: t == q * window
    ensures window <= 0 ==> t == now
  {
    if window <= 0 then now
    else
      assert now - now % window == (now / window) * window;
      now - now % window
  }

  function NewFixed(limit: real, window: int, now: int): Fixed {
    Fixed(limit, window, Truncated(now, window), 0.0)
  }

  function FixedRolled(w: Fixed, now: int): Fixed {
    if now - w.curStart >= w.window then w.(count := 0.0, curStart := Truncated(now, w.window)) else w
  }

  predicate FixedAdmits(w: Fixed, now: int, n: int) {
    FixedRolled(w, now).count + n as real <= w.limit
  }

  function FixedCounted(w: Fixed, now: int, n: int): (w': Fixed)
    ensures w'.window == w.window
  {
    var r := FixedRolled(w, now);
    if FixedAdmits(w, now, n) then r.(count := r.count + n as real) else r
  }

  class FixedWindow {
    var limit: real
    var window: int
    var curStart: int
    var count: real

    function Abs(): Fixed
      reads this
    {
      Fixed(limit, window, curStart, count)
    }

    constructor (limit: real, window: int, now: int)
      ensures Abs() == NewFixed(limit, window, now)
    {
      this.limit, this.window, curStart, count := limit, window, Truncated(now, window), 0.0;
    }

    method AllowN(now: int, n: int) returns (ok: bool)
      modifies this
      ensures Abs() == FixedCounted(old(Abs()), now, n)
      ensures ok <==> FixedAdmits(old(Abs()), now, n)
    {
      if now - curStart >= window {
        count := 0.0;
        curStart := Truncated(now, window);
      }
      if count + n as real > limit {
        return false;
      }
      count := count + n as real;
      return true;
    }
  }

  function FixedRun(w: Fixed, calls: seq<Call>): (w': Fixed)
    ensures w'.window == w.window
  {
    if calls == [] then w
    else
      var last := calls[|calls| - 1];
      FixedCounted(FixedRun(w, calls[..|calls| - 1]), last.now, last.n)
  }

  function FixedMarks(w: Fixed, calls: seq<Call>): (marks: seq<Mark>)
    ensures |marks| == |calls|
    ensures forall k :: 0 <= k < |calls| ==> marks[k].now == calls[k].now
  {
    if calls == [] then []
    else
      var before, last := FixedRun(w, calls[..|calls| - 1]), calls[|calls| - 1];
      FixedMarks(w, calls[..|calls| - 1]) + [FixedMark(before, last.now, last.n)]
  }

  ghost predicate Aligned(start: int, window: int) {
    exists q: int :: start == q * window
  }

  lemma {:induction false} MultiplesApart(a: int, b: int, window: int)
    requires window > 0 && Aligned(a, window) && Aligned(b, window) && a < b
    ensures a + window <= b
  {
    var q: int :| a == q * window;
    var r: int :| b == r * window;
    MultipleGap(q, r, window);
  }

  lemma {:induction false} MultipleGap(q: int, r: int, window: int)
    requires window > 0 && q * window < r * window
    ensures q * window + window <= r * window
  {
    var d := r - q;
    assert r * window == q * window + d * window;
    if d <= 0 {
      NoGain(-d, window);
    } else {
      NoGain(d - 1, window);
      assert d * window == (d - 1) * window + window;
    }
  }

  lemma NoGain(d: int, window: int)
    requires d >= 0 && window >= 0
    ensures d * window >= 0 && (-d) * window <= 0
  {
  }

  /** What holds of a fixed window and of the marks of its calls so far. */
  ghost predicate FixedInv(w: Fixed, marks: seq<Mark>, now: int) {
    && w.window > 0 && Aligned(w.curStart, w.window) && w.curStart <= now
    && Generations(marks, w.window, w.limit)
    && w.count == AmountOf(marks, w.curStart) && 0.0 <= w.count <= w.limit
    && (forall k :: 0 <= k < |marks| ==> marks[k].start <= w.curStart && Aligned(marks[k].start, w.window))
  }

  function FixedMark(w: Fixed, now: int, n: int): Mark {
    Mark(now, if FixedAdmits(w, now, n) then n as real else 0.0, FixedRolled(w, now).curStart)
  }

  lemma {:induction false} FixedRollKeepsInv(w: Fixed, marks: seq<Mark>, prev: int, now: int)
    requires FixedInv(w, marks, prev) && prev <= now
    ensures FixedInv(FixedRolled(w, now), marks, now)
    ensures 0.0 <= FixedRolled(w, now).count <= FixedRolled(w, now).limit
    ensures var start := FixedRolled(w, now).curStart; start <= now < start + w.window
    ensures forall k :: 0 <= k < |marks| ==>
              marks[k].start == FixedRolled(w, now).curStart
              || marks[k].start + w.window <= FixedRolled(w, now).curStart
  {
    var start := FixedRolled(w, now).curStart;
    if start != w.curStart {
      assert start == Truncated(now, w.window) && Aligned(start, w.window);
      if start < w.curStart {
        MultiplesApart(start, w.curStart, w.window);
      }
    }
    forall k | 0 <= k < |marks|
      ensures marks[k].start == start || marks[k].start + w.window <= start
      ensures start != w.curStart ==> marks[k].start != start
    {
      if marks[k].start < start {
        MultiplesApart(marks[k].start, start, w.window);
      }
    }
    if start != w.curStart {
      AmountOfNewStart(marks, start);
    }
  }

  lemma {:induction false} FixedCountKeepsInv(r: Fixed, marks: seq<Mark>, now: int, m: Mark)
    requires FixedInv(r, marks, now) && m.now == now && m.start == r.curStart && now < m.start + r.window
    requires m.amount >= 0.0 && r.count + m.amount <= r.limit
    requires forall k :: 0 <= k < |marks| ==> marks[k].start == m.start || marks[k].start + r.window <= m.start
    ensures FixedInv(r.(count := r.count + m.amount), marks + [m], now)
  {
    hide Aligned;
    GenerationsGrow(marks, r.window, r.limit, m);
    hide Generations, AmountOf;
  }

  lemma FixedStepKeepsInv(w: Fixed, marks: seq<Mark>, prev: int, now: int, n: int)
    requires FixedInv(w, marks, prev) && prev <= now && n >= 0
    ensures FixedInv(FixedCounted(w, now, n), marks + [FixedMark(w, now, n)], now)
  {
    assert w.window > 0;
    hide FixedInv, FixedRolled;
    FixedRollKeepsInv(w, marks, prev, now);
    RollKeepsConfig(w, now);
    FixedCountKeepsInv(FixedRolled(w, now), marks, now, FixedMark(w, now, n));
  }

  lemma RollKeepsConfig(w: Fixed, now: int)
    requires w.window > 0
    ensures FixedRolled(w, now).window == w.window && FixedRolled(w, now).limit == w.limit
  {
  }

  function LastInstant(calls: seq<Call>, born: int): int {
    if calls == [] then born else calls[|calls| - 1].now
  }

  lemma {:induction false} FixedGenerations(limit: real, window: int, born: int, calls: seq<Call>)
    requires window > 0 && limit >= 0.0 && InOrder(calls)
    requires calls != [] ==> born <= calls[0].now
    ensures FixedInv(FixedRun(NewFixed(limit, window, born), calls),
                     FixedMarks(NewFixed(limit, window, born), calls), LastInstant(calls, born))
    ensures FixedRun(NewFixed(limit, window, born), calls).limit == limit
  {
    hide FixedInv, FixedCounted, FixedMark, NewFixed;
    var w := NewFixed(limit, window, born);
    NewFixedInv(limit, window, born);
    if calls != [] {
      var n := |calls| - 1;
      FixedGenerations(limit, window, born, calls[..n]);
      FixedStepKeepsInv(FixedRun(w, calls[..n]), FixedMarks(w, calls[..n]), LastInstant(calls[..n], born),
                        calls[n].now, calls[n].n);
      FixedKeepsLimit(FixedRun(w, calls[..n]), calls[n].now, calls[n].n);
    }
  }

  lemma NewFixedInv(limit: real, window: int, born: int)
    requires window > 0 && limit >= 0.0
    ensures FixedInv(NewFixed(limit, window, born), [], born) && NewFixed(limit, window, born).limit == limit
  {
  }

  lemma FixedKeepsLimit(w: Fixed, now: int, n: int)
    ensures FixedCounted(w, now, n).limit == w.limit
  {
  }

  /** An aligned window admits at most the limit, and any interval shorter than a window at most twice the limit. */
  lemma {:induction false} FixedWindowBounds(limit: real, window: int, born: int, calls: seq<Call>, i: nat, j: nat, start: int)
    requires window > 0 && limit >= 0.0 && InOrder(calls)
    requires calls != [] ==> born <= calls[0].now
    requires i < j <= |calls| && calls[j - 1].now - calls[i].now < window
    ensures var marks := FixedMarks(NewFixed(limit, window, born), calls);
            && AmountOf(marks, start) <= limit
            && Amount(marks[i..j]) <= limit + limit
  {
    FixedGenerations(limit, window, born, calls);
    TwiceTheLimit(FixedMarks(NewFixed(limit, window, born), calls), window, limit, i, j);
  }

  /** Every call is counted in the aligned window its instant falls into. */
  lemma {:induction false} FixedMarkIsAlignedWindow(limit: real, window: int, born: int, calls: seq<Call>, k: nat)
    requires window > 0 && limit >= 0.0 && InOrder(calls) && k < |calls|
    requires born <= calls[0].now
    ensures FixedMarks(NewFixed(limit, window, born), calls)[k].start == Truncated(calls[k].now, window)
  {
    FixedGenerations(limit, window, born, calls);
    var s, t := FixedMarks(NewFixed(limit, window, born), calls)[k].start, Truncated(calls[k].now, window);
    assert Aligned(s, window) && Aligned(t, window);
    if s < t {
      MultiplesApart(s, t, window);
    } else if t < s {
      MultiplesApart(t, s, window);
    }
  }

  /** Exactly when a call is admitted: if what its aligned window admitted before it leaves room. */
  lemma {:induction false} FixedAdmitsIff(limit: real, window: int, born: int, calls: seq<Call>, now: int, n: nat)
    requires window > 0 && limit >= 0.0 && InOrder(calls) && LastInstant(calls, born) <= now
    requires calls != [] ==> born <= calls[0].now
    ensures FixedAdmits(FixedRun(NewFixed(limit, window, born), calls), now, n) <==>
              AmountOf(FixedMarks(NewFixed(limit, window, born), calls), (now / window) * window) + n as real <= limit
  {
    var w0 := NewFixed(limit, window, born);
    var w, marks := FixedRun(w0, calls), FixedMarks(w0, calls);
    FixedGenerations(limit, window, born, calls);
    FixedRollKeepsInv(w, marks, LastInstant(calls, born), now);
    RollKeepsConfig(w, now);
    var start := FixedRolled(w, now).curStart;
    AlignedIsFloor(start, now, window);
    hide FixedRolled, Generations, FixedRun, FixedMarks;
  }

  lemma AlignedIsFloor(start: int, now: int, window: int)
    requires window > 0 && Aligned(start, window) && start <= now < start + window
    ensures start == (now / window) * window
  {
    assert now == (now / window) * window + now % window && Aligned((now / window) * window, window);
    if start < (now / window) * window {
      MultiplesApart(start, (now / window) * window, window);
    } else if (now / window) * window < start {
      MultiplesApart((now / window) * window, start, window);
    }
  }

  /** The bound is tight: two calls one nanosecond apart across a window edge admit exactly twice the limit. */
  lemma BoundaryBurst(limit: nat, window: int)
    requires window > 1
    ensures var calls := [Call(window - 1, limit), Call(window, limit)];
            Amount(FixedMarks(NewFixed(limit as real, window, 0), calls)) == limit as real + limit as real
  {
    var w := NewFixed(limit as real, window, 0);
    var calls := [Call(window - 1, limit), Call(window, limit)];
    assert calls[..1] == [calls[0]] && calls[..1][..0] == [];
    assert FixedRun(w, []) == w;
    assert FixedRun(w, calls[..1]) == w.(count := limit as real);
    var marks := FixedMarks(w, calls);
    assert FixedMarks(w, calls[..1]) == FixedMarks(w, []) + [FixedMark(w, window - 1, limit)];
    assert FixedMarks(w, calls[..1]) == [Mark(window - 1, limit as real, 0)];
    assert marks == [Mark(window - 1, limit as real, 0), Mark(window, limit as real, window)];
    assert marks[..1] == [marks[0]] && marks[..1][..0] == [];
    assert Amount(marks[..1]) == Amount([]) + limit as real;
    assert Amount(marks) == Amount(marks[..1]) + limit as real;
  }

  // ---- Sliding window -----------------------------------------------------

  datatype Sliding = Sliding(limit: real, window: int, curStart: int, curCount: real, prevCount: real)

  function NewSliding(limit: real, window: int, now: int): Sliding {
    Sliding(limit, window, now, 0.0, 0.0)
  }

  function SlidingRolled(w: Sliding, now: int): Sliding {
    var elapsed := now - w.curStart;
    if elapsed >= w.window then
      w.(prevCount := if elapsed >= 2 * w.window then 0.0 else w.curCount, curCount := 0.0, curStart := now)
    else w
  }

  /** The previous window's count, weighted by its remaining overlap, plus the current count. */
  function Estimate(w: Sliding, now: int): real
    requires w.window != 0
  {
    w.prevCount * ((w.window - (now - w.curStart)) as real / w.window as real) + w.curCount
  }

  /** With a window of zero the weight is zero by zero: the estimate is no number, and exceeds no limit. */
  predicate SlidingAdmits(w: Sliding, now: int, n: int) {
    w.window == 0 || Estimate(SlidingRolled(w, now), now) + n as real <= w.limit
  }

  function SlidingCounted(w: Sliding, now: int, n: int): (w': Sliding)
    ensures w'.window == w.window
  {
    var r := SlidingRolled(w, now);
    if SlidingAdmits(w, now, n) then r.(curCount := r.curCount + n as real) else r
  }

  class SlidingWindow {
    var limit: real
    var window: int
    var curStart: int
    var curCount: real
    var prevCount: real

    function Abs(): Sliding
      reads this
    {
      Sliding(limit, window, curStart, curCount, prevCount)
    }

    predicate Valid()
      reads this
    {
      window == 0 ==> prevCount == 0.0
    }

    constructor (limit: real, window: int, now: int)
      ensures Valid() && Abs() == NewSliding(limit, window, now)
    {
      this.limit, this.window, curStart, curCount, prevCount := limit, window, now, 0.0, 0.0;
    }

    method AllowN(now: int, n: int) returns (ok: bool)
      requires Valid()
      modifies this
      ensures Valid() && Abs() == SlidingCounted(old(Abs()), now, n)
      ensures ok <==> SlidingAdmits(old(Abs()), now, n)
    {
      var elapsed := now - curStart;
      if elapsed >= window {
        if elapsed >= 2 * window {
          prevCount := 0.0;
        } else {
          prevCount := curCount;
        }
        curCount := 0.0;
        curStart := now;
        elapsed := 0;
      }
      if window != 0 {
        var weight := (window - elapsed) as real / window as real;
        var estimate := prevCount * weight + curCount;
        if estimate + n as real > limit {
          return false;
        }
      }
      curCount := curCount + n as real;
      return true;
    }
  }

  function SlidingRun(w: Sliding, calls: seq<Call>): (w': Sliding)
    ensures w'.window == w.window
  {
    if calls == [] then w
    else
      var last := calls[|calls| - 1];
      SlidingCounted(SlidingRun(w, calls[..|calls| - 1]), last.now, last.n)
  }

  function SlidingMarks(w: Sliding, calls: seq<Call>): (marks: seq<Mark>)
    ensures |marks| == |calls|
    ensures forall k :: 0 <= k < |calls| ==> marks[k].now == calls[k].now
  {
    if calls == [] then []
    else
      var before, last := SlidingRun(w, calls[..|calls| - 1]), calls[|calls| - 1];
      SlidingMarks(w, calls[..|calls| - 1]) + [SlidingMark(before, last.now, last.n)]
  }

  /** The weighted part of the estimate is never negative, so the current count stays within the limit. */
  lemma EstimateCoversCount(w: Sliding, now: int)
    requires w.window > 0 && w.prevCount >= 0.0 && now - w.curStart <= w.window
    ensures Estimate(w, now) >= w.curCount
  {
    var weight := (w.window - (now - w.curStart)) as real / w.window as real;
    assert weight >= 0.0;
    assert w.prevCount * weight >= 0.0;
  }

  ghost predicate SlidingInv(w: Sliding, marks: seq<Mark>, now: int) {
    && w.window > 0 && w.curStart <= now
    && Generations(marks, w.window, w.limit)
    && w.curCount == AmountOf(marks, w.curStart) && 0.0 <= w.curCount <= w.limit && w.prevCount >= 0.0
    && (forall k :: 0 <= k < |marks| ==>
          marks[k].start == w.curStart || marks[k].start + w.window <= w.curStart)
  }

  function SlidingMark(w: Sliding, now: int, n: int): Mark {
    Mark(now, if SlidingAdmits(w, now, n) then n as real else 0.0, SlidingRolled(w, now).curStart)
  }

  lemma SlidingRollKeepsInv(w: Sliding, marks: seq<Mark>, prev: int, now: int)
    requires SlidingInv(w, marks, prev) && prev <= now
    ensures SlidingInv(SlidingRolled(w, now), marks, now)
    ensures var r := SlidingRolled(w, now);
            0.0 <= r.curCount <= r.limit && r.prevCount >= 0.0 && r.window == w.window && r.limit == w.limit
    ensures var start := SlidingRolled(w, now).curStart; start <= now < start + w.window
  {
    var start := SlidingRolled(w, now).curStart;
    if start != w.curStart {
      AmountOfNewStart(marks, start);
    }
  }

  lemma SlidingCountKeepsInv(r: Sliding, marks: seq<Mark>, now: int, m: Mark)
    requires SlidingInv(r, marks, now) && m.now == now && m.start == r.curStart && now < m.start + r.window
    requires m.amount >= 0.0 && r.curCount + m.amount <= r.limit
    ensures SlidingInv(r.(curCount := r.curCount + m.amount), marks + [m], now)
  {
    GenerationsGrow(marks, r.window, r.limit, m);
    hide Generations, AmountOf;
  }

  lemma SlidingStepKeepsInv(w: Sliding, marks: seq<Mark>, prev: int, now: int, n: int)
    requires SlidingInv(w, marks, prev) && prev <= now && n >= 0
    ensures SlidingInv(SlidingCounted(w, now, n), marks + [SlidingMark(w, now, n)], now)
  {
    assert w.window > 0;
    hide SlidingInv, SlidingRolled, Estimate;
    SlidingRollKeepsInv(w, marks, prev, now);
    EstimateCoversCount(SlidingRolled(w, now), now);
    SlidingCountKeepsInv(SlidingRolled(w, now), marks, now, SlidingMark(w, now, n));
  }

  lemma {:induction false} SlidingGenerations(limit: real, window: int, born: int, calls: seq<Call>)
    requires window > 0 && limit >= 0.0 && InOrder(calls)
    requires calls != [] ==> born <= calls[0].now
    ensures SlidingInv(SlidingRun(NewSliding(limit, window, born), calls),
                       SlidingMarks(NewSliding(limit, window, born), calls), LastInstant(calls, born))
    ensures SlidingRun(NewSliding(limit, window, born), calls).limit == limit
  {
    hide SlidingInv, SlidingCounted, SlidingMark;
    var w := NewSliding(limit, window, born);
    if calls == [] {
      NewSlidingInv(limit, window, born);
    } else {
      var n := |calls| - 1;
      SlidingGenerations(limit, window, born, calls[..n]);
      SlidingStepKeepsInv(SlidingRun(w, calls[..n]), SlidingMarks(w, calls[..n]), LastInstant(calls[..n], born),
                          calls[n].now, calls[n].n);
      CountedKeepsLimit(SlidingRun(w, calls[..n]), calls[n].now, calls[n].n);
    }
  }

  lemma NewSlidingInv(limit: real, window: int, born: int)
    requires window > 0 && limit >= 0.0
    ensures SlidingInv(NewSliding(limit, window, born), [], born)
  {
  }

  lemma CountedKeepsLimit(w: Sliding, now: int, n: int)
    ensures SlidingCounted(w, now, n).limit == w.limit
  {
  }

  /** Where the window before the current one started, unless none is recent enough to count. */
  function PreviousStart(w: Sliding, calls: seq<Call>): Option<int> {
    if calls == [] then None
    else
      var before, now := SlidingRun(w, calls[..|calls| - 1]), calls[|calls| - 1].now;
      if now - before.curStart >= 2 * before.window then None
      else if now - before.curStart >= before.window then Some(before.curStart)
      else PreviousStart(w, calls[..|calls| - 1])
  }

  lemma AmountWithLast(marks: seq<Mark>, m: Mark, start: int)
    ensures AmountOf(marks + [m], start) == AmountOf(marks, start) + (if m.start == start then m.amount else 0.0)
  {
    assert (marks + [m])[..|marks|] == marks;
  }

  /**
   * The two stored counts are counts over the history: what was admitted in the current
   * window, and in the one that ended less than a window before it started.
   */
  lemma {:induction false} SlidingCountsHistory(limit: real, window: int, born: int, calls: seq<Call>)
    requires window > 0 && limit >= 0.0 && InOrder(calls)
    requires calls != [] ==> born <= calls[0].now
    ensures var w0 := NewSliding(limit, window, born);
            var w, marks, prev := SlidingRun(w0, calls), SlidingMarks(w0, calls), PreviousStart(w0, calls);
            && w.curCount == AmountOf(marks, w.curStart)
            && (prev.None? ==> w.prevCount == 0.0)
            && (prev.Some? ==>
                  && prev.value + window <= w.curStart < prev.value + 2 * window
                  && w.prevCount == AmountOf(marks, prev.value))
  {
    var w0 := NewSliding(limit, window, born);
    SlidingGenerations(limit, window, born, calls);
    if calls != [] {
      var rest, last := calls[..|calls| - 1], calls[|calls| - 1];
      SlidingCountsHistory(limit, window, born, rest);
      var before := SlidingRun(w0, rest);
      var m := SlidingMark(before, last.now, last.n);
      if PreviousStart(w0, calls).Some? {
        AmountWithLast(SlidingMarks(w0, rest), m, PreviousStart(w0, calls).value);
      }
    }
    hide SlidingRun, SlidingMarks, AmountOf, Generations;
  }

  // ---- When the limit is a cap --------------------------------------------

  /** Calls in order, none of them before the counter was made. */
  ghost predicate IsRun(born: int, calls: seq<Call>) {
    InOrder(calls) && (calls != [] ==> born <= calls[0].now)
  }

  ghost predicate Whole(x: real) {
    x == x.Floor as real
  }

  lemma {:induction false} WholeAmounts(marks: seq<Mark>, start: int)
    requires forall k :: 0 <= k < |marks| ==> Whole(marks[k].amount)
    ensures Whole(AmountOf(marks, start))
  {
    if marks != [] {
      var last := marks[|marks| - 1];
      WholeAmounts(marks[..|marks| - 1], start);
      WholeSum(AmountOf(marks[..|marks| - 1], start), last.amount);
    }
  }

  lemma {:induction false} WholeSum(x: real, y: real)
    requires Whole(x) && Whole(y)
    ensures Whole(x + y)
  {
    assert x + y == (x.Floor + y.Floor) as real;
  }

  lemma {:induction false} WholeMarks(w: Sliding, calls: seq<Call>)
    ensures forall k :: 0 <= k < |calls| ==> Whole(SlidingMarks(w, calls)[k].amount)
  {
    if calls != [] {
      WholeMarks(w, calls[..|calls| - 1]);
      hide SlidingAdmits, SlidingRun;
    }
  }

  /** Every generation is the current one, the previous one, or started two windows before the current one. */
  lemma {:induction false} SlidingStarts(limit: real, window: int, born: int, calls: seq<Call>)
    requires window > 0 && limit >= 0.0 && IsRun(born, calls)
    ensures var w0 := NewSliding(limit, window, born);
            var w, marks, prev := SlidingRun(w0, calls), SlidingMarks(w0, calls), PreviousStart(w0, calls);
            forall k :: 0 <= k < |marks| ==>
              || marks[k].start == w.curStart
              || marks[k].start + 2 * window <= w.curStart
              || (prev.Some? && marks[k].start == prev.value)
  {
    if calls != [] {
      var rest := calls[..|calls| - 1];
      SlidingStarts(limit, window, born, rest);
      SlidingGenerations(limit, window, born, rest);
      hide Generations, AmountOf, Estimate;
    }
  }

  /** A call that was admitted left both counts room in the weighted estimate. */
  lemma AdmittedFits(w: Sliding, now: int, n: int)
    requires w.window > 0 && SlidingMark(w, now, n).amount > 0.0
    ensures Estimate(SlidingCounted(w, now, n), now) <= w.limit
    ensures SlidingMark(w, now, n).start == SlidingCounted(w, now, n).curStart
  {
  }

  /** The condition on the configuration. */
  predicate CapFits(limit: real, window: int) {
    window as real * (limit - 1.0) < 2.0 * (limit.Floor as real)
  }

  /** Whole counts that fit the estimate with a weight of at least two parts in window fit the limit unweighted. */
  lemma CountsFit(previous: real, current: real, limit: real, window: int, elapsed: int)
    requires Whole(previous) && Whole(current) && 0.0 <= previous <= limit && CapFits(limit, window)
    requires 0 <= elapsed <= window - 2
    requires previous * ((window - elapsed) as real / window as real) + current <= limit
    ensures previous + current <= limit
  {
    var weight := (window - elapsed) as real / window as real;
    WeightOf(window, elapsed);
    if previous + current > limit {
      WholeSum(previous, current);
      NextWhole(previous, limit);
      NextWhole(previous + current, limit);
      Overfull(previous, current, limit, limit.Floor as real, window as real, weight);
    }
  }

  lemma WeightOf(window: int, elapsed: int)
    requires 0 <= elapsed <= window - 2
    ensures ((window - elapsed) as real / window as real) * window as real >= 2.0
  {
    Quotient((window - elapsed) as real, window as real);
  }

  lemma Quotient(x: real, y: real)
    requires y != 0.0
    ensures (x / y) * y == x
  {
  }

  lemma NextWhole(x: real, limit: real)
    requires Whole(x)
    ensures if x > limit then x >= limit.Floor as real + 1.0 else x <= limit.Floor as real
  {
  }

  lemma Overfull(previous: real, current: real, limit: real, floor: real, width: real, weight: real)
    requires previous + current >= floor + 1.0 && 0.0 <= previous <= floor && width >= 2.0
    requires weight * width >= 2.0 && previous * weight + current <= limit
    ensures width * (limit - 1.0) >= 2.0 * floor
  {
    var room := limit - 1.0 - (floor - previous);
    Scaled(previous, weight, width, room);
    assert room * width == width * (limit - 1.0) - (floor - previous) * width;
    MoreRoom(2.0, width, floor - previous);
  }

  lemma Scaled(x: real, weight: real, width: real, room: real)
    requires x >= 0.0 && width > 0.0 && weight * width >= 2.0 && x * weight <= room
    ensures x * 2.0 <= room * width
  {
    assert x * 2.0 <= x * (weight * width) == (x * weight) * width;
    MoreRoom(x * weight, room, width);
  }

  lemma MoreRoom(x: real, y: real, width: real)
    requires x <= y && width >= 0.0
    ensures x * width <= y * width
  {
  }

  lemma AmountWithOne(marks: seq<Mark>, m: Mark)
    ensures Amount(marks + [m]) == Amount(marks) + m.amount
  {
    assert (marks + [m])[..|marks|] == marks;
  }

  /** An admitted call leaves both counts within the weighted estimate. */
  lemma {:induction false} AdmittedLast(limit: real, window: int, born: int, calls: seq<Call>)
    requires window > 0 && limit >= 0.0 && IsRun(born, calls) && calls != []
    requires SlidingMarks(NewSliding(limit, window, born), calls)[|calls| - 1].amount > 0.0
    ensures var w := SlidingRun(NewSliding(limit, window, born), calls);
            && w.window == window && w.limit == limit && Estimate(w, calls[|calls| - 1].now) <= limit
            && SlidingMarks(NewSliding(limit, window, born), calls)[|calls| - 1].start == w.curStart
  {
    var w0, last := NewSliding(limit, window, born), calls[|calls| - 1];
    RunKeepsConfig(w0, calls);
    RunKeepsConfig(w0, calls[..|calls| - 1]);
    hide SlidingMark, SlidingCounted, Estimate;
    AdmittedFits(SlidingRun(w0, calls[..|calls| - 1]), last.now, last.n);
  }

  lemma {:induction false} RunKeepsConfig(w: Sliding, calls: seq<Call>)
    ensures SlidingRun(w, calls).limit == w.limit && SlidingRun(w, calls).window == w.window
  {
    if calls != [] {
      RunKeepsConfig(w, calls[..|calls| - 1]);
    }
  }

  /** The interval that ends with an admitted call is within the limit. */
  lemma {:induction false} AdmittedInterval(limit: real, window: int, born: int, calls: seq<Call>, i: nat)
    requires window > 0 && limit >= 0.0 && IsRun(born, calls) && CapFits(limit, window)
    requires i < |calls| && calls[|calls| - 1].now - calls[i].now < window
    requires SlidingMarks(NewSliding(limit, window, born), calls)[|calls| - 1].amount > 0.0
    ensures Amount(SlidingMarks(NewSliding(limit, window, born), calls)[i..]) <= limit
  {
    hide SlidingRun, SlidingMarks, AmountOf, Amount, CapFits, Whole;
    var w0 := NewSliding(limit, window, born);
    var w, marks := SlidingRun(w0, calls), SlidingMarks(w0, calls);
    SlidingGenerations(limit, window, born, calls);
    AdmittedLast(limit, window, born, calls);
    var s, t := marks[i].start, w.curStart;
    AtMostTwoStarts(marks, window, limit, i);
    assert marks[i..] == marks[i..|marks|];
    TwoGenerationsCover(marks[i..], s, t);
    AmountOfSlice(marks, i, |marks|, s);
    AmountOfSlice(marks, i, |marks|, t);
    if s != t {
      SlidingStarts(limit, window, born, calls);
      SlidingCountsHistory(limit, window, born, calls);
      WholeMarks(w0, calls);
      WholeAmounts(marks, s);
      WholeAmounts(marks, t);
      EstimateIs(w, calls[|calls| - 1].now);
      CountsFit(w.prevCount, w.curCount, limit, window, calls[|calls| - 1].now - t);
    }
  }

  lemma EstimateIs(w: Sliding, now: int)
    requires w.window > 0
    ensures Estimate(w, now) == w.prevCount * ((w.window - (now - w.curStart)) as real / w.window as real) + w.curCount
  {
  }

  /** Calls less than a window apart belong to the first one's generation or to the last one's. */
  lemma AtMostTwoStarts(marks: seq<Mark>, window: int, limit: real, i: nat)
    requires Generations(marks, window, limit)
    requires i < |marks| && marks[|marks| - 1].now - marks[i].now < window
    ensures forall k :: i <= k < |marks| ==> marks[k].start == marks[i].start || marks[k].start == marks[|marks| - 1].start
    ensures marks[i].start == marks[|marks| - 1].start
            || (marks[i].start + window <= marks[|marks| - 1].start
                && marks[|marks| - 1].now - marks[|marks| - 1].start <= window - 2
                && marks[i].start + 2 * window > marks[|marks| - 1].start)
  {
  }

  lemma {:induction false} IntervalIsWithin(limit: real, window: int, born: int, calls: seq<Call>, i: nat)
    requires window > 0 && limit >= 0.0 && IsRun(born, calls) && CapFits(limit, window)
    requires i < |calls| && calls[|calls| - 1].now - calls[i].now < window
    ensures Amount(SlidingMarks(NewSliding(limit, window, born), calls)[i..]) <= limit
  {
    var w0, n := NewSliding(limit, window, born), |calls| - 1;
    var marks, before := SlidingMarks(w0, calls), SlidingMarks(w0, calls[..n]);
    assert marks == before + [marks[n]];
    SlidingGenerations(limit, window, born, calls);
    if marks[n].amount > 0.0 {
      AdmittedInterval(limit, window, born, calls, i);
    } else if i < n {
      IntervalIsWithin(limit, window, born, calls[..n], i);
      assert marks[i..] == before[i..] + [marks[n]];
      AmountWithOne(before[i..], marks[n]);
    } else {
      assert marks[i..] == [] + [marks[n]];
      AmountWithOne([], marks[n]);
    }
  }

  lemma {:induction false} MarksOfPrefix(w: Sliding, calls: seq<Call>, j: nat)
    requires j <= |calls|
    ensures SlidingMarks(w, calls[..j]) == SlidingMarks(w, calls)[..j]
  {
    hide SlidingMark, SlidingRun;
    if j < |calls| {
      MarksOfPrefix(w, calls[..|calls| - 1], j);
      assert calls[..|calls| - 1][..j] == calls[..j];
    } else {
      assert calls[..j] == calls;
    }
  }

  /** Whatever is called when, no interval shorter than a window admits more than the limit. */
  ghost predicate SlidingCaps(limit: real, window: int) {
    forall born: int, calls: seq<Call>, i: nat, j: nat ::
      IsRun(born, calls) && i < j <= |calls| && calls[j - 1].now - calls[i].now < window ==>
        Amount(SlidingMarks(NewSliding(limit, window, born), calls)[i..j]) <= limit
  }

  /** A limit below one, and a window of one or two nanoseconds, always fit. */
  lemma SmallFits(limit: real, window: int)
    requires window > 0 && limit >= 0.0 && !CapFits(limit, window)
    ensures limit.Floor >= 1 && window >= 3
  {
    if limit < 1.0 {
      assert limit.Floor == 0;
      MoreRoom(limit - 1.0, 0.0, window as real);
      LessRoom(limit - 1.0, 0.0, window as real);
    } else {
      assert limit - 1.0 < limit.Floor as real;
      if window <= 2 {
        MoreRoom(window as real, 2.0, limit - 1.0);
      }
    }
  }

  /** The run that exceeds the limit where the condition fails: a full generation, an empty call, one more. */
  lemma SlidingExceeds(limit: real, window: int, born: int) returns (calls: seq<Call>)
    requires window > 0 && limit >= 0.0 && !CapFits(limit, window)
    ensures IsRun(born, calls) && |calls| == 3 && calls[2].now - calls[0].now < window
    ensures Amount(SlidingMarks(NewSliding(limit, window, born), calls)[0..3]) == limit.Floor as real + 1.0 > limit
  {
    var full := limit.Floor;
    SmallFits(limit, window);
    calls := [Call(born + window - 1, full), Call(born + window, 0), Call(born + 2 * window - 2, 1)];
    var w0 := NewSliding(limit, window, born);
    var w1 := w0.(curCount := full as real);
    var w2 := Sliding(limit, window, born + window, 0.0, full as real);
    assert SlidingMark(w0, calls[0].now, full) == Mark(calls[0].now, full as real, born);
    assert SlidingCounted(w0, calls[0].now, full) == w1;
    assert SlidingMark(w1, calls[1].now, 0) == Mark(calls[1].now, 0.0, born + window);
    assert SlidingCounted(w1, calls[1].now, 0) == w2;
    LastIsAdmitted(limit, window, full as real, w2, calls[2].now);
    ThreeMarks(w0, calls, w1, w2);
  }

  lemma LastIsAdmitted(limit: real, window: int, full: real, w: Sliding, now: int)
    requires window >= 3 && full == limit.Floor as real && !CapFits(limit, window)
    requires w == Sliding(limit, window, now - window + 2, 0.0, full)
    ensures SlidingMark(w, now, 1) == Mark(now, 1.0, w.curStart)
  {
    var weight := 2 as real / window as real;
    assert SlidingRolled(w, now) == w && Estimate(w, now) == full * weight;
    assert weight * window as real == 2.0;
    assert full * weight <= limit - 1.0 by {
      if full * weight > limit - 1.0 {
        assert (full * weight) * window as real == full * 2.0;
        LessRoom(limit - 1.0, full * weight, window as real);
      }
    }
  }

  lemma LessRoom(x: real, y: real, width: real)
    requires x < y && width > 0.0
    ensures x * width < y * width
  {
  }

  lemma ThreeMarks(w0: Sliding, calls: seq<Call>, w1: Sliding, w2: Sliding)
    requires |calls| == 3
    requires SlidingCounted(w0, calls[0].now, calls[0].n) == w1 && SlidingCounted(w1, calls[1].now, calls[1].n) == w2
    ensures Amount(SlidingMarks(w0, calls)[0..3])
              == SlidingMark(w0, calls[0].now, calls[0].n).amount + SlidingMark(w1, calls[1].now, calls[1].n).amount
                 + SlidingMark(w2, calls[2].now, calls[2].n).amount
  {
    hide SlidingMark, SlidingCounted;
    var m0, m1, m2 := SlidingMark(w0, calls[0].now, calls[0].n), SlidingMark(w1, calls[1].now, calls[1].n),
                      SlidingMark(w2, calls[2].now, calls[2].n);
    assert calls[..2][..1] == calls[..1] && calls[..1][..0] == [] && calls[..2][1] == calls[1];
    assert SlidingRun(w0, []) == w0 && SlidingRun(w0, calls[..1]) == w1 && SlidingRun(w0, calls[..2]) == w2;
    assert SlidingMarks(w0, []) == [] && SlidingMarks(w0, calls[..1]) == [] + [m0];
    assert SlidingMarks(w0, calls[..2]) == [] + [m0] + [m1];
    assert SlidingMarks(w0, calls)[0..3] == [] + [m0] + [m1] + [m2];
    AmountWithOne([], m0);
    AmountWithOne([] + [m0], m1);
    AmountWithOne([] + [m0] + [m1], m2);
  }

  lemma WholeLimits(limit: real, window: int)
    requires limit >= 0.0
    ensures Whole(limit) && window >= 4 ==> (CapFits(limit, window) <==> limit <= 1.0)
  {
    if Whole(limit) && window >= 4 {
      if limit > 1.0 {
        assert limit.Floor >= 2 && limit >= 2.0;
        MoreRoom(4.0, window as real, limit - 1.0);
      } else if limit < 1.0 {
        assert limit == 0.0;
      }
    }
  }

  /**
   * Exactly which configurations keep the promise of a hard cap over a rolling window: those
   * where window * (limit - 1) is below twice the whole part of the limit. For a whole limit
   * and a window of four nanoseconds or more that means a limit of at most one.
   */
  lemma SlidingCapsIff(limit: real, window: int)
    requires window > 0 && limit >= 0.0
    ensures SlidingCaps(limit, window) <==> CapFits(limit, window)
    ensures Whole(limit) && window >= 4 ==> (SlidingCaps(limit, window) <==> limit <= 1.0)
  {
    WholeLimits(limit, window);
    hide SlidingMarks, CapFits, Amount;
    if CapFits(limit, window) {
      forall born: int, calls: seq<Call>, i: nat, j: nat
        | IsRun(born, calls) && i < j <= |calls| && calls[j - 1].now - calls[i].now < window
        ensures Amount(SlidingMarks(NewSliding(limit, window, born), calls)[i..j]) <= limit
      {
        IntervalIsWithin(limit, window, born, calls[..j], i);
        MarksOfPrefix(NewSliding(limit, window, born), calls, j);
        var marks := SlidingMarks(NewSliding(limit, window, born), calls);
        assert marks[..j][i..] == marks[i..j];
      }
    } else {
      var calls := SlidingExceeds(limit, window, 0);
      assert Amount(SlidingMarks(NewSliding(limit, window, 0), calls)[0..3]) > limit;
    }
  }

  /**
   * Exactly when a call is admitted, in amounts of the history: within the current window the
   * previous one counts with its remaining share of a window; a call after the current window
   * takes that as the previous one, in full, unless it is another window old.
   */
  lemma {:induction false} SlidingAdmitsIff(limit: real, window: int, born: int, calls: seq<Call>, now: int, n: nat)
    requires window > 0 && limit >= 0.0 && IsRun(born, calls) && LastInstant(calls, born) <= now
    ensures var w0 := NewSliding(limit, window, born);
            var w, marks, prev := SlidingRun(w0, calls), SlidingMarks(w0, calls), PreviousStart(w0, calls);
            var elapsed, current := now - w.curStart, AmountOf(marks, w.curStart);
            var previous := if prev.Some? then AmountOf(marks, prev.value) else 0.0;
            SlidingAdmits(w, now, n) <==>
              n as real <= limit
                - (if elapsed < window then previous * ((window - elapsed) as real / window as real) + current
                   else if elapsed < 2 * window then current
                   else 0.0)
  {
    hide SlidingRun, SlidingMarks, PreviousStart, AmountOf, SlidingAdmits;
    RunKeepsConfig(NewSliding(limit, window, born), calls);
    SlidingCountsHistory(limit, window, born, calls);
    SlidingAdmitsByCounts(SlidingRun(NewSliding(limit, window, born), calls), now, n);
  }

  lemma {:induction false} SlidingAdmitsByCounts(w: Sliding, now: int, n: nat)
    requires w.window > 0
    ensures var elapsed := now - w.curStart;
            SlidingAdmits(w, now, n) <==>
              n as real <= w.limit
                - (if elapsed < w.window then w.prevCount * ((w.window - elapsed) as real / w.window as real) + w.curCount
                   else if elapsed < 2 * w.window then w.curCount
                   else 0.0)
  {
    assert w.window as real / w.window as real == 1.0;
  }

  /** Any interval shorter than a window admits at most twice the limit, whatever the weights. */
  lemma {:induction false} SlidingWindowBound(limit: real, window: int, born: int, calls: seq<Call>, i: nat, j: nat)
    requires window > 0 && limit >= 0.0 && InOrder(calls)
    requires calls != [] ==> born <= calls[0].now
    requires i < j <= |calls| && calls[j - 1].now - calls[i].now < window
    ensures Amount(SlidingMarks(NewSliding(limit, window, born), calls)[i..j]) <= limit + limit
  {
    SlidingGenerations(limit, window, born, calls);
    TwiceTheLimit(SlidingMarks(NewSliding(limit, window, born), calls), window, limit, i, j);
  }

  /**
   * The limit itself is not a cap over a rolling window: a generation starts at the call
   * that opens it, so a full generation followed by a fading one admits 18 where 10 is the
   * limit, all inside one window length.
   */
  lemma SlidingCanExceedLimit()
    ensures var calls := [Call(9, 10), Call(10, 0), Call(18, 8)];
            && calls[2].now - calls[0].now < 10
            && Amount(SlidingMarks(NewSliding(10.0, 10, 0), calls)) == 18.0
  {
    var w := NewSliding(10.0, 10, 0);
    var calls := [Call(9, 10), Call(10, 0), Call(18, 8)];
    assert calls[..2] == [calls[0], calls[1]] && calls[..2][..1] == [calls[0]] && calls[..2][..1][..0] == [];
    assert calls[..2][..1] == calls[..1] && calls[..1][..0] == [];
    var w1 := w.(curCount := 10.0);
    var w2 := Sliding(10.0, 10, 10, 0.0, 10.0);
    assert SlidingRun(w, []) == w && SlidingCounted(w, 9, 10) == w1;
    assert SlidingRun(w, calls[..1]) == w1 && SlidingCounted(w1, 10, 0) == w2;
    assert SlidingRun(w, calls[..2]) == w2;
    assert SlidingMark(w2, 18, 8) == Mark(18, 8.0, 10);
    var marks := SlidingMarks(w, calls);
    assert SlidingMarks(w, []) == [];
    assert SlidingMarks(w, calls[..1]) == [Mark(9, 10.0, 0)];
    assert SlidingMarks(w, calls[..2]) == SlidingMarks(w, calls[..1]) + [Mark(10, 0.0, 10)];
    assert marks == [Mark(9, 10.0, 0), Mark(10, 0.0, 10), Mark(18, 8.0, 10)];
    assert marks[..2][..1] == [marks[0]] && marks[..2][..1][..0] == [];
    assert Amount(marks[..2][..1]) == Amount([]) + 10.0;
    assert Amount(marks[..2]) == Amount(marks[..2][..1]) + 0.0;
    assert Amount(marks) == Amount(marks[..2]) + 8.0;
  }

  // ---- Without a window ---------------------------------------------------

  lemma {:induction false} StartsInThePast(limit: real, window: int, born: int, calls: seq<Call>)
    requires window <= 0 && IsRun(born, calls)
    ensures var f, w := FixedRun(NewFixed(limit, window, born), calls), SlidingRun(NewSliding(limit, window, born), calls);
            && f.curStart <= LastInstant(calls, born) && f.limit == limit && f.window == window
            && w.curStart <= LastInstant(calls, born) && w.limit == limit && w.window == window && w.prevCount == 0.0
  {
    if calls != [] {
      StartsInThePast(limit, window, born, calls[..|calls| - 1]);
    }
  }

  /**
   * A window that is not positive is accepted and remembers nothing: every call is judged
   * alone, and a sliding window of zero refuses nothing at all.
   */
  lemma {:induction false} WithoutWindow(limit: real, window: int, born: int, calls: seq<Call>, now: int, n: int)
    requires window <= 0 && IsRun(born, calls) && LastInstant(calls, born) <= now
    ensures FixedAdmits(FixedRun(NewFixed(limit, window, born), calls), now, n) <==> n as real <= limit
    ensures SlidingAdmits(SlidingRun(NewSliding(limit, window, born), calls), now, n) <==> window == 0 || n as real <= limit
  {
    StartsInThePast(limit, window, born, calls);
    hide FixedRun, SlidingRun;
  }
}
