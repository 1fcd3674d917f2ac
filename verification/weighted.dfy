// Smooth weighted round-robin (cloud/loadbalance/weighted.go).
//
// The balancer is a class over its score map; Pick is proved against the step
// functions Accrued, Winner and Advanced. Fairness is then a theorem about the
// iterated step: over any TotalWeight consecutive picks of a balancer that started
// empty, each endpoint wins exactly its weight.
module SmoothWeighted {
  import opened Discovery
  import opened Sums

  type Scores = map<string, int>

  function EffectiveWeight(ep: Endpoint): (w: int)
    ensures w >= 1
    ensures ep.weight >= 1 ==> w == ep.weight
    ensures ep.weight <= 0 ==> w == 1
  {
    if ep.weight <= 0 then 1 else ep.weight
  }

  function TotalWeight(eps: seq<Endpoint>): (total: int)
    ensures total >= |eps|
  {
    if eps == [] then 0
    else TotalWeight(eps[..|eps| - 1]) + EffectiveWeight(eps[|eps| - 1])
  }

  /** A missing address reads as score 0, as a Go map does. */
  function Score(m: Scores, addr: string): int {
    if addr in m then m[addr] else 0
  }

  /** The scores after every endpoint of eps, in order, has earned its weight. */
  function Accrued(m: Scores, eps: seq<Endpoint>): Scores {
    if eps == [] then m
    else
      var last := eps[|eps| - 1];
      var before := Accrued(m, eps[..|eps| - 1]);
      before[last.addr := Score(before, last.addr) + EffectiveWeight(last)]
  }

  /** The score endpoint i competes with: its address's score just after i earned. */
  function Bid(m: Scores, eps: seq<Endpoint>, i: nat): int
    requires i < |eps|
  {
    Score(Accrued(m, eps[..i + 1]), eps[i].addr)
  }

  /** k is the first endpoint of eps with the highest bid. */
  ghost predicate IsWinner(m: Scores, eps: seq<Endpoint>, k: nat) {
    && k < |eps|
    && (forall j :: 0 <= j < k ==> Bid(m, eps, j) < Bid(m, eps, k))
    && (forall j :: k <= j < |eps| ==> Bid(m, eps, j) <= Bid(m, eps, k))
  }

  function Winner(m: Scores, eps: seq<Endpoint>): (k: nat)
    requires eps != []
    ensures IsWinner(m, eps, k)
  {
    WinnerUpTo(m, eps, |eps|)
  }

  function WinnerUpTo(m: Scores, eps: seq<Endpoint>, n: nat): (k: nat)
    requires 0 < n <= |eps|
    ensures k < n
    ensures forall j :: 0 <= j < k ==> Bid(m, eps, j) < Bid(m, eps, k)
    ensures forall j :: k <= j < n ==> Bid(m, eps, j) <= Bid(m, eps, k)
  {
    if n == 1 then 0
    else
      var k := WinnerUpTo(m, eps, n - 1);
      if Bid(m, eps, n - 1) > Bid(m, eps, k) then n - 1 else k
  }

  /** The score map after one pick: everyone earned, the winner paid the round's total, the rest is dropped. */
  function Advanced(m: Scores, eps: seq<Endpoint>): (m': Scores)
    requires eps != []
    ensures m'.Keys == Addrs(eps)
  {
    var k := Winner(m, eps);
    var kept := map a | a in Accrued(m, eps) && a in Addrs(eps) :: Accrued(m, eps)[a];
    AccruedKeys(m, eps);
    kept[eps[k].addr := Bid(m, eps, k) - TotalWeight(eps)]
  }

  lemma AccruedKeys(m: Scores, eps: seq<Endpoint>)
    ensures Accrued(m, eps).Keys == m.Keys + Addrs(eps)
  {
    if eps != [] {
      AccruedKeys(m, eps[..|eps| - 1]);
      assert Addrs(eps) == Addrs(eps[..|eps| - 1]) + {eps[|eps| - 1].addr};
    }
  }

  /** Where the accruing loop stands before endpoint i. */
  ghost predicate Scanned(m: Scores, eps: seq<Endpoint>, i: nat,
                          current: Scores, total: int, seen: set<string>, best: int, bestCur: int)
  {
    && i <= |eps|
    && current == Accrued(m, eps[..i])
    && total == TotalWeight(eps[..i])
    && seen == Addrs(eps[..i])
    && (if i == 0 then best == -1
        else 0 <= best < i && best == WinnerUpTo(m, eps, i) && bestCur == Bid(m, eps, best))
  }

  lemma ScanStep(m: Scores, eps: seq<Endpoint>, i: nat,
                 current: Scores, total: int, seen: set<string>, best: int, bestCur: int)
    requires i < |eps| && Scanned(m, eps, i, current, total, seen, best, bestCur)
    ensures
      var cur := Score(current, eps[i].addr) + EffectiveWeight(eps[i]);
      var wins := best < 0 || cur > bestCur;
      Scanned(m, eps, i + 1, current[eps[i].addr := cur], total + EffectiveWeight(eps[i]),
              seen + {eps[i].addr}, if wins then i else best, if wins then cur else bestCur)
  {
    hide EffectiveWeight, Addrs, Accrued, TotalWeight, Bid, Score;
    AddrsGrow(eps, i);
    OneMoreAccrues(m, eps, i);
  }

  /** What endpoint i adds to the scores, to the total and to the bids. */
  lemma OneMoreAccrues(m: Scores, eps: seq<Endpoint>, i: nat)
    requires i < |eps|
    ensures var before := Accrued(m, eps[..i]);
            var cur := Score(before, eps[i].addr) + EffectiveWeight(eps[i]);
            && Accrued(m, eps[..i + 1]) == before[eps[i].addr := cur]
            && TotalWeight(eps[..i + 1]) == TotalWeight(eps[..i]) + EffectiveWeight(eps[i])
            && Bid(m, eps, i) == cur
  {
    hide EffectiveWeight;
    assert eps[..i + 1][..i] == eps[..i];
    assert eps[..i + 1][i] == eps[i];
  }

  lemma AddrsGrow(eps: seq<Endpoint>, i: nat)
    requires i < |eps|
    ensures Addrs(eps[..i + 1]) == Addrs(eps[..i]) + {eps[i].addr}
  {
  }

  lemma ScanEnd(m: Scores, eps: seq<Endpoint>,
                current: Scores, total: int, seen: set<string>, best: int, bestCur: int)
    requires eps != [] && Scanned(m, eps, |eps|, current, total, seen, best, bestCur)
    ensures 0 <= best < |eps| && best == Winner(m, eps)
    ensures (map a | a in current && a in seen :: current[a])[eps[best].addr := bestCur - total] == Advanced(m, eps)
  {
    assert eps[..|eps|] == eps;
  }

  class Weighted {
    var current: Scores

    constructor ()
      ensures current == map[]
    {
      current := map[];
    }

    method Pick(eps: seq<Endpoint>) returns (r: PickResult)
      modifies this
      ensures eps == [] ==> r == NoAvailable && current == old(current)
      ensures eps != [] ==> r == Picked(eps[Winner(old(current), eps)])
      ensures eps != [] ==> current == Advanced(old(current), eps)
    {
      if |eps| == 0 {
        return NoAvailable;
      }
      ghost var m := current;
      var total, best, bestCur := 0, -1, 0;
      var seen: set<string> := {};
      for i := 0 to |eps|
        invariant Scanned(m, eps, i, current, total, seen, best, bestCur)
      {
        ScanStep(m, eps, i, current, total, seen, best, bestCur);
        var ep := eps[i];
        var w := EffectiveWeight(ep);
        total := total + w;
        var cur := Score(current, ep.addr) + w;
        current := current[ep.addr := cur];
        seen := seen + {ep.addr};
        if best < 0 || cur > bestCur {
          best, bestCur := i, cur;
        }
      }
      ScanEnd(m, eps, current, total, seen, best, bestCur);
      current := map a | a in current && a in seen :: current[a];
      current := current[eps[best].addr := bestCur - total];
      r := Picked(eps[best]);
    }
  }

  // ---- Fairness -----------------------------------------------------------

  /** The score map after n picks over eps, starting from an empty balancer. */
  function After(eps: seq<Endpoint>, n: nat): Scores
    requires eps != []
  {
    if n == 0 then map[] else Advanced(After(eps, n - 1), eps)
  }

  /** The index of the endpoint that pick number n (from 0) chooses. */
  function Chosen(eps: seq<Endpoint>, n: nat): (k: nat)
    requires eps != []
    ensures k < |eps|
  {
    Winner(After(eps, n), eps)
  }

  /** How many of the first n picks chose endpoint i. */
  function Wins(eps: seq<Endpoint>, n: nat, i: nat): nat
    requires eps != []
  {
    if n == 0 then 0
    else Wins(eps, n - 1, i) + (if Chosen(eps, n - 1) == i then 1 else 0)
  }

  function ScoreList(m: Scores, eps: seq<Endpoint>): seq<int> {
    seq(|eps|, i requires 0 <= i < |eps| => Score(m, eps[i].addr))
  }

  function WeightList(eps: seq<Endpoint>): seq<int> {
    seq(|eps|, i requires 0 <= i < |eps| => EffectiveWeight(eps[i]))
  }

  function WinList(eps: seq<Endpoint>, n: nat): seq<int>
    requires eps != []
  {
    seq(|eps|, i requires 0 <= i < |eps| => Wins(eps, n, i))
  }

  lemma {:induction false} WeightSum(eps: seq<Endpoint>)
    ensures Sum(WeightList(eps)) == TotalWeight(eps)
  {
    if eps != [] {
      WeightSum(eps[..|eps| - 1]);
      assert WeightList(eps)[..|eps| - 1] == WeightList(eps[..|eps| - 1]);
    }
  }

  lemma {:induction false} AccruedScore(m: Scores, eps: seq<Endpoint>, n: nat, i: nat)
    requires DistinctAddrs(eps) && n <= |eps| && i < |eps|
    ensures Score(Accrued(m, eps[..n]), eps[i].addr)
         == Score(m, eps[i].addr) + (if i < n then EffectiveWeight(eps[i]) else 0)
  {
    if n > 0 {
      assert eps[..n][..n - 1] == eps[..n - 1];
      AccruedScore(m, eps, n - 1, i);
      AccruedScore(m, eps, n - 1, n - 1);
    }
  }

  /** One pick over distinct addresses: everyone earns its weight and the winner pays the total. */
  lemma AdvancedScore(m: Scores, eps: seq<Endpoint>, i: nat)
    requires eps != [] && DistinctAddrs(eps) && i < |eps|
    ensures Bid(m, eps, i) == Score(m, eps[i].addr) + EffectiveWeight(eps[i])
    ensures Score(Advanced(m, eps), eps[i].addr)
         == Score(m, eps[i].addr) + EffectiveWeight(eps[i])
            - (if i == Winner(m, eps) then TotalWeight(eps) else 0)
  {
    hide EffectiveWeight, Accrued, TotalWeight;
    AccruedScore(m, eps, i + 1, i);
    AccruedScore(m, eps, |eps|, i);
    assert eps[..|eps|] == eps;
    PaidScore(m, eps, i);
  }

  /** What a pick leaves an endpoint with: what it had after earning, and the winner its bid less the total. */
  lemma PaidScore(m: Scores, eps: seq<Endpoint>, i: nat)
    requires eps != [] && DistinctAddrs(eps) && i < |eps|
    ensures var k := Winner(m, eps);
            Score(Advanced(m, eps), eps[i].addr)
              == if i == k then Bid(m, eps, k) - TotalWeight(eps) else Score(Accrued(m, eps), eps[i].addr)
  {
    hide Accrued, TotalWeight, Bid;
    AccruedKeys(m, eps);
    assert eps[i].addr in Addrs(eps);
  }

  /** A pick conserves the sum of the scores: the winner pays exactly what the round handed out. */
  lemma AdvanceKeepsSum(m: Scores, eps: seq<Endpoint>)
    requires eps != [] && DistinctAddrs(eps)
    ensures Sum(ScoreList(Advanced(m, eps), eps)) == Sum(ScoreList(m, eps))
  {
    var s, s' := ScoreList(m, eps), ScoreList(Advanced(m, eps), eps);
    var k, total := Winner(m, eps), TotalWeight(eps);
    forall i | 0 <= i < |eps|
      ensures s'[i] == s[i] + WeightList(eps)[i] - (if i == k then total else 0)
    {
      AdvancedScore(m, eps, i);
    }
    SumShift(s, WeightList(eps), k, total, s');
    WeightSum(eps);
  }

  lemma {:induction false} ScoresSumToZero(eps: seq<Endpoint>, n: nat)
    requires eps != [] && DistinctAddrs(eps)
    ensures Sum(ScoreList(After(eps, n), eps)) == 0
  {
    hide Advanced, Winner, TotalWeight;
    if n == 0 {
      SumNonPositive(ScoreList(map[], eps));
      SumTight(seq(|eps|, _ => 0), ScoreList(map[], eps));
      SumZeros(|eps|);
    } else {
      ScoresSumToZero(eps, n - 1);
      AdvanceKeepsSum(After(eps, n - 1), eps);
    }
  }

  /** The highest bid of a round is positive when the scores sum to zero, because the bids then sum to the total weight. */
  lemma WinningBidPositive(m: Scores, eps: seq<Endpoint>)
    requires eps != [] && DistinctAddrs(eps)
    requires Sum(ScoreList(m, eps)) == 0
    ensures Bid(m, eps, Winner(m, eps)) > 0
  {
    var bids := seq(|eps|, i requires 0 <= i < |eps| => Bid(m, eps, i));
    forall i | 0 <= i < |eps|
      ensures bids[i] == ScoreList(m, eps)[i] + WeightList(eps)[i]
    {
      AdvancedScore(m, eps, i);
    }
    SumShift(ScoreList(m, eps), WeightList(eps), |eps|, 0, bids);
    WeightSum(eps);
    if Bid(m, eps, Winner(m, eps)) <= 0 {
      SumNonPositive(bids);
    }
  }

  /** The share earned in n rounds at weight w, less the price of the wins. */
  function Balance(n: int, w: int, wins: int, total: int): int {
    n * w - wins * total
  }

  lemma BalanceStep(n: int, w: int, wins: int, total: int)
    ensures Balance(n + 1, w, wins, total) == Balance(n, w, wins, total) + w
    ensures Balance(n + 1, w, wins + 1, total) == Balance(n, w, wins, total) + w - total
  {
  }

  /** The score of endpoint i after n picks is its fair share n*w less what its wins cost. */
  lemma {:induction false} ScoreIsBalance(eps: seq<Endpoint>, n: nat, i: nat)
    requires eps != [] && DistinctAddrs(eps) && i < |eps|
    ensures Score(After(eps, n), eps[i].addr)
         == Balance(n, EffectiveWeight(eps[i]), Wins(eps, n, i), TotalWeight(eps))
  {
    hide Score, Advanced, Winner, EffectiveWeight, TotalWeight;
    if n > 0 {
      hide Balance;
      var m := After(eps, n - 1);
      ScoreIsBalance(eps, n - 1, i);
      AdvancedScore(m, eps, i);
      BalanceStep(n - 1, EffectiveWeight(eps[i]), Wins(eps, n - 1, i), TotalWeight(eps));
    } else {
      EmptyScore(eps[i].addr);
    }
  }

  lemma EmptyScore(a: string)
    ensures Score(map[], a) == 0
  {
  }

  /** No score ever falls to minus the total weight or below. */
  lemma {:induction false} ScoreBounded(eps: seq<Endpoint>, n: nat, i: nat)
    requires eps != [] && DistinctAddrs(eps) && i < |eps|
    ensures Score(After(eps, n), eps[i].addr) > -TotalWeight(eps)
  {
    hide Score, Advanced, Winner, EffectiveWeight, TotalWeight;
    if n > 0 {
      var m := After(eps, n - 1);
      ScoreBounded(eps, n - 1, i);
      AdvancedScore(m, eps, i);
      ScoresSumToZero(eps, n - 1);
      WinningBidPositive(m, eps);
    } else {
      EmptyScore(eps[i].addr);
    }
  }

  lemma {:induction false} WinsSum(eps: seq<Endpoint>, n: nat)
    requires eps != []
    ensures Sum(WinList(eps, n)) == n
  {
    var now := WinList(eps, n);
    var zero := seq(|eps|, _ => 0);
    if n == 0 {
      SumShift(now, now, |eps|, 0, now);
    } else {
      WinsSum(eps, n - 1);
      SumShift(zero, zero, |eps|, 0, zero);
      SumShift(WinList(eps, n - 1), zero, Chosen(eps, n - 1), -1, now);
    }
  }

  lemma NonNegativeProduct(a: int, b: int)
    ensures a >= 0 && b >= 0 ==> a * b >= 0
  {
  }

  /** total * w - wins * total > -total leaves no room for wins > w. */
  lemma NoOverdraft(w: int, wins: int, total: int)
    requires total > 0 && total * w - wins * total > -total
    ensures wins <= w
  {
    var excess := wins - w - 1;
    assert wins * total == w * total + total + excess * total;
    NonNegativeProduct(excess, total);
  }

  lemma CycleBound(eps: seq<Endpoint>, j: nat)
    requires eps != [] && DistinctAddrs(eps) && j < |eps|
    ensures Wins(eps, TotalWeight(eps), j) <= EffectiveWeight(eps[j])
  {
    hide Wins, After, Score, EffectiveWeight, TotalWeight;
    ScoreIsBalance(eps, TotalWeight(eps), j);
    ScoreBounded(eps, TotalWeight(eps), j);
    NoOverdraft(EffectiveWeight(eps[j]), Wins(eps, TotalWeight(eps), j), TotalWeight(eps));
  }

  /**
   * Fairness over one cycle: TotalWeight picks from an empty balancer choose endpoint i
   * exactly EffectiveWeight(eps[i]) times and bring every score back to zero.
   */
  lemma FullCycle(eps: seq<Endpoint>, i: nat)
    requires eps != [] && DistinctAddrs(eps) && i < |eps|
    ensures Wins(eps, TotalWeight(eps), i) == EffectiveWeight(eps[i])
    ensures Score(After(eps, TotalWeight(eps)), eps[i].addr) == 0
  {
    hide Wins, After, Score, EffectiveWeight, TotalWeight;
    var total := TotalWeight(eps);
    var wins, weights := WinList(eps, total), WeightList(eps);
    forall j | 0 <= j < |eps|
      ensures wins[j] <= weights[j]
    {
      CycleBound(eps, j);
    }
    WinsSum(eps, total);
    WeightSum(eps);
    SumTight(wins, weights);
    assert wins[i] == weights[i];
    ScoreIsBalance(eps, total, i);
  }

  /** Score maps that agree on the addresses of eps pick alike and advance to the same map. */
  lemma {:induction false} AccruedAlike(m: Scores, m': Scores, eps: seq<Endpoint>, n: nat, a: string)
    requires n <= |eps| && a in Addrs(eps)
    requires forall b :: b in Addrs(eps) ==> Score(m, b) == Score(m', b)
    ensures Score(Accrued(m, eps[..n]), a) == Score(Accrued(m', eps[..n]), a)
  {
    if n > 0 {
      assert eps[..n][..n - 1] == eps[..n - 1];
      AccruedAlike(m, m', eps, n - 1, a);
      AccruedAlike(m, m', eps, n - 1, eps[n - 1].addr);
    }
  }

  lemma WinnerAlike(m: Scores, m': Scores, eps: seq<Endpoint>)
    requires eps != []
    requires forall b :: b in Addrs(eps) ==> Score(m, b) == Score(m', b)
    ensures Winner(m, eps) == Winner(m', eps)
    ensures Bid(m, eps, Winner(m, eps)) == Bid(m', eps, Winner(m, eps))
  {
    forall i | 0 <= i < |eps|
      ensures Bid(m, eps, i) == Bid(m', eps, i)
    {
      AccruedAlike(m, m', eps, i + 1, eps[i].addr);
    }
    assert IsWinner(m, eps, Winner(m, eps)) && IsWinner(m', eps, Winner(m', eps));
  }

  lemma KeptAlike(m: Scores, m': Scores, eps: seq<Endpoint>)
    requires eps != []
    requires forall b :: b in Addrs(eps) ==> Score(m, b) == Score(m', b)
    ensures (map a | a in Accrued(m, eps) && a in Addrs(eps) :: Accrued(m, eps)[a])
         == (map a | a in Accrued(m', eps) && a in Addrs(eps) :: Accrued(m', eps)[a])
  {
    AccruedKeys(m, eps);
    AccruedKeys(m', eps);
    assert eps[..|eps|] == eps;
    forall a | a in Addrs(eps)
      ensures Accrued(m, eps)[a] == Accrued(m', eps)[a]
    {
      AccruedAlike(m, m', eps, |eps|, a);
    }
  }

  lemma AdvancedAlike(m: Scores, m': Scores, eps: seq<Endpoint>)
    requires eps != []
    requires forall b :: b in Addrs(eps) ==> Score(m, b) == Score(m', b)
    ensures Winner(m, eps) == Winner(m', eps)
    ensures Advanced(m, eps) == Advanced(m', eps)
  {
    WinnerAlike(m, m', eps);
    KeptAlike(m, m', eps);
  }

  lemma CycleResets(eps: seq<Endpoint>, a: string)
    requires eps != [] && DistinctAddrs(eps) && a in Addrs(eps)
    ensures Score(After(eps, TotalWeight(eps)), a) == 0
  {
    var i: nat :| i < |eps| && eps[i].addr == a;
    FullCycle(eps, i);
  }

  lemma EmptyScores(eps: seq<Endpoint>)
    ensures forall a :: a in Addrs(eps) ==> Score(map[], a) == 0
  {
  }

  /** The pick sequence repeats with period TotalWeight, and so do the scores. */
  lemma {:induction false} Periodic(eps: seq<Endpoint>, n: nat)
    requires eps != [] && DistinctAddrs(eps)
    ensures Chosen(eps, n + TotalWeight(eps)) == Chosen(eps, n)
    ensures forall a :: a in Addrs(eps) ==>
              Score(After(eps, n + TotalWeight(eps)), a) == Score(After(eps, n), a)
  {
    hide Advanced, Winner, Score, TotalWeight;
    var total := TotalWeight(eps);
    if n == 0 {
      EmptyScores(eps);
      forall a | a in Addrs(eps)
        ensures Score(After(eps, total), a) == 0
      {
        CycleResets(eps, a);
      }
      WinnerAlike(After(eps, total), After(eps, 0), eps);
    } else {
      Periodic(eps, n - 1);
      AdvancedAlike(After(eps, n - 1 + total), After(eps, n - 1), eps);
      assert After(eps, n + total) == After(eps, n);
    }
  }

  lemma WindowSlides(eps: seq<Endpoint>, start: nat, i: nat)
    requires eps != [] && DistinctAddrs(eps) && i < |eps|
    ensures Wins(eps, start + 1 + TotalWeight(eps), i) - Wins(eps, start + 1, i)
         == Wins(eps, start + TotalWeight(eps), i) - Wins(eps, start, i)
  {
    hide Chosen, TotalWeight;
    Periodic(eps, start);
  }

  lemma NoWinsYet(eps: seq<Endpoint>, i: nat)
    requires eps != []
    ensures Wins(eps, 0, i) == 0
  {
  }

  /** Fairness over every window: any TotalWeight consecutive picks choose endpoint i exactly its weight. */
  lemma {:induction false} EveryWindowIsFair(eps: seq<Endpoint>, start: nat, i: nat)
    requires eps != [] && DistinctAddrs(eps) && i < |eps|
    ensures Wins(eps, start + TotalWeight(eps), i) - Wins(eps, start, i) == EffectiveWeight(eps[i])
  {
    hide Wins, TotalWeight, EffectiveWeight;
    if start == 0 {
      NoWinsYet(eps, i);
      FullCycle(eps, i);
    } else {
      EveryWindowIsFair(eps, start - 1, i);
      WindowSlides(eps, start - 1, i);
    }
  }

  /**
   * Interleaving: after any number of picks an endpoint is less than one win ahead of its
   * exact share n*w/total, so a heavy endpoint never runs a burst beyond its rate.
   */
  lemma NeverAWholeWinAhead(eps: seq<Endpoint>, n: nat, i: nat)
    requires eps != [] && DistinctAddrs(eps) && i < |eps|
    ensures (Wins(eps, n, i) - 1) * TotalWeight(eps) < n * EffectiveWeight(eps[i])
  {
    hide Score, After, Wins, TotalWeight, EffectiveWeight;
    ScoreIsBalance(eps, n, i);
    ScoreBounded(eps, n, i);
  }

  /** The other side: it is never further behind its share than the others together can be ahead. */
  lemma NeverFarBehind(eps: seq<Endpoint>, n: nat, i: nat)
    requires eps != [] && DistinctAddrs(eps) && i < |eps|
    ensures n * EffectiveWeight(eps[i]) - Wins(eps, n, i) * TotalWeight(eps) <= (|eps| - 1) * (TotalWeight(eps) - 1)
  {
    hide Score, After, Wins, TotalWeight, EffectiveWeight;
    ScoreIsBalance(eps, n, i);
    ScoresSumToZero(eps, n);
    var scores, bound := ScoreList(After(eps, n), eps), TotalWeight(eps) - 1;
    forall k | 0 <= k < |eps|
      ensures scores[k] >= -bound
    {
      ScoreBounded(eps, n, k);
    }
    SumLeaves(scores, i, bound);
  }
}
