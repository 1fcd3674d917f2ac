// Finite sums of integers, shared by the counting arguments.
module Sums {

  function Sum(s: seq<int>): int {
    if s == [] then 0 else Sum(s[..|s| - 1]) + s[|s| - 1]
  }

  lemma {:induction false} SumNonPositive(s: seq<int>)
    requires forall i :: 0 <= i < |s| ==> s[i] <= 0
    ensures Sum(s) <= 0
  {
    if s != [] {
      SumNonPositive(s[..|s| - 1]);
    }
  }

  /** A sequence bounded pointwise by another with the same sum is that other. */
  lemma {:induction false} SumTight(s: seq<int>, t: seq<int>)
    requires |s| == |t|
    requires forall i :: 0 <= i < |s| ==> s[i] <= t[i]
    ensures Sum(s) <= Sum(t)
    ensures Sum(s) == Sum(t) ==> s == t
  {
    if s != [] {
      var n := |s| - 1;
      SumTight(s[..n], t[..n]);
      assert s == s[..n] + [s[n]] && t == t[..n] + [t[n]];
    }
  }

  /** Adding w pointwise and taking back d at index k. */
  lemma {:induction false} SumShift(s: seq<int>, w: seq<int>, k: nat, d: int, t: seq<int>)
    requires |s| == |w| == |t|
    requires forall i :: 0 <= i < |s| ==> t[i] == s[i] + w[i] - (if i == k then d else 0)
    ensures Sum(t) == Sum(s) + Sum(w) - (if k < |s| then d else 0)
  {
    if s != [] {
      var n := |s| - 1;
      SumShift(s[..n], w[..n], k, d, t[..n]);
    }
  }

  lemma {:induction false} SumZeros(n: nat)
    ensures Sum(seq(n, _ => 0)) == 0
  {
    if n > 0 {
      SumZeros(n - 1);
      assert seq(n, _ => 0)[..n - 1] == seq(n - 1, _ => 0);
    }
  }

  /** An element is at most the sum plus what the others can be below zero together. */
  lemma {:induction false} SumLeaves(s: seq<int>, i: nat, bound: int)
    requires i < |s| && forall k :: 0 <= k < |s| ==> s[k] >= -bound
    ensures s[i] <= Sum(s) + (|s| - 1) * bound
  {
    var n := |s| - 1;
    if i < n {
      SumLeaves(s[..n], i, bound);
      assert (n - 1) * bound + bound == n * bound;
    } else {
      SumAtLeast(s[..n], bound);
    }
  }

  lemma {:induction false} SumAtLeast(s: seq<int>, bound: int)
    requires forall k :: 0 <= k < |s| ==> s[k] >= -bound
    ensures Sum(s) >= -(|s| * bound)
  {
    if s != [] {
      SumAtLeast(s[..|s| - 1], bound);
      assert (|s| - 1) * bound + bound == |s| * bound;
    }
  }
}
