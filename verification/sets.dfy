// Cardinalities of sets that differ in one element or are nested.
module Sets {
  lemma OneChanges<T(!new)>(s: set<T>, s': set<T>, x: T)
    requires forall y :: y != x ==> (y in s <==> y in s')
    ensures |s'| == |s| + (if x in s' then 1 else 0) - (if x in s then 1 else 0)
  {
    assert s' - {x} == s - {x};
    assert |s'| == |s' - {x}| + (if x in s' then 1 else 0);
    assert |s| == |s - {x}| + (if x in s then 1 else 0);
  }

  lemma SubsetSize<T>(s: set<T>, t: set<T>)
    requires s <= t
    ensures |s| <= |t|
  {
    assert t == s + (t - s);
  }
}
