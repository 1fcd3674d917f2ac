// Consistent hashing over a cached ring (cloud/loadbalance/consistenthash.go).
//
// The hash stays uninterpreted: every lemma holds for any function. Placement is
// defined without a ring, as the owner of the first point at or after the key's hash;
// the class's sorted ring, owner map and binary search are proved to compute it.
module ConsistentHash {
  import opened Discovery
  import opened Options

  const DEFAULT_REPLICAS := 100

  type Hash = string -> nat

  function Digit(d: nat): char
    requires d < 10
  {
    "0123456789"[d]
  }

  function Itoa(n: nat): string {
    if n < 10 then [Digit(n)] else Itoa(n / 10) + [Digit(n % 10)]
  }

  /** The i-th virtual node of an address. */
  function PointOf(hash: Hash, addr: string, i: nat): nat {
    hash(addr + "#" + Itoa(i))
  }

  function PointsOf(hash: Hash, addr: string, replicas: nat): seq<nat> {
    seq(replicas, i requires i >= 0 => PointOf(hash, addr, i))
  }

  /** The number a string of decimal digits stands for. */
  function Decimal(s: string): int {
    if s == "" then 0 else 10 * Decimal(s[..|s| - 1]) + (s[|s| - 1] as int - '0' as int)
  }

  lemma {:induction false} ItoaIsDecimal(n: nat)
    ensures Decimal(Itoa(n)) == n && Itoa(n) != "" && '#' !in Itoa(n)
    ensures |Itoa(n)| > 1 ==> Itoa(n)[0] != '0'
  {
    DigitIsDecimal(n % 10);
    if n < 10 {
      assert [Digit(n)][..0] == "";
    } else {
      ItoaIsDecimal(n / 10);
      assert Itoa(n)[..|Itoa(n)| - 1] == Itoa(n / 10);
      assert Itoa(n)[0] == Itoa(n / 10)[0];
      if n < 100 {
        DigitIsDecimal(n / 10);
      }
    }
  }

  lemma DigitIsDecimal(d: nat)
    requires d < 10
    ensures Digit(d) as int - '0' as int == d && Digit(d) != '#' && (d > 0 ==> Digit(d) != '0')
  {
  }

  /** The virtual nodes of an address are the hashes of the address, a '#' and the replica's number. */
  lemma PointsAreReplicaHashes(hash: Hash, addr: string, replicas: nat)
    ensures |PointsOf(hash, addr, replicas)| == replicas
    ensures forall i: nat :: i < replicas ==> PointsOf(hash, addr, replicas)[i] == hash(addr + "#" + Itoa(i))
  {
  }

  /** Those strings differ for any two addresses and numbers, even if an address holds a '#'. */
  lemma ReplicaStringsDiffer(a: string, i: nat, b: string, j: nat)
    requires a + "#" + Itoa(i) == b + "#" + Itoa(j)
    ensures a == b && i == j
  {
    ItoaIsDecimal(i);
    ItoaIsDecimal(j);
    LastHashSplits(a, Itoa(i), b, Itoa(j));
  }

  lemma LastHashSplits(a: string, x: string, b: string, y: string)
    requires a + "#" + x == b + "#" + y && '#' !in x && '#' !in y
    ensures a == b && x == y
  {
    var s, t := a + "#" + x, b + "#" + y;
    assert s[|a|] == '#' && forall k :: |a| < k < |s| ==> s[k] == x[k - |a| - 1] != '#';
    assert t[|b|] == '#' && forall k :: |b| < k < |t| ==> t[k] == y[k - |b| - 1] != '#';
    assert |a| == |b|;
    assert s[..|a|] == a && t[..|b|] == b && s[|a| + 1..] == x && t[|b| + 1..] == y;
  }

  /** The virtual nodes of every endpoint, in the order the build appends them. */
  function AllPoints(hash: Hash, eps: seq<Endpoint>, replicas: nat): seq<nat> {
    if eps == [] then []
    else AllPoints(hash, eps[..|eps| - 1], replicas) + PointsOf(hash, eps[|eps| - 1].addr, replicas)
  }

  /** The endpoint that owns point p: the last one in eps with a virtual node there. */
  function OwnerOf(hash: Hash, eps: seq<Endpoint>, replicas: nat, p: nat): (owner: Endpoint)
    requires p in AllPoints(hash, eps, replicas)
    ensures owner in eps && p in PointsOf(hash, owner.addr, replicas)
  {
    var last := eps[|eps| - 1];
    if p in PointsOf(hash, last.addr, replicas) then last
    else OwnerOf(hash, eps[..|eps| - 1], replicas, p)
  }

  /** Of the endpoints with a virtual node at p, the one listed last owns it. */
  lemma {:induction false} LastOneOwns(hash: Hash, eps: seq<Endpoint>, replicas: nat, p: nat) returns (k: nat)
    requires p in AllPoints(hash, eps, replicas)
    ensures k < |eps| && OwnerOf(hash, eps, replicas, p) == eps[k] && p in PointsOf(hash, eps[k].addr, replicas)
    ensures forall j :: k < j < |eps| ==> p !in PointsOf(hash, eps[j].addr, replicas)
  {
    var n := |eps| - 1;
    if p in PointsOf(hash, eps[n].addr, replicas) {
      k := n;
    } else {
      k := LastOneOwns(hash, eps[..n], replicas, p);
    }
  }

  /** p is the first of points at or after h, wrapping around to the smallest when there is none. */
  ghost predicate IsFirst(points: seq<nat>, h: nat, p: nat) {
    && p in points
    && (p >= h ==> forall q :: q in points && q >= h ==> p <= q)
    && (p < h ==> forall q :: q in points ==> q < h && p <= q)
  }

  lemma FirstIsUnique(points: seq<nat>, h: nat, p: nat, p': nat)
    requires IsFirst(points, h, p) && IsFirst(points, h, p')
    ensures p == p'
  {
  }

  function MinAtLeast(points: seq<nat>, h: nat): (best: Option<nat>)
    ensures best.None? ==> forall q :: q in points ==> q < h
    ensures best.Some? ==> best.value in points && best.value >= h
    ensures best.Some? ==> forall q :: q in points && q >= h ==> best.value <= q
  {
    if points == [] then None
    else
      var p := points[0];
      assert points == [p] + points[1..];
      var rest := MinAtLeast(points[1..], h);
      if p >= h && (rest.None? || p <= rest.value) then Some(p) else rest
  }

  /** The first point at or after h, wrapping around. */
  function First(points: seq<nat>, h: nat): (p: nat)
    requires points != []
    ensures IsFirst(points, h, p)
  {
    match MinAtLeast(points, h)
    case Some(p) => p
    case None =>
      assert points[0] >= 0;
      MinAtLeast(points, 0).value
  }

  lemma {:induction false} SomePoint(hash: Hash, eps: seq<Endpoint>, replicas: nat)
    requires eps != [] && replicas > 0
    ensures AllPoints(hash, eps, replicas) != []
  {
    assert PointsOf(hash, eps[|eps| - 1].addr, replicas) != [];
  }

  /** Where a key with hash h is served: the owner of the first point at or after h. */
  function Place(hash: Hash, eps: seq<Endpoint>, replicas: nat, h: nat): (ep: Endpoint)
    requires eps != [] && replicas > 0
    ensures ep in eps
  {
    SomePoint(hash, eps, replicas);
    OwnerOf(hash, eps, replicas, First(AllPoints(hash, eps, replicas), h))
  }

  // ---- Minimal movement ---------------------------------------------------

  lemma {:induction false} PointsOfConcat(hash: Hash, a: seq<Endpoint>, b: seq<Endpoint>, replicas: nat)
    ensures AllPoints(hash, a + b, replicas) == AllPoints(hash, a, replicas) + AllPoints(hash, b, replicas)
  {
    hide PointsOf;
    if b == [] {
      assert a + b == a;
    } else {
      var n := |b| - 1;
      PointsOfConcat(hash, a, b[..n], replicas);
      assert (a + b)[..|a + b| - 1] == a + b[..n];
    }
  }

  lemma {:induction false} OwnerInConcat(hash: Hash, a: seq<Endpoint>, b: seq<Endpoint>, replicas: nat, p: nat)
    requires p in AllPoints(hash, a + b, replicas)
    ensures p in AllPoints(hash, b, replicas) ==>
              OwnerOf(hash, a + b, replicas, p) == OwnerOf(hash, b, replicas, p)
    ensures p !in AllPoints(hash, b, replicas) ==>
              p in AllPoints(hash, a, replicas) && OwnerOf(hash, a + b, replicas, p) == OwnerOf(hash, a, replicas, p)
  {
    PointsOfConcat(hash, a, b, replicas);
    if b == [] {
      assert a + b == a;
    } else {
      var n := |b| - 1;
      assert (a + b)[..|a + b| - 1] == a + b[..n];
      if p !in PointsOf(hash, b[n].addr, replicas) {
        OwnerInConcat(hash, a, b[..n], replicas, p);
      }
    }
  }

  /** Adding e to the middle keeps the owner of every old point, unless e took the point over. */
  lemma OwnerAfterInsert(hash: Hash, a: seq<Endpoint>, e: Endpoint, b: seq<Endpoint>, replicas: nat, p: nat)
    requires p in AllPoints(hash, a + [e] + b, replicas)
    ensures OwnerOf(hash, a + [e] + b, replicas, p) == e
         || (p in AllPoints(hash, a + b, replicas)
             && OwnerOf(hash, a + [e] + b, replicas, p) == OwnerOf(hash, a + b, replicas, p))
  {
    hide OwnerOf, AllPoints;
    PointsOfConcat(hash, a, b, replicas);
    OwnerInConcat(hash, a + [e], b, replicas, p);
    if p !in AllPoints(hash, b, replicas) {
      OwnerInConcat(hash, a, [e], replicas, p);
      if p in AllPoints(hash, [e], replicas) {
        assert OwnerOf(hash, [e], replicas, p) in [e];
      } else {
        OwnerInConcat(hash, a, b, replicas, p);
      }
    } else {
      OwnerInConcat(hash, a, b, replicas, p);
    }
  }

  /**
   * Minimal movement. Inserting e anywhere in the list sends every key either to its old
   * endpoint or to e. Read from right to left it is the removal of e: only keys that e
   * served move.
   */
  lemma MinimalMovement(hash: Hash, a: seq<Endpoint>, e: Endpoint, b: seq<Endpoint>, replicas: nat, h: nat)
    requires a + b != [] && replicas > 0
    ensures Place(hash, a + [e] + b, replicas, h) == e
         || Place(hash, a + [e] + b, replicas, h) == Place(hash, a + b, replicas, h)
  {
    hide OwnerOf, First;
    var old_, new_ := a + b, a + [e] + b;
    var points, points' := AllPoints(hash, old_, replicas), AllPoints(hash, new_, replicas);
    SomePoint(hash, old_, replicas);
    SomePoint(hash, new_, replicas);
    hide AllPoints;
    PointsOfConcat(hash, a, b, replicas);
    PointsOfConcat(hash, a + [e], b, replicas);
    PointsOfConcat(hash, a, [e], replicas);
    var p := First(points', h);
    OwnerAfterInsert(hash, a, e, b, replicas, p);
    if OwnerOf(hash, new_, replicas, p) != e {
      var pa, pe, pb := AllPoints(hash, a, replicas), AllPoints(hash, [e], replicas), AllPoints(hash, b, replicas);
      assert points == pa + pb && points' == pa + pe + pb;
      assert forall q :: q in points ==> q in points';
      assert IsFirst(points, h, p);
      FirstIsUnique(points, h, p, First(points, h));
    }
  }

  // ---- The cached ring ----------------------------------------------------

  /** Bitwise exclusive or. */
  function Xor(a: nat, b: nat): nat
    decreases a + b
  {
    if a == 0 && b == 0 then 0
    else 2 * Xor(a / 2, b / 2) + (if a % 2 == b % 2 then 0 else 1)
  }

  lemma {:induction false} XorSwap(a: nat, b: nat, c: nat)
    ensures Xor(Xor(a, b), c) == Xor(Xor(a, c), b)
    decreases a + b + c
  {
    if a + b + c > 0 {
      XorSwap(a / 2, b / 2, c / 2);
      XorHalves(a, b);
      XorHalves(a, c);
      XorHalves(Xor(a, b), c);
      XorHalves(Xor(a, c), b);
      hide Xor;
      var x, y := Xor(Xor(a, b), c), Xor(Xor(a, c), b);
      assert x / 2 == y / 2 && x % 2 == y % 2;
    }
  }

  lemma XorHalves(a: nat, b: nat)
    ensures Xor(a, b) / 2 == Xor(a / 2, b / 2)
    ensures Xor(a, b) % 2 == (if a % 2 == b % 2 then 0 else 1)
  {
  }

  /** The digest and length that fingerprint joins into one string; the join is injective. */
  datatype Fingerprint = Fingerprint(digest: nat, count: nat)

  function Digest(hash: Hash, eps: seq<Endpoint>): nat {
    if eps == [] then 0 else Xor(Digest(hash, eps[..|eps| - 1]), hash(eps[|eps| - 1].addr))
  }

  function FingerprintOf(hash: Hash, eps: seq<Endpoint>): Fingerprint {
    Fingerprint(Digest(hash, eps), |eps|)
  }

  lemma {:induction false} DigestPull(hash: Hash, eps: seq<Endpoint>, i: nat)
    requires i < |eps|
    ensures Digest(hash, eps) == Xor(Digest(hash, eps[..i] + eps[i + 1..]), hash(eps[i].addr))
  {
    var n := |eps| - 1;
    var rest := eps[..i] + eps[i + 1..];
    if i == n {
      assert rest == eps[..n];
    } else {
      DigestPull(hash, eps[..n], i);
      assert rest[..|rest| - 1] == eps[..n][..i] + eps[..n][i + 1..];
      assert rest[|rest| - 1] == eps[n];
      XorSwap(Digest(hash, rest[..|rest| - 1]), hash(eps[i].addr), hash(eps[n].addr));
    }
  }

  /** The fingerprint does not depend on the order of the endpoints. */
  lemma {:induction false} FingerprintIgnoresOrder(hash: Hash, eps: seq<Endpoint>, eps': seq<Endpoint>)
    requires multiset(eps) == multiset(eps')
    ensures FingerprintOf(hash, eps) == FingerprintOf(hash, eps')
  {
    hide Digest, Xor;
    assert |eps| == |multiset(eps)| == |multiset(eps')| == |eps'|;
    if eps != [] {
      var n := |eps| - 1;
      var i, rest := WithoutLast(eps, eps');
      FingerprintIgnoresOrder(hash, eps[..n], rest);
      DigestPull(hash, eps, n);
      DigestPull(hash, eps', i);
      assert eps[..n] + eps[n + 1..] == eps[..n];
    }
  }

  /** A reordering of eps has its last endpoint somewhere; without it, it reorders the others. */
  lemma WithoutLast(eps: seq<Endpoint>, eps': seq<Endpoint>) returns (i: nat, rest: seq<Endpoint>)
    requires eps != [] && multiset(eps) == multiset(eps')
    ensures i < |eps'| && eps'[i] == eps[|eps| - 1] && rest == eps'[..i] + eps'[i + 1..]
    ensures multiset(eps[..|eps| - 1]) == multiset(rest)
  {
    var n := |eps| - 1;
    assert eps[n] in multiset(eps');
    i :| i < |eps'| && eps'[i] == eps[n];
    rest := eps'[..i] + eps'[i + 1..];
    assert eps == eps[..n] + [eps[n]];
    assert eps' == eps'[..i] + [eps'[i]] + eps'[i + 1..];
    assert multiset(rest) == multiset(eps') - multiset{eps[n]};
  }

  /** No two different endpoints of eps share a virtual node. */
  ghost predicate NoSharedPoints(hash: Hash, eps: seq<Endpoint>, replicas: nat) {
    forall e, f, p ::
      e in eps && f in eps && p in PointsOf(hash, e.addr, replicas) && p in PointsOf(hash, f.addr, replicas) ==> e == f
  }

  lemma {:induction false} PointHasMember(hash: Hash, eps: seq<Endpoint>, replicas: nat, p: nat)
    ensures p in AllPoints(hash, eps, replicas)
       <==> exists e :: e in eps && p in PointsOf(hash, e.addr, replicas)
  {
    if eps != [] {
      var n := |eps| - 1;
      PointHasMember(hash, eps[..n], replicas, p);
      assert eps == eps[..n] + [eps[n]];
    }
  }

  /** A reordered list keeps every placement, so reusing its ring is sound, when no points collide. */
  lemma ReorderKeepsPlacement(hash: Hash, eps: seq<Endpoint>, eps': seq<Endpoint>, replicas: nat, h: nat)
    requires eps != [] && replicas > 0
    requires multiset(eps) == multiset(eps') && NoSharedPoints(hash, eps, replicas)
    ensures eps' != []
    ensures Place(hash, eps', replicas, h) == Place(hash, eps, replicas, h)
  {
    assert |eps| == |multiset(eps)| == |multiset(eps')| == |eps'|;
    assert forall e :: e in eps <==> e in multiset(eps);
    assert forall e :: e in eps' <==> e in multiset(eps');
    hide OwnerOf, First;
    SomePoint(hash, eps, replicas);
    SomePoint(hash, eps', replicas);
    hide AllPoints;
    var points, points' := AllPoints(hash, eps, replicas), AllPoints(hash, eps', replicas);
    forall p
      ensures p in points <==> p in points'
    {
      PointHasMember(hash, eps, replicas, p);
      PointHasMember(hash, eps', replicas, p);
    }
    FirstIsUnique(points, h, First(points, h), First(points', h));
  }

  /** A key that hashes onto a point is served by the owner of that point. */
  lemma PlaceAtPoint(hash: Hash, eps: seq<Endpoint>, replicas: nat, p: nat)
    requires eps != [] && replicas > 0 && p in AllPoints(hash, eps, replicas)
    ensures Place(hash, eps, replicas, p) == OwnerOf(hash, eps, replicas, p)
  {
    var points := AllPoints(hash, eps, replicas);
    hide AllPoints, OwnerOf;
    FirstIsUnique(points, p, p, First(points, p));
  }

  lemma MovedLast(eps: seq<Endpoint>, e: Endpoint) returns (eps': seq<Endpoint>)
    requires e in eps
    ensures multiset(eps') == multiset(eps) && eps' != [] && eps'[|eps'| - 1] == e
  {
    var i: nat :| i < |eps| && eps[i] == e;
    eps' := eps[..i] + eps[i + 1..] + [e];
    assert eps == eps[..i] + [e] + eps[i + 1..];
  }

  /** Every reordering of the list places every key as the list itself does. */
  ghost predicate OrderDoesNotMatter(hash: Hash, eps: seq<Endpoint>, replicas: nat)
    requires eps != [] && replicas > 0
  {
    forall eps': seq<Endpoint>, h: nat ::
      eps' != [] && multiset(eps') == multiset(eps) ==> Place(hash, eps', replicas, h) == Place(hash, eps, replicas, h)
  }

  /** The endpoint listed last serves its own points. */
  lemma LastServesItsPoint(hash: Hash, eps: seq<Endpoint>, replicas: nat, p: nat)
    requires eps != [] && replicas > 0 && p in PointsOf(hash, eps[|eps| - 1].addr, replicas)
    ensures Place(hash, eps, replicas, p) == eps[|eps| - 1]
  {
    assert p in AllPoints(hash, eps, replicas);
    PlaceAtPoint(hash, eps, replicas, p);
  }

  /** Reusing a ring for a reordered list is sound exactly when no two endpoints share a virtual node. */
  lemma OrderDoesNotMatterIff(hash: Hash, eps: seq<Endpoint>, replicas: nat)
    requires eps != [] && replicas > 0
    ensures OrderDoesNotMatter(hash, eps, replicas) <==> NoSharedPoints(hash, eps, replicas)
  {
    hide Place, PointsOf;
    if NoSharedPoints(hash, eps, replicas) {
      forall eps': seq<Endpoint>, h: nat | eps' != [] && multiset(eps') == multiset(eps)
        ensures Place(hash, eps', replicas, h) == Place(hash, eps, replicas, h)
      {
        ReorderKeepsPlacement(hash, eps, eps', replicas, h);
      }
    } else {
      var e, f, p :| e in eps && f in eps && e != f
                     && p in PointsOf(hash, e.addr, replicas) && p in PointsOf(hash, f.addr, replicas);
      var last := MovedLast(eps, e);
      var last' := MovedLast(eps, f);
      LastServesItsPoint(hash, last, replicas, p);
      LastServesItsPoint(hash, last', replicas, p);
      assert Place(hash, last, replicas, p) != Place(hash, last', replicas, p);
    }
  }

  /** With colliding points the order decides: under a constant hash the last endpoint takes every key. */
  lemma CollidingReorderMovesKeys(a: Endpoint, b: Endpoint, replicas: nat, h: nat)
    requires a != b && replicas > 0
    ensures var hash: Hash := _ => 0;
            && FingerprintOf(hash, [a, b]) == FingerprintOf(hash, [b, a])
            && Place(hash, [a, b], replicas, h) == b
            && Place(hash, [b, a], replicas, h) == a
  {
    var hash: Hash := _ => 0;
    assert multiset([a, b]) == multiset([b, a]);
    FingerprintIgnoresOrder(hash, [a, b], [b, a]);
    ConstantHashPlacesLast(a, b, replicas, h);
    ConstantHashPlacesLast(b, a, replicas, h);
  }

  lemma ConstantHashPlacesLast(a: Endpoint, b: Endpoint, replicas: nat, h: nat)
    requires replicas > 0
    ensures Place(_ => 0, [a, b], replicas, h) == b
  {
    var hash: Hash := _ => 0;
    SomePoint(hash, [a, b], replicas);
    var p := First(AllPoints(hash, [a, b], replicas), h);
    assert p in AllPoints(hash, [a, b], replicas);
    AllPointsZero(hash, [a, b], replicas);
    assert PointsOf(hash, b.addr, replicas)[0] == 0;
  }

  lemma {:induction false} AllPointsZero(hash: Hash, eps: seq<Endpoint>, replicas: nat)
    requires forall s :: hash(s) == 0
    ensures forall p :: p in AllPoints(hash, eps, replicas) ==> p == 0
  {
    if eps != [] {
      AllPointsZero(hash, eps[..|eps| - 1], replicas);
    }
  }

  /**
   * The fingerprint looks at addresses only, so after a change of weight, health or
   * metadata the cached ring answers with the endpoint record it was built from, for
   * every hash: the pick is then not a member of the list it was asked to pick from.
   */
  lemma CachedRingServesOldRecord(hash: Hash, e: Endpoint, e': Endpoint, replicas: nat, h: nat)
    requires e.addr == e'.addr && e != e' && replicas > 0
    ensures FingerprintOf(hash, [e]) == FingerprintOf(hash, [e'])
    ensures Place(hash, [e], replicas, h) == e
    ensures Place(hash, [e], replicas, h) !in [e']
  {
    assert [e][..0] == [] && [e'][..0] == [];
    assert Digest(hash, []) == 0;
    assert Place(hash, [e], replicas, h) in [e];
  }

  /** Exactly when a ring built from source serves only members of eps, whatever the key's hash. */
  lemma CachedPicksAreMembersIff(hash: Hash, source: seq<Endpoint>, eps: seq<Endpoint>, replicas: nat)
    requires source != [] && replicas > 0
    ensures (forall h: nat :: Place(hash, source, replicas, h) in eps)
       <==> (forall p :: p in AllPoints(hash, source, replicas) ==> OwnerOf(hash, source, replicas, p) in eps)
  {
    var points := AllPoints(hash, source, replicas);
    SomePoint(hash, source, replicas);
    hide AllPoints, OwnerOf;
    if forall h: nat :: Place(hash, source, replicas, h) in eps {
      forall p | p in points
        ensures OwnerOf(hash, source, replicas, p) in eps
      {
        FirstIsUnique(points, p, p, First(points, p));
        assert Place(hash, source, replicas, p) in eps;
      }
    }
  }

  /**
   * Without shared points, every pick from a ring built over source is a member of the
   * current list exactly when every record of source still is.
   */
  lemma CachedPicksAreCurrentIff(hash: Hash, source: seq<Endpoint>, eps: seq<Endpoint>, replicas: nat)
    requires source != [] && replicas > 0 && NoSharedPoints(hash, source, replicas)
    ensures (forall h: nat :: Place(hash, source, replicas, h) in eps) <==> (forall e :: e in source ==> e in eps)
  {
    hide AllPoints, OwnerOf, First;
    if forall h: nat :: Place(hash, source, replicas, h) in eps {
      forall e | e in source
        ensures e in eps
      {
        var p := PointOf(hash, e.addr, 0);
        assert p == PointsOf(hash, e.addr, replicas)[0];
        PointHasMember(hash, source, replicas, p);
        PlaceAtPoint(hash, source, replicas, p);
        assert Place(hash, source, replicas, p) == e;
      }
    }
  }

  /**
   * Lists that agree on the addresses have one fingerprint, whatever else their records say.
   * So after a change of weight, health or metadata the ring is kept, and some key is served
   * by a record that is no longer listed.
   */
  lemma ChangedRecordsAreStillServed(hash: Hash, source: seq<Endpoint>, eps: seq<Endpoint>, replicas: nat)
    requires source != [] && replicas > 0 && NoSharedPoints(hash, source, replicas)
    requires |eps| == |source| && forall i :: 0 <= i < |eps| ==> eps[i].addr == source[i].addr
    ensures FingerprintOf(hash, source) == FingerprintOf(hash, eps)
    ensures (exists h: nat :: Place(hash, source, replicas, h) !in eps) <==> (exists e :: e in source && e !in eps)
  {
    SameAddressesSameDigest(hash, source, eps);
    CachedPicksAreCurrentIff(hash, source, eps, replicas);
  }

  lemma {:induction false} SameAddressesSameDigest(hash: Hash, a: seq<Endpoint>, b: seq<Endpoint>)
    requires |a| == |b| && forall i :: 0 <= i < |a| ==> a[i].addr == b[i].addr
    ensures Digest(hash, a) == Digest(hash, b)
  {
    if a != [] {
      SameAddressesSameDigest(hash, a[..|a| - 1], b[..|b| - 1]);
      hide Xor;
    }
  }

  ghost predicate Ascending(s: seq<nat>) {
    forall i, j :: 0 <= i < j < |s| ==> s[i] <= s[j]
  }

  function Insert(s: seq<nat>, x: nat): (r: seq<nat>)
    ensures multiset(r) == multiset(s) + multiset{x}
  {
    if s == [] || x <= s[0] then [x] + s
    else
      assert s == [s[0]] + s[1..];
      [s[0]] + Insert(s[1..], x)
  }

  lemma {:induction false} InsertKeepsBound(s: seq<nat>, x: nat, low: nat)
    requires low <= x && forall j :: 0 <= j < |s| ==> low <= s[j]
    ensures forall j :: 0 <= j < |Insert(s, x)| ==> low <= Insert(s, x)[j]
  {
    if s != [] && x > s[0] {
      InsertKeepsBound(s[1..], x, low);
    }
  }

  lemma {:induction false} InsertKeepsOrder(s: seq<nat>, x: nat)
    requires Ascending(s)
    ensures Ascending(Insert(s, x))
  {
    if s != [] && x > s[0] {
      InsertKeepsOrder(s[1..], x);
      InsertKeepsBound(s[1..], x, s[0]);
    }
  }

  /** The library sort: the same points in ascending order. */
  function Sorted(s: seq<nat>): (r: seq<nat>)
    ensures Ascending(r) && multiset(r) == multiset(s)
  {
    if s == [] then []
    else
      assert s == [s[0]] + s[1..];
      InsertKeepsOrder(Sorted(s[1..]), s[0]);
      Insert(Sorted(s[1..]), s[0])
  }

  /** The owner map after a build over eps. */
  ghost predicate OwnsAll(hash: Hash, eps: seq<Endpoint>, replicas: nat, owner: map<nat, Endpoint>) {
    && (forall p :: p in owner <==> p in AllPoints(hash, eps, replicas))
    && (forall p :: p in AllPoints(hash, eps, replicas) ==> owner[p] == OwnerOf(hash, eps, replicas, p))
  }

  /** The build stands inside endpoint k, with i of its virtual nodes placed. */
  ghost predicate Building(hash: Hash, eps: seq<Endpoint>, replicas: nat, k: nat, i: nat,
                           ring: seq<nat>, owner: map<nat, Endpoint>)
    requires k < |eps| && i <= replicas
  {
    var before := AllPoints(hash, eps[..k], replicas);
    var placed := PointsOf(hash, eps[k].addr, replicas)[..i];
    && ring == before + placed
    && (forall p :: p in owner <==> p in before || p in placed)
    && (forall p :: p in placed ==> owner[p] == eps[k])
    && (forall p :: p in before && p !in placed ==> owner[p] == OwnerOf(hash, eps[..k], replicas, p))
  }

  lemma BuildPlaces(hash: Hash, eps: seq<Endpoint>, replicas: nat, k: nat, i: nat,
                    ring: seq<nat>, owner: map<nat, Endpoint>)
    requires k < |eps| && i < replicas && Building(hash, eps, replicas, k, i, ring, owner)
    ensures
      var point := PointOf(hash, eps[k].addr, i);
      Building(hash, eps, replicas, k, i + 1, ring + [point], owner[point := eps[k]])
  {
    var points := PointsOf(hash, eps[k].addr, replicas);
    assert points[..i + 1] == points[..i] + [PointOf(hash, eps[k].addr, i)];
  }

  lemma BuildFinishes(hash: Hash, eps: seq<Endpoint>, replicas: nat, k: nat,
                      ring: seq<nat>, owner: map<nat, Endpoint>)
    requires k < |eps| && Building(hash, eps, replicas, k, replicas, ring, owner)
    ensures ring == AllPoints(hash, eps[..k + 1], replicas)
    ensures OwnsAll(hash, eps[..k + 1], replicas, owner)
  {
    assert eps[..k + 1][..k] == eps[..k];
    assert eps[..k + 1][k] == eps[k];
    var points := PointsOf(hash, eps[k].addr, replicas);
    assert points[..replicas] == points;
  }

  /** Go's sort.Search over ring[i] >= h: the first index that satisfies it, or the length. */
  method SearchAtLeast(ring: seq<nat>, h: nat) returns (r: nat)
    requires Ascending(ring)
    ensures r <= |ring|
    ensures forall j :: 0 <= j < r ==> ring[j] < h
    ensures forall j :: r <= j < |ring| ==> ring[j] >= h
  {
    var i, j := 0, |ring|;
    while i < j
      invariant 0 <= i <= j <= |ring|
      invariant forall k :: 0 <= k < i ==> ring[k] < h
      invariant forall k :: j <= k < |ring| ==> ring[k] >= h
    {
      var mid := (i + j) / 2;
      if !(ring[mid] >= h) {
        i := mid + 1;
      } else {
        j := mid;
      }
    }
    r := i;
  }

  /** The search hit, wrapped around, is the first point of the placement. */
  lemma SearchFindsFirst(points: seq<nat>, ring: seq<nat>, h: nat, r: nat)
    requires points != [] && Ascending(ring) && multiset(ring) == multiset(points)
    requires r <= |ring|
    requires forall j :: 0 <= j < r ==> ring[j] < h
    requires forall j :: r <= j < |ring| ==> ring[j] >= h
    ensures |ring| > 0
    ensures ring[if r == |ring| then 0 else r] == First(points, h)
  {
    assert |ring| == |multiset(ring)| == |multiset(points)| == |points|;
    assert forall q :: q in points <==> q in multiset(points);
    assert forall q :: q in ring <==> q in multiset(ring);
    var p := ring[if r == |ring| then 0 else r];
    assert p in ring;
    forall q | q in points
      ensures q >= h ==> p >= h && p <= q
      ensures r == |ring| ==> q < h && p <= q
    {
      assert q in ring;
    }
    assert IsFirst(points, h, p);
    FirstIsUnique(points, h, p, First(points, h));
  }

  /** A ring with its owners, searched and wrapped around, serves the placement. */
  lemma RingServes(hash: Hash, eps: seq<Endpoint>, replicas: nat, ring: seq<nat>, owner: map<nat, Endpoint>, h: nat, i: nat)
    requires eps != [] && replicas > 0 && Ascending(ring) && multiset(ring) == multiset(AllPoints(hash, eps, replicas))
    requires OwnsAll(hash, eps, replicas, owner) && i <= |ring|
    requires forall j :: 0 <= j < i ==> ring[j] < h
    requires forall j :: i <= j < |ring| ==> ring[j] >= h
    ensures |ring| > 0
    ensures var p := ring[if i == |ring| then 0 else i]; p in owner && owner[p] == Place(hash, eps, replicas, h)
  {
    SomePoint(hash, eps, replicas);
    SearchFindsFirst(AllPoints(hash, eps, replicas), ring, h, i);
    hide Ascending, AllPoints;
  }

  lemma SameFingerprintSameLength(hash: Hash, a: seq<Endpoint>, b: seq<Endpoint>)
    requires FingerprintOf(hash, a) == FingerprintOf(hash, b)
    ensures |a| == |b|
  {
  }

  const UINT64_RANGE: nat := 0x1_0000_0000_0000_0000

  lemma CounterBeforeTick(n: nat)
    requires n < UINT64_RANGE
    ensures ((n + 1) % UINT64_RANGE + UINT64_RANGE - 1) % UINT64_RANGE == n
  {
  }

  class Balancer {
    const hash: Hash
    const replicas: nat
    var rr: nat
    var fp: Option<Fingerprint>
    var ring: Option<seq<nat>>
    var owner: map<nat, Endpoint>
    ghost var source: seq<Endpoint>  // the list the cached ring was built from

    ghost predicate Valid()
      reads this
    {
      && replicas > 0
      && rr < UINT64_RANGE
      && (fp.None? <==> ring.None?)
      && (ring.Some? ==>
            && fp.value == FingerprintOf(hash, source)
            && Ascending(ring.value)
            && multiset(ring.value) == multiset(AllPoints(hash, source, replicas))
            && OwnsAll(hash, source, replicas, owner))
    }

    constructor (hash: Hash, replicas: int)
      ensures Valid() && fp.None? && rr == 0
      ensures this.hash == hash
      ensures this.replicas == if replicas <= 0 then DEFAULT_REPLICAS else replicas
    {
      this.hash := hash;
      this.replicas := if replicas <= 0 then DEFAULT_REPLICAS else replicas;
      this.rr, this.fp, this.ring, this.owner, this.source := 0, None, None, map[], [];
    }

    method ComputeFingerprint(eps: seq<Endpoint>) returns (f: Fingerprint)
      ensures f == FingerprintOf(hash, eps)
    {
      var x := 0;
      for i := 0 to |eps|
        invariant x == Digest(hash, eps[..i])
      {
        assert eps[..i + 1][..i] == eps[..i];
        x := Xor(x, hash(eps[i].addr));
      }
      assert eps[..|eps|] == eps;
      f := Fingerprint(x, |eps|);
    }

    /** Rebuilds the ring unless the cached one has the fingerprint of eps. */
    method Rebuild(eps: seq<Endpoint>)
      requires Valid()
      modifies this
      ensures Valid() && rr == old(rr)
      ensures fp == Some(FingerprintOf(hash, eps))
      ensures source == if old(fp) == Some(FingerprintOf(hash, eps)) then old(source) else eps
    {
      var f := ComputeFingerprint(eps);
      if Some(f) == fp && ring.Some? {
        return;
      }
      var points: seq<nat> := [];
      var owners: map<nat, Endpoint> := map[];
      for k := 0 to |eps|
        invariant points == AllPoints(hash, eps[..k], replicas)
        invariant OwnsAll(hash, eps[..k], replicas, owners)
        invariant unchanged(this)
      {
        for i := 0 to replicas
          invariant Building(hash, eps, replicas, k, i, points, owners)
          invariant unchanged(this)
        {
          BuildPlaces(hash, eps, replicas, k, i, points, owners);
          var point := PointOf(hash, eps[k].addr, i);
          points := points + [point];
          owners := owners[point := eps[k]];
        }
        BuildFinishes(hash, eps, replicas, k, points, owners);
      }
      assert eps[..|eps|] == eps;
      ring := Some(Sorted(points));
      owner := owners;
      fp := Some(f);
      source := eps;
    }

    /**
     * An unkeyed pick is round-robin. A keyed pick serves the placement over the list the
     * ring was built from: eps itself, or an earlier list with the same fingerprint.
     */
    method Pick(eps: seq<Endpoint>, hashKey: string) returns (r: PickResult)
      requires Valid()
      modifies this
      ensures Valid()
      ensures eps == [] ==> r == NoAvailable && unchanged(this)
      ensures eps != [] && hashKey == "" ==>
                && r == Picked(eps[old(rr) % |eps|])
                && rr == (old(rr) + 1) % UINT64_RANGE
                && fp == old(fp) && source == old(source)
      ensures eps != [] && hashKey != "" ==>
                && rr == old(rr)
                && fp == Some(FingerprintOf(hash, eps))
                && source == (if old(fp) == Some(FingerprintOf(hash, eps)) then old(source) else eps)
                && source != []
                && r == Picked(Place(hash, source, replicas, hash(hashKey)))
    {
      if |eps| == 0 {
        return NoAvailable;
      }
      if hashKey == "" {
        CounterBeforeTick(rr);
        rr := (rr + 1) % UINT64_RANGE;
        var i := (rr + UINT64_RANGE - 1) % UINT64_RANGE;
        return Picked(eps[i % |eps|]);
      }
      hide Ascending, AllPoints, OwnsAll, Place, FingerprintOf;
      Rebuild(eps);
      SameFingerprintSameLength(hash, source, eps);
      var h := hash(hashKey);
      var i := SearchAtLeast(ring.value, h);
      RingServes(hash, source, replicas, ring.value, owner, h, i);
      if i == |ring.value| {
        i := 0;
      }
      r := Picked(owner[ring.value[i]]);
    }
  }
}
