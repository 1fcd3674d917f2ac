// Sorted map keys (stdlib/ordered/ordered.go): the order in which a map field is encoded.
module OrderedKeys {
  import opened Utf8

  /** The byte-wise order of strings. */
  predicate Less(a: seq<byte>, b: seq<byte>) {
    b != [] && (a == [] || a[0] < b[0] || (a[0] == b[0] && Less(a[1..], b[1..])))
  }

  lemma {:induction false} LessIsStrict(a: seq<byte>)
    ensures !Less(a, a)
  {
    if a != [] {
      LessIsStrict(a[1..]);
    }
  }

  lemma {:induction false} LessIsTransitive(a: seq<byte>, b: seq<byte>, c: seq<byte>)
    requires Less(a, b) && Less(b, c)
    ensures Less(a, c)
  {
    if a != [] && a[0] == b[0] && b[0] == c[0] {
      LessIsTransitive(a[1..], b[1..], c[1..]);
    }
  }

  lemma {:induction false} LessIsTotal(a: seq<byte>, b: seq<byte>)
    ensures Less(a, b) || a == b || Less(b, a)
  {
    if a != [] && b != [] && a[0] == b[0] {
      LessIsTotal(a[1..], b[1..]);
      assert a == [a[0]] + a[1..] && b == [b[0]] + b[1..];
    }
  }

  predicate Ascending(keys: seq<seq<byte>>) {
    forall i, j :: 0 <= i < j < |keys| ==> Less(keys[i], keys[j])
  }

  /** The sorted keys of a map. */
  ghost predicate AreKeysOf<V>(keys: seq<seq<byte>>, m: map<seq<byte>, V>) {
    Ascending(keys) && forall k :: k in keys <==> k in m
  }

  function Insert(keys: seq<seq<byte>>, key: seq<byte>): (r: seq<seq<byte>>)
    ensures forall k :: k in r <==> k in keys || k == key
  {
    if keys == [] || Less(key, keys[0]) then [key] + keys
    else
      var r := [keys[0]] + Insert(keys[1..], key);
      assert keys == [keys[0]] + keys[1..];
      r
  }

  lemma {:induction false} InsertKeepsAscending(keys: seq<seq<byte>>, key: seq<byte>)
    requires Ascending(keys) && key !in keys
    ensures Ascending(Insert(keys, key))
  {
    hide Less;
    if keys != [] && !Less(key, keys[0]) {
      LessIsTotal(key, keys[0]);
      var rest := Insert(keys[1..], key);
      InsertKeepsAscending(keys[1..], key);
      forall j | 0 <= j < |rest|
        ensures Less(keys[0], rest[j])
      {
        assert rest[j] in rest;
      }
    } else if keys != [] {
      forall j | 0 <= j < |keys|
        ensures Less(key, keys[j])
      {
        if j > 0 {
          LessIsTransitive(key, keys[0], keys[j]);
        }
      }
    }
  }

  /** Collects the keys in whatever order the map yields them and sorts them. */
  method MapKeys<V>(m: map<seq<byte>, V>) returns (keys: seq<seq<byte>>)
    ensures AreKeysOf(keys, m)
  {
    hide Less;
    keys := [];
    var todo := m.Keys;
    while todo != {}
      invariant todo <= m.Keys && Ascending(keys)
      invariant forall k :: k in keys <==> k in m && k !in todo
      decreases todo
    {
      var key :| key in todo;
      InsertKeepsAscending(keys, key);
      keys := Insert(keys, key);
      todo := todo - {key};
    }
  }

  /** A map has one sorted list of keys, so the order does not depend on the map's iteration. */
  lemma {:induction false} KeysAreUnique<V>(a: seq<seq<byte>>, b: seq<seq<byte>>, m: map<seq<byte>, V>)
    requires AreKeysOf(a, m) && AreKeysOf(b, m)
    ensures a == b
  {
    SameKeysSameOrder(a, b);
  }

  lemma {:induction false} SameKeysSameOrder(a: seq<seq<byte>>, b: seq<seq<byte>>)
    requires Ascending(a) && Ascending(b) && forall k :: k in a <==> k in b
    ensures a == b
  {
    hide Less;
    assert (a != [] ==> a[0] in a) && (b != [] ==> b[0] in b);
    if a != [] {
      HeadsAgree(a, b);
      HeadIsNotInTail(a);
      HeadIsNotInTail(b);
      forall k: seq<byte>
        ensures k in a[1..] <==> k in b[1..]
      {
        assert k in a <==> k == a[0] || k in a[1..];
        assert k in b <==> k == b[0] || k in b[1..];
      }
      SameKeysSameOrder(a[1..], b[1..]);
      assert a == [a[0]] + a[1..] && b == [b[0]] + b[1..];
    }
  }

  lemma HeadIsNotInTail(a: seq<seq<byte>>)
    requires a != [] && Ascending(a)
    ensures a[0] !in a[1..]
    ensures forall k :: k in a <==> k == a[0] || k in a[1..]
  {
    hide Less;
    LessIsStrict(a[0]);
    assert a == [a[0]] + a[1..];
  }

  lemma HeadsAgree(a: seq<seq<byte>>, b: seq<seq<byte>>)
    requires a != [] && b != [] && Ascending(a) && Ascending(b) && a[0] in b && b[0] in a
    ensures a[0] == b[0]
  {
    hide Less;
    var i :| 0 <= i < |b| && b[i] == a[0];
    var j :| 0 <= j < |a| && a[j] == b[0];
    if i > 0 && j > 0 {
      LessIsTransitive(a[0], b[0], a[0]);
      LessIsStrict(a[0]);
    }
  }
}
