/** JSON lists of objects read into maps keyed by a field of the objects. */
module JsonList {
  import opened Prelude
  import opened JsonTree

  /** Reads a list of objects into a map keyed by id; None when any element fails. */
  function ReadAll<K(==), R>(items: seq<Json>, parse: Json -> Option<R>, id: R -> K): Option<map<K, R>> {
    if items == [] then Some(map[]) else
    match (ReadAll(items[..|items| - 1], parse, id), parse(items[|items| - 1]))
    case (Some(m), Some(r)) => Some(m[id(r) := r])
    case _ => None
  }

  /** The reading loop of `fromJson`. */
  method ReadLoop<K(==), R>(items: seq<Json>, parse: Json -> Option<R>, id: R -> K) returns (m: Option<map<K, R>>)
    ensures m == ReadAll(items, parse, id)
  {
    m := Some(map[]);
    for i := 0 to |items|
      invariant m == ReadAll(items[..i], parse, id)
    {
      assert items[..i + 1][..i] == items[..i];
      var r := parse(items[i]);
      m := if m.Some? && r.Some? then Some(m.value[id(r.value) := r.value]) else None;
    }
    assert items[..|items|] == items;
  }

  /** `keys` lists the keys of `m` in some order, each once. */
  ghost predicate Lists<K, R>(keys: seq<K>, m: map<K, R>) {
    && (forall i, j :: 0 <= i < j < |keys| ==> keys[i] != keys[j])
    && (forall k :: k in keys ==> k in m) && (forall k :: k in m ==> k in keys)
  }

  function Restrict<K(==), R>(m: map<K, R>, keys: seq<K>): map<K, R> {
    map k | k in m && k in keys :: m[k]
  }

  /** Reading any listing of a map's records gives the map back. */
  lemma {:induction false} ReadListing<K, R>(items: seq<Json>, parse: Json -> Option<R>, id: R -> K,
                                          keys: seq<K>, m: map<K, R>)
    requires |items| == |keys|
    requires forall i :: 0 <= i < |keys| ==> keys[i] in m
    requires forall i :: 0 <= i < |keys| ==> parse(items[i]) == Some(m[keys[i]])
    requires forall k :: k in m ==> id(m[k]) == k
    ensures ReadAll(items, parse, id) == Some(Restrict(m, keys))
  {
    if items != [] {
      var n := |items| - 1;
      ReadListing(items[..n], parse, id, keys[..n], m);
      assert keys == keys[..n] + [keys[n]];
      assert Restrict(m, keys) == Restrict(m, keys[..n])[keys[n] := m[keys[n]]];
    }
  }

  lemma ReadFullListing<K, R>(items: seq<Json>, parse: Json -> Option<R>, id: R -> K,
                           keys: seq<K>, m: map<K, R>)
    requires Lists(keys, m) && |items| == |keys|
    requires forall i :: 0 <= i < |keys| ==> parse(items[i]) == Some(m[keys[i]])
    requires forall k :: k in m ==> id(m[k]) == k
    ensures ReadAll(items, parse, id) == Some(m)
  {
    forall i | 0 <= i < |keys| ensures keys[i] in m { assert keys[i] in keys; }
    ReadListing(items, parse, id, keys, m);
    assert Restrict(m, keys) == m;
  }

  lemma {:induction false} ReadAllKeyed<K, R>(items: seq<Json>, parse: Json -> Option<R>, id: R -> K)
    requires ReadAll(items, parse, id).Some?
    ensures forall k :: k in ReadAll(items, parse, id).value ==> id(ReadAll(items, parse, id).value[k]) == k
  {
    if items != [] { ReadAllKeyed(items[..|items| - 1], parse, id); }
  }

  // ------------------------------------------------------------------ list order

  /** What the map holds, element by element. */
  lemma {:induction false} ReadAllMeaning<K, R>(items: seq<Json>, parse: Json -> Option<R>, id: R -> K)
    ensures var r := ReadAll(items, parse, id);
            && (r.Some? <==> forall x :: x in items ==> parse(x).Some?)
            && (r.Some? ==> forall x :: x in items ==> id(parse(x).value) in r.value)
            && (r.Some? ==>
                  forall k :: k in r.value ==>
                    id(r.value[k]) == k && exists x :: x in items && parse(x) == Some(r.value[k]))
  {
    if items != [] {
      var front, last := items[..|items| - 1], items[|items| - 1];
      ReadAllMeaning(front, parse, id);
      assert items == front + [last];
      assert forall x :: x in items <==> x in front || x == last;
      var r := ReadAll(items, parse, id);
      if r.Some? {
        forall k | k in r.value
          ensures id(r.value[k]) == k && exists x :: x in items && parse(x) == Some(r.value[k])
        {
          if k == id(parse(last).value) { assert last in items; }
        }
      }
    }
  }

  /** The i-th element is the last with id k. */
  predicate LastWith<K(==), R>(items: seq<Json>, parse: Json -> Option<R>, id: R -> K, k: K, i: nat) {
    && i < |items|
    && (match parse(items[i]) case Some(r) => id(r) == k case None => false)
    && forall j :: i < j < |items| ==> match parse(items[j]) case Some(r) => id(r) != k case None => true
  }

  /** A readable list holds, under each id there is, the last element with it. */
  lemma {:induction false} LastIsRead<K, R>(items: seq<Json>, parse: Json -> Option<R>, id: R -> K, k: K)
    requires ReadAll(items, parse, id).Some?
    ensures var m := ReadAll(items, parse, id).value;
            && (k in m <==> exists i: nat :: LastWith(items, parse, id, k, i))
            && forall i: nat :: LastWith(items, parse, id, k, i) ==> k in m && parse(items[i]) == Some(m[k])
  {
    if items != [] {
      var front, n := items[..|items| - 1], |items| - 1;
      LastIsRead(front, parse, id, k);
      if id(parse(items[n]).value) == k {
        assert LastWith(items, parse, id, k, n);
      } else {
        forall i: nat ensures LastWith(items, parse, id, k, i) <==> LastWith(front, parse, id, k, i) {
          LastWithFront(items, parse, id, k, i);
        }
      }
    }
  }

  lemma LastWithFront<K, R>(items: seq<Json>, parse: Json -> Option<R>, id: R -> K, k: K, i: nat)
    requires items != [] && parse(items[|items| - 1]).Some? && id(parse(items[|items| - 1]).value) != k
    ensures LastWith(items, parse, id, k, i) <==> LastWith(items[..|items| - 1], parse, id, k, i)
  {
    var front := items[..|items| - 1];
    assert forall j :: 0 <= j < |front| ==> front[j] == items[j];
  }

  predicate SameId<K(==), R>(a: Option<R>, b: Option<R>, id: R -> K) {
    a.Some? && b.Some? && id(a.value) == id(b.value)
  }

  /** Elements of one id hold one record. */
  ghost predicate Consistent<K, R>(items: seq<Json>, parse: Json -> Option<R>, id: R -> K) {
    forall x, y :: x in items && y in items && SameId(parse(x), parse(y), id) ==> parse(x) == parse(y)
  }

  /** A list read in another order gives the same map, when its elements of one id agree. */
  lemma Reordered<K, R>(items: seq<Json>, other: seq<Json>, parse: Json -> Option<R>, id: R -> K)
    requires multiset(items) == multiset(other) && Consistent(items, parse, id)
    ensures ReadAll(other, parse, id) == ReadAll(items, parse, id)
  {
    ReadAllMeaning(items, parse, id);
    ReadAllMeaning(other, parse, id);
    forall x ensures x in items <==> x in other {
      assert x in items <==> x in multiset(items);
      assert x in other <==> x in multiset(other);
    }
    if ReadAll(items, parse, id).Some? {
      var m, n := ReadAll(items, parse, id).value, ReadAll(other, parse, id).value;
      forall k ensures k in m <==> k in n {
        if k in m { var x :| x in items && parse(x) == Some(m[k]) && id(m[k]) == k; }
        if k in n { var x :| x in other && parse(x) == Some(n[k]) && id(n[k]) == k; }
      }
      forall k | k in m ensures m[k] == n[k] {
        var x :| x in items && parse(x) == Some(m[k]) && id(m[k]) == k;
        var y :| y in other && parse(y) == Some(n[k]) && id(n[k]) == k;
      }
      assert m == n;
    }
  }

  /** The same elements, with one of them last. */
  function MovedLast(items: seq<Json>, i: nat): seq<Json>
    requires i < |items|
  {
    items[..i] + items[i + 1..] + [items[i]]
  }

  lemma MovedLastIsReordering(items: seq<Json>, i: nat)
    requires i < |items|
    ensures multiset(MovedLast(items, i)) == multiset(items)
  {
    assert items == items[..i] + [items[i]] + items[i + 1..];
  }

  /** An element placed last decides its id's record. */
  lemma LastDecides<K, R>(items: seq<Json>, i: nat, parse: Json -> Option<R>, id: R -> K)
    requires i < |items| && ReadAll(items, parse, id).Some?
    ensures var r := ReadAll(MovedLast(items, i), parse, id);
            parse(items[i]).Some? && r.Some? && id(parse(items[i]).value) in r.value
            && r.value[id(parse(items[i]).value)] == parse(items[i]).value
  {
    var other := MovedLast(items, i);
    ReadAllMeaning(items, parse, id);
    ReadAllMeaning(other, parse, id);
    assert items[i] in items && other[|other| - 1] == items[i];
  }

  /** Reading ignores the order of a readable list exactly when its elements of one id agree. */
  lemma OrderIgnoredExactly<K, R>(items: seq<Json>, parse: Json -> Option<R>, id: R -> K)
    requires ReadAll(items, parse, id).Some?
    ensures Consistent(items, parse, id)
       <==> forall other: seq<Json> :: multiset(other) == multiset(items)
              ==> ReadAll(other, parse, id) == ReadAll(items, parse, id)
  {
    if Consistent(items, parse, id) {
      forall other: seq<Json> | multiset(other) == multiset(items)
        ensures ReadAll(other, parse, id) == ReadAll(items, parse, id)
      {
        Reordered(items, other, parse, id);
      }
    } else {
      var x, y :| x in items && y in items && SameId(parse(x), parse(y), id) && parse(x) != parse(y);
      var i :| 0 <= i < |items| && items[i] == x;
      var j :| 0 <= j < |items| && items[j] == y;
      MovedLastIsReordering(items, i);
      MovedLastIsReordering(items, j);
      LastDecides(items, i, parse, id);
      LastDecides(items, j, parse, id);
      assert ReadAll(MovedLast(items, i), parse, id) != ReadAll(MovedLast(items, j), parse, id);
    }
  }
}
