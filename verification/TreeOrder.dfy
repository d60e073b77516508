/** Sorted entries as finite maps. */
module TreeOrder {
  import opened TreeShape

  /** Comparator on a key type with a total order: -1, 0 or 1. */
  ghost predicate TotalOrder<K(!new)>(compare: (K, K) -> int)
  {
    && (forall a, b :: compare(a, b) == 0 <==> a == b)
    && (forall a, b :: compare(a, b) < 0 <==> compare(b, a) > 0)
    && (forall a, b, c :: compare(a, b) < 0 && compare(b, c) < 0 ==> compare(a, c) < 0)
  }

  ghost predicate Sorted<K, V>(compare: (K, K) -> int, s: seq<Entry<K, V>>)
  {
    forall i, j :: 0 <= i < j < |s| ==> compare(s[i].key, s[j].key) < 0
  }

  /** Every key of `s` is below `key`, every key of `s` is above it. */
  ghost predicate AllBelow<K, V>(compare: (K, K) -> int, s: seq<Entry<K, V>>, key: K)
  {
    forall i :: 0 <= i < |s| ==> compare(s[i].key, key) < 0
  }

  ghost predicate AllAbove<K, V>(compare: (K, K) -> int, s: seq<Entry<K, V>>, key: K)
  {
    forall i :: 0 <= i < |s| ==> compare(s[i].key, key) > 0
  }

  /** The map that a sequence of entries is. */
  ghost function ToMap<K, V>(s: seq<Entry<K, V>>): map<K, V>
  {
    if s == [] then map[] else ToMap(s[..|s| - 1])[s[|s| - 1].key := s[|s| - 1].value]
  }

  lemma {:induction false} ToMapKeys<K, V>(s: seq<Entry<K, V>>, k: K)
    ensures k in ToMap(s) <==> exists i :: 0 <= i < |s| && s[i].key == k
  {
    if s != [] {
      ToMapKeys(s[..|s| - 1], k);
      if i :| 0 <= i < |s| && s[i].key == k { assert i < |s| - 1 ==> s[..|s| - 1][i].key == k; }
    }
  }

  lemma {:induction false} ToMapAt<K(!new), V>(compare: (K, K) -> int, s: seq<Entry<K, V>>, i: nat)
    requires TotalOrder(compare) && Sorted(compare, s) && i < |s|
    ensures s[i].key in ToMap(s) && ToMap(s)[s[i].key] == s[i].value
  {
    if i < |s| - 1 {
      ToMapAt(compare, s[..|s| - 1], i);
      assert compare(s[i].key, s[|s| - 1].key) < 0;
    }
  }

  lemma {:induction false} ToMapConcat<K, V>(x: seq<Entry<K, V>>, y: seq<Entry<K, V>>)
    ensures ToMap(x + y) == ToMap(x) + ToMap(y)
  {
    if y == [] {
      assert x + y == x;
    } else {
      assert (x + y)[..|x + y| - 1] == x + y[..|y| - 1];
      ToMapConcat(x, y[..|y| - 1]);
    }
  }

  /** Without the entry in the middle, the map is the same but for its key. */
  lemma ToMapMiddle<K(!new), V>(compare: (K, K) -> int, b: seq<Entry<K, V>>, e: Entry<K, V>, a: seq<Entry<K, V>>)
    requires TotalOrder(compare) && AllBelow(compare, b, e.key) && AllAbove(compare, a, e.key)
    ensures e.key !in ToMap(b + a) && ToMap(b + [e] + a) == ToMap(b + a)[e.key := e.value]
  {
    ToMapConcat(b, a);
    ToMapConcat(b, [e]);
    ToMapConcat(b + [e], a);
    ToMapOne(e);
    Absent(compare, b, e.key);
    Absent(compare, a, e.key);
    hide TotalOrder, AllBelow, AllAbove, ToMap;
    MergeMiddle(ToMap(b), e.key, e.value, ToMap(a));
  }

  lemma ToMapOne<K, V>(e: Entry<K, V>)
    ensures ToMap([e]) == map[e.key := e.value]
  {
    assert [e][..0] == [];
  }

  lemma MergeMiddle<K, V>(b: map<K, V>, k: K, v: V, a: map<K, V>)
    requires k !in b && k !in a
    ensures b + map[k := v] + a == (b + a)[k := v] && k !in b + a
  {
  }

  lemma Absent<K(!new), V>(compare: (K, K) -> int, s: seq<Entry<K, V>>, key: K)
    requires TotalOrder(compare) && (AllBelow(compare, s, key) || AllAbove(compare, s, key))
    ensures key !in ToMap(s)
  {
    ToMapKeys(s, key);
  }

  /** Sortedness of a sequence and of its parts. */
  lemma SortedSplit<K(!new), V>(compare: (K, K) -> int, b: seq<Entry<K, V>>, e: Entry<K, V>, a: seq<Entry<K, V>>)
    requires TotalOrder(compare)
    ensures Sorted(compare, b + [e] + a) <==>
              Sorted(compare, b) && Sorted(compare, a) && AllBelow(compare, b, e.key) && AllAbove(compare, a, e.key)
  {
    if Sorted(compare, b + [e] + a) { SortedAround(compare, b, e, a); }
    else if Sorted(compare, b) && Sorted(compare, a) && AllBelow(compare, b, e.key) && AllAbove(compare, a, e.key) {
      SortedJoined(compare, b, e, a);
    }
  }

  lemma SortedAround<K(!new), V>(compare: (K, K) -> int, b: seq<Entry<K, V>>, e: Entry<K, V>, a: seq<Entry<K, V>>)
    requires TotalOrder(compare) && Sorted(compare, b + [e] + a)
    ensures Sorted(compare, b) && Sorted(compare, a) && AllBelow(compare, b, e.key) && AllAbove(compare, a, e.key)
  {
    var s := b + [e] + a;
    forall i, j | 0 <= i < j < |b| ensures compare(b[i].key, b[j].key) < 0 { assert s[i] == b[i] && s[j] == b[j]; }
    forall i, j | 0 <= i < j < |a|
      ensures compare(a[i].key, a[j].key) < 0
    {
      assert s[|b| + 1 + i] == a[i] && s[|b| + 1 + j] == a[j];
    }
    forall i | 0 <= i < |b| ensures compare(b[i].key, e.key) < 0 { assert s[i] == b[i] && s[|b|] == e; }
    forall i | 0 <= i < |a| ensures compare(a[i].key, e.key) > 0 { assert s[|b| + 1 + i] == a[i] && s[|b|] == e; }
  }

  lemma Transitive<K(!new)>(compare: (K, K) -> int, x: K, y: K, z: K)
    requires TotalOrder(compare) && compare(z, y) > 0 && (compare(x, y) < 0 || x == y)
    ensures compare(x, z) < 0
  {
  }

  lemma SortedJoined<K(!new), V>(compare: (K, K) -> int, b: seq<Entry<K, V>>, e: Entry<K, V>, a: seq<Entry<K, V>>)
    requires TotalOrder(compare)
    requires Sorted(compare, b) && Sorted(compare, a) && AllBelow(compare, b, e.key) && AllAbove(compare, a, e.key)
    ensures Sorted(compare, b + [e] + a)
  {
    hide TotalOrder;
    var s := b + [e] + a;
    forall i, j | 0 <= i < j < |s| ensures compare(s[i].key, s[j].key) < 0 {
      if |b| < j { Transitive(compare, if i < |b| then b[i].key else e.key, e.key, a[j - |b| - 1].key); }
    }
  }

  lemma SortedParts<K, V>(compare: (K, K) -> int, b: seq<Entry<K, V>>, a: seq<Entry<K, V>>)
    requires Sorted(compare, b + a)
    ensures Sorted(compare, b) && Sorted(compare, a)
  {
    var s := b + a;
    forall i, j | 0 <= i < j < |b| ensures compare(b[i].key, b[j].key) < 0 { assert s[i] == b[i] && s[j] == b[j]; }
    forall i, j | 0 <= i < j < |a|
      ensures compare(a[i].key, a[j].key) < 0
    {
      assert s[|b| + i] == a[i] && s[|b| + j] == a[j];
    }
  }

  lemma SortedWithout<K(!new), V>(compare: (K, K) -> int, b: seq<Entry<K, V>>, e: Entry<K, V>, a: seq<Entry<K, V>>)
    requires TotalOrder(compare) && Sorted(compare, b + [e] + a)
    ensures Sorted(compare, b + a)
  {
    SortedSplit(compare, b, e, a);
  }

  /** An entry on one side of a key has everything beyond it on that side. */
  lemma Beyond<K(!new), V>(compare: (K, K) -> int, b: seq<Entry<K, V>>, e: Entry<K, V>, a: seq<Entry<K, V>>, key: K)
    requires TotalOrder(compare) && Sorted(compare, b + [e] + a)
    ensures compare(key, e.key) > 0 ==> AllBelow(compare, b + [e], key)
    ensures compare(key, e.key) < 0 ==> AllAbove(compare, [e] + a, key)
  {
    SortedSplit(compare, b, e, a);
    hide Sorted;
    if compare(key, e.key) > 0 {
      forall i | 0 <= i < |b + [e]| ensures compare((b + [e])[i].key, key) < 0 {
        if i < |b| { assert compare(b[i].key, e.key) < 0; }
      }
    }
    if compare(key, e.key) < 0 {
      forall i | 0 <= i < |[e] + a| ensures compare(([e] + a)[i].key, key) > 0 {
        if i > 0 { assert compare(a[i - 1].key, e.key) > 0; }
      }
    }
  }

  /** A sorted sequence has as many entries as its map. */
  lemma {:induction false} ToMapSize<K(!new), V>(compare: (K, K) -> int, s: seq<Entry<K, V>>)
    requires TotalOrder(compare) && Sorted(compare, s)
    ensures |ToMap(s)| == |s|
  {
    if s != [] {
      var r, l := s[..|s| - 1], s[|s| - 1];
      ToMapSize(compare, r);
      assert AllBelow(compare, r, l.key);
      Absent(compare, r, l.key);
      assert ToMap(s).Keys == ToMap(r).Keys + {l.key};
    }
  }

  /** Dropping an entry of a sorted sequence removes its key from the map. */
  lemma Dropped<K(!new), V>(compare: (K, K) -> int, b: seq<Entry<K, V>>, e: Entry<K, V>, a: seq<Entry<K, V>>)
    requires TotalOrder(compare) && Sorted(compare, b + [e] + a)
    ensures Sorted(compare, b + a) && ToMap(b + a) == ToMap(b + [e] + a) - {e.key} && |b + a| == |ToMap(b + a)|
  {
    hide Sorted, ToMap, AllBelow, AllAbove, TotalOrder;
    SortedSplit(compare, b, e, a);
    SortedWithout(compare, b, e, a);
    ToMapMiddle(compare, b, e, a);
    ToMapSize(compare, b + a);
  }

  /** Another value in the middle is an update of the map. */
  lemma Overwritten<K(!new), V>(compare: (K, K) -> int, b: seq<Entry<K, V>>, e: Entry<K, V>, v: V, a: seq<Entry<K, V>>)
    requires TotalOrder(compare) && Sorted(compare, b + [e] + a)
    ensures var s := b + [Entry(e.key, v)] + a;
            Sorted(compare, s) && ToMap(s) == ToMap(b + [e] + a)[e.key := v] && |s| == |ToMap(s)|
  {
    hide Sorted, ToMap, AllBelow, AllAbove, TotalOrder;
    var e' := Entry(e.key, v);
    SortedSplit(compare, b, e, a);
    SortedSplit(compare, b, e', a);
    ToMapMiddle(compare, b, e, a);
    ToMapMiddle(compare, b, e', a);
    ToMapSize(compare, b + [e'] + a);
  }

  /** Another entry in the middle is an update of the map. */
  lemma Inserted<K(!new), V>(compare: (K, K) -> int, b: seq<Entry<K, V>>, e: Entry<K, V>, a: seq<Entry<K, V>>)
    requires TotalOrder(compare) && Sorted(compare, b + a) && AllBelow(compare, b, e.key) && AllAbove(compare, a, e.key)
    ensures var s := b + [e] + a; Sorted(compare, s) && ToMap(s) == ToMap(b + a)[e.key := e.value] && |s| == |ToMap(s)|
  {
    hide Sorted, ToMap, AllBelow, AllAbove, TotalOrder;
    SortedParts(compare, b, a);
    SortedSplit(compare, b, e, a);
    ToMapMiddle(compare, b, e, a);
    ToMapSize(compare, b + [e] + a);
  }

  // ---- The nearest keys

  /** `best` is the greatest key of the map not above `key`. */
  ghost predicate IsFloor<K(!new), V>(compare: (K, K) -> int, m: map<K, V>, best: K, key: K)
  {
    best in m && compare(best, key) <= 0 && forall k :: k in m && compare(k, key) <= 0 ==> compare(k, best) <= 0
  }

  /** `best` is the least key of the map not below `key`. */
  ghost predicate IsCeiling<K(!new), V>(compare: (K, K) -> int, m: map<K, V>, best: K, key: K)
  {
    best in m && compare(best, key) >= 0 && forall k :: k in m && compare(k, key) >= 0 ==> compare(k, best) >= 0
  }

  /** A key of a sorted sequence is not beyond its ends. */
  lemma WithinEnds<K(!new), V>(compare: (K, K) -> int, s: seq<Entry<K, V>>, k: K)
    requires TotalOrder(compare) && Sorted(compare, s) && k in ToMap(s)
    ensures s != [] && compare(k, s[|s| - 1].key) <= 0 && compare(k, s[0].key) >= 0
    ensures exists i :: 0 <= i < |s| && s[i].key == k
  {
    ToMapKeys(s, k);
    hide ToMap;
    var i :| 0 <= i < |s| && s[i].key == k;
    assert i < |s| - 1 ==> compare(s[i].key, s[|s| - 1].key) < 0;
    assert i > 0 ==> compare(s[0].key, s[i].key) < 0;
  }

  /** Every key below `key` or above it, and on its side not beyond the nearest entry. */
  ghost predicate Nearest<K, V>(compare: (K, K) -> int, b: seq<Entry<K, V>>, a: seq<Entry<K, V>>, key: K, k: K)
  {
    || (compare(k, key) < 0 && b != [] && compare(k, b[|b| - 1].key) <= 0)
    || (compare(k, key) > 0 && a != [] && compare(k, a[0].key) >= 0)
  }

  lemma NearestEntry<K(!new), V>(compare: (K, K) -> int, b: seq<Entry<K, V>>, a: seq<Entry<K, V>>, key: K, k: K)
    requires TotalOrder(compare) && Sorted(compare, b) && Sorted(compare, a) && AllBelow(compare, b, key)
    requires AllAbove(compare, a, key)
    requires k in ToMap(b + a)
    ensures Nearest(compare, b, a, key, k)
  {
    ToMapConcat(b, a);
    hide ToMap, Sorted;
    if k in ToMap(b) { WithinEnds(compare, b, k); } else { WithinEnds(compare, a, k); }
  }

  lemma FloorEntry<K(!new), V>(compare: (K, K) -> int, b: seq<Entry<K, V>>, a: seq<Entry<K, V>>, key: K)
    requires TotalOrder(compare) && Sorted(compare, b + a) && AllBelow(compare, b, key) && AllAbove(compare, a, key)
    ensures b == [] ==> forall k :: k in ToMap(b + a) ==> compare(k, key) > 0
    ensures forall e :: Ends(b, e) ==>
              && IsFloor(compare, ToMap(b + a), e.key, key) && ToMap(b + a)[e.key] == e.value
              && compare(e.key, key) <= 0
  {
    SortedParts(compare, b, a);
    forall k | k in ToMap(b + a) ensures Nearest(compare, b, a, key, k) { NearestEntry(compare, b, a, key, k); }
    if b != [] {
      assert (b + a)[|b| - 1] == b[|b| - 1] && compare(b[|b| - 1].key, key) < 0;
      ToMapAt(compare, b + a, |b| - 1);
    }
    hide TotalOrder, ToMap, Sorted, AllBelow, AllAbove;
  }

  lemma CeilingEntry<K(!new), V>(compare: (K, K) -> int, b: seq<Entry<K, V>>, a: seq<Entry<K, V>>, key: K)
    requires TotalOrder(compare) && Sorted(compare, b + a) && AllBelow(compare, b, key) && AllAbove(compare, a, key)
    ensures a == [] ==> forall k :: k in ToMap(b + a) ==> compare(k, key) < 0
    ensures forall e :: Begins(a, e) ==>
              && IsCeiling(compare, ToMap(b + a), e.key, key) && ToMap(b + a)[e.key] == e.value
              && compare(e.key, key) >= 0
  {
    SortedParts(compare, b, a);
    forall k | k in ToMap(b + a) ensures Nearest(compare, b, a, key, k) { NearestEntry(compare, b, a, key, k); }
    if a != [] {
      assert (b + a)[|b|] == a[0] && compare(a[0].key, key) > 0;
      ToMapAt(compare, b + a, |b|);
    }
    hide TotalOrder, ToMap, Sorted, AllBelow, AllAbove;
  }
}
