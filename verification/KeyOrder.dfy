/**
 Map iteration and sorted keys.

 Go ranges over a map in an arbitrary order.  The controller therefore collects
 the keys and sorts them before it builds anything whose order is observable.
 This module proves that the sorted enumeration of a key set is unique, so the
 order in which the map yields its keys cannot be seen in the result.
 */
module KeyOrder {

  /** Go's string order: lexicographic, the shorter string first. */
  predicate Before(a: string, b: string) {
    || a == ""
    || (b != "" && (a[0] < b[0] || (a[0] == b[0] && Before(a[1..], b[1..]))))
  }

  lemma {:induction false} BeforeTotal(a: string, b: string)
    ensures Before(a, b) || Before(b, a)
  {
    if a != "" && b != "" && a[0] == b[0] {
      BeforeTotal(a[1..], b[1..]);
    }
  }

  lemma {:induction false} BeforeAntisymmetric(a: string, b: string)
    requires Before(a, b) && Before(b, a)
    ensures a == b
  {
    if a != "" {
      BeforeAntisymmetric(a[1..], b[1..]);
      assert a == [a[0]] + a[1..] && b == [b[0]] + b[1..];
    }
  }

  lemma {:induction false} BeforeTransitive(a: string, b: string, c: string)
    requires Before(a, b) && Before(b, c)
    ensures Before(a, c)
  {
    if a != "" && a[0] == b[0] && b[0] == c[0] {
      BeforeTransitive(a[1..], b[1..], c[1..]);
    }
  }

  predicate Sorted(s: seq<string>) {
    forall i, j {:trigger Before(s[i], s[j])} :: 0 <= i < j < |s| ==> Before(s[i], s[j])
  }

  predicate Distinct<T(==)>(s: seq<T>) {
    forall i, j :: 0 <= i < j < |s| ==> s[i] != s[j]
  }

  /** s lists every element of keys exactly once. */
  predicate Enumerates<T(==)>(s: seq<T>, keys: set<T>) {
    Distinct(s) && (forall k | k in s :: k in keys) && forall k | k in keys :: k in s
  }

  predicate IsSortedEnumeration(s: seq<string>, keys: set<string>) {
    Sorted(s) && Enumerates(s, keys)
  }

  /** There is at most one sorted enumeration of a set of keys. */
  lemma {:induction false} SortedEnumerationUnique(s: seq<string>, t: seq<string>, keys: set<string>)
    requires IsSortedEnumeration(s, keys) && IsSortedEnumeration(t, keys)
    ensures s == t
    decreases |s|
  {
    assert s != [] ==> s[0] in keys;
    assert t != [] ==> t[0] in keys;
    if s != [] && t != [] {
      var i :| 0 <= i < |t| && t[i] == s[0];
      var j :| 0 <= j < |s| && s[j] == t[0];
      if i > 0 && j > 0 {
        BeforeAntisymmetric(s[0], t[0]);
      }
      assert s[0] == t[0];
      TailEnumerates(s, keys);
      TailEnumerates(t, keys);
      SortedEnumerationUnique(s[1..], t[1..], keys - {s[0]});
      assert s == [s[0]] + s[1..] && t == [t[0]] + t[1..];
    }
  }

  lemma TailEnumerates(s: seq<string>, keys: set<string>)
    requires s != [] && IsSortedEnumeration(s, keys)
    ensures IsSortedEnumeration(s[1..], keys - {s[0]})
  {
    forall k | k in keys - {s[0]} ensures k in s[1..] {
      var i :| 0 <= i < |s| && s[i] == k;
      assert s[1..][i - 1] == k;
    }
  }

  /** sort.Strings, as a function on values. */
  function SortStrings(s: seq<string>): (r: seq<string>)
    ensures Sorted(r) && multiset(r) == multiset(s)
  {
    if s == [] then [] else
      assert s == [s[0]] + s[1..];
      Insert(s[0], SortStrings(s[1..]))
  }

  function Insert(x: string, s: seq<string>): (r: seq<string>)
    requires Sorted(s)
    ensures Sorted(r) && multiset(r) == multiset(s) + multiset{x}
  {
    if s == [] then [x]
    else if Before(x, s[0]) then
      InsertFront(x, s);
      [x] + s
    else
      BeforeTotal(x, s[0]);
      assert s == [s[0]] + s[1..];
      var r := Insert(x, s[1..]);
      SortedCons(s[0], x, s[1..], r);
      [s[0]] + r
  }

  lemma InsertFront(x: string, s: seq<string>)
    requires s != [] && Sorted(s) && Before(x, s[0])
    ensures Sorted([x] + s)
  {
    forall j | 0 < j < |s| ensures Before(x, s[j]) {
      BeforeTransitive(x, s[0], s[j]);
    }
  }

  lemma SortedCons(h: string, x: string, s: seq<string>, r: seq<string>)
    requires Sorted(r) && Before(h, x) && (forall k :: k in s ==> Before(h, k))
    requires multiset(r) == multiset(s) + multiset{x}
    ensures Sorted([h] + r)
  {
    forall j | 0 <= j < |r| ensures Before(h, r[j]) {
      assert r[j] in multiset(r);
    }
  }

  /** The sorted keys of a set: by SortedEnumerationUnique, the only ones. */
  ghost function SortedKeys(keys: set<string>): (s: seq<string>)
    ensures IsSortedEnumeration(s, keys)
  {
    SortedEnumerationExists(keys);
    var s :| IsSortedEnumeration(s, keys);
    s
  }

  lemma SortedEnumerationExists(keys: set<string>)
    ensures exists s :: IsSortedEnumeration(s, keys)
  {
    var order := ListOf(keys);
    SortEnumerates(order, keys);
  }

  lemma {:induction false} ListOf<T>(keys: set<T>) returns (s: seq<T>)
    ensures Enumerates(s, keys)
  {
    if keys == {} {
      s := [];
    } else {
      var k :| k in keys;
      s := ListOf(keys - {k});
      s := [k] + s;
    }
  }

  lemma SortEnumerates(order: seq<string>, keys: set<string>)
    requires Enumerates(order, keys)
    ensures IsSortedEnumeration(SortStrings(order), keys)
  {
    var s := SortStrings(order);
    DistinctMultiset(order);
    MultisetDistinct(s);
    forall k ensures k in s <==> k in order {
      assert k in s <==> k in multiset(s);
      assert k in order <==> k in multiset(order);
    }
  }

  lemma {:induction false} DistinctMultiset(s: seq<string>)
    requires Distinct(s)
    ensures forall k :: multiset(s)[k] <= 1
  {
    if s != [] {
      DistinctMultiset(s[1..]);
      assert s == [s[0]] + s[1..];
      assert s[0] !in s[1..];
    }
  }

  lemma MultisetDistinct<T>(s: seq<T>)
    requires forall k :: multiset(s)[k] <= 1
    ensures Distinct(s)
  {
    forall i, j | 0 <= i < j < |s| && s[i] == s[j] ensures false {
      RepeatCountsTwice(s, i, j);
    }
  }

  lemma RepeatCountsTwice<T>(s: seq<T>, i: nat, j: nat)
    requires i < j < |s| && s[i] == s[j]
    ensures multiset(s)[s[i]] >= 2
  {
    assert s == s[..j] + [s[j]] + s[j + 1..];
    assert s[..j][i] in multiset(s[..j]);
  }

  // ----- Scanning an enumeration from the front -----

  function Elements<T(==)>(s: seq<T>): set<T> {
    set k | k in s
  }

  lemma NextKey<T>(s: seq<T>, keys: set<T>, i: nat)
    requires Enumerates(s, keys) && i < |s|
    ensures s[i] in keys && s[i] !in Elements(s[..i])
    ensures Elements(s[..i + 1]) == Elements(s[..i]) + {s[i]}
  {
    assert s[..i + 1] == s[..i] + [s[i]];
  }

  lemma AllKeys<T>(s: seq<T>, keys: set<T>)
    requires Enumerates(s, keys)
    ensures Elements(s[..|s|]) == keys
  {
    assert s[..|s|] == s;
  }

  /** getSortedKeys: whatever order the map yields its keys in, the result is the same. */
  method GetSortedKeys<V>(m: map<string, V>) returns (keys: seq<string>)
    ensures keys == SortedKeys(m.Keys)
  {
    keys := [];
    var rest := m.Keys;
    while rest != {}
      invariant rest <= m.Keys
      invariant Enumerates(keys, m.Keys - rest)
      decreases |rest|
    {
      var key :| key in rest;
      keys := keys + [key];
      rest := rest - {key};
    }
    SortEnumerates(keys, m.Keys);
    keys := SortStrings(keys);
    SortedEnumerationUnique(keys, SortedKeys(m.Keys), m.Keys);
  }

  /** StringMapsMatch decides equality of the two maps: the length test plus one inclusion suffices. */
  method StringMapsMatch(map1: map<string, string>, map2: map<string, string>) returns (matches: bool)
    ensures matches <==> map1 == map2
  {
    if |map1| != |map2| {
      return false;
    }
    var rest := map1.Keys;
    while rest != {}
      invariant rest <= map1.Keys
      invariant forall k :: k in map1 && k !in rest ==> k in map2 && map2[k] == map1[k]
      decreases |rest|
    {
      var key :| key in rest;
      if key !in map2 || map2[key] != map1[key] {
        return false;
      }
      rest := rest - {key};
    }
    SubmapOfEqualSize(map1, map2);
    return true;
  }

  lemma SubmapOfEqualSize<K, V>(a: map<K, V>, b: map<K, V>)
    requires |a| == |b| && forall k :: k in a ==> k in b && b[k] == a[k]
    ensures a == b
  {
    assert a.Keys <= b.Keys && |a.Keys| == |a| && |b.Keys| == |b|;
    if exists k :: k in b && k !in a {
      var k :| k in b && k !in a;
      SubsetSize(a.Keys, b.Keys - {k});
    }
  }

  lemma {:induction false} SubsetSize<K>(s: set<K>, t: set<K>)
    requires s <= t
    ensures |s| <= |t|
    decreases s
  {
    if s != {} {
      var x :| x in s;
      SubsetSize(s - {x}, t - {x});
    }
  }

  /** contains: membership, by a scan that only reads. */
  method Contains(s: seq<string>, str: string) returns (found: bool)
    ensures found <==> str in s
  {
    for i := 0 to |s|
      invariant str !in s[..i]
    {
      if s[i] == str {
        return true;
      }
    }
    return false;
  }
}
