/** Loops over sorted keys that append one item per key. */
module KeyLoops {
  import opened Options
  import opened KeyOrder

  /** One item per key, in the order of keys. */
  function MapKeys<V, R>(m: map<string, V>, keys: seq<string>, item: (string, V) -> R): (r: seq<R>)
    requires forall k :: k in keys ==> k in m
    ensures |r| == |keys|
  {
    seq(|keys|, i requires 0 <= i < |keys| => assert keys[i] in keys; item(keys[i], m[keys[i]]))
  }

  /** One item per key of m, in sorted order: the outcome does not depend on any iteration order. */
  ghost function MapSorted<V, R>(m: map<string, V>, item: (string, V) -> R): (r: seq<R>)
    ensures |r| == |SortedKeys(m.Keys)|
  {
    MapKeys(m, SortedKeys(m.Keys), item)
  }

  lemma MapSortedItem<V, R>(m: map<string, V>, item: (string, V) -> R, i: nat)
    requires i < |SortedKeys(m.Keys)|
    ensures SortedKeys(m.Keys)[i] in m && MapSorted(m, item)[i] == item(SortedKeys(m.Keys)[i], m[SortedKeys(m.Keys)[i]])
  {
    assert SortedKeys(m.Keys)[i] in m.Keys;
  }

  lemma MapSortedAt<V, R>(m: map<string, V>, item: (string, V) -> R, x: R)
    ensures x in MapSorted(m, item) <==> exists k :: k in m && x == item(k, m[k])
  {
    var keys := SortedKeys(m.Keys);
    if x in MapSorted(m, item) {
      var i :| 0 <= i < |keys| && MapSorted(m, item)[i] == x;
      assert keys[i] in m.Keys;
    }
    if exists k :: k in m && x == item(k, m[k]) {
      var k :| k in m && x == item(k, m[k]);
      assert k in m.Keys;
      var i :| 0 <= i < |keys| && keys[i] == k;
      assert MapSorted(m, item)[i] == x;
    }
  }

  /** The append loop the compilers share. */
  method AppendPerKey<V, R>(m: map<string, V>, item: (string, V) -> R) returns (items: seq<R>)
    ensures items == MapSorted(m, item)
  {
    var keys := GetSortedKeys(m);
    assert forall i :: 0 <= i < |keys| ==> keys[i] in m.Keys;
    items := AppendItems(m, keys, item);
  }

  method AppendItems<V, R>(m: map<string, V>, keys: seq<string>, item: (string, V) -> R) returns (items: seq<R>)
    requires forall k :: k in keys ==> k in m
    ensures items == MapKeys(m, keys, item)
  {
    items := [];
    for i := 0 to |keys|
      invariant items == MapKeys(m, keys, item)[..i]
    {
      items := items + [item(keys[i], m[keys[i]])];
    }
  }

  /** The first key a loop would fail on. */
  function FirstWhere<V>(m: map<string, V>, keys: seq<string>, bad: V -> bool): (r: Option<string>)
    requires forall k :: k in keys ==> k in m
    ensures r == None <==> forall k :: k in keys ==> !bad(m[k])
    ensures r.Some? ==> r.value in keys && bad(m[r.value])
  {
    if keys == [] then None
    else if bad(m[keys[0]]) then Some(keys[0])
    else FirstWhere(m, keys[1..], bad)
  }

  ghost function FirstSorted<V>(m: map<string, V>, bad: V -> bool): (r: Option<string>)
    ensures r == None <==> forall k :: k in m ==> !bad(m[k])
    ensures r.Some? ==> r.value in m && bad(m[r.value])
  {
    FirstWhere(m, SortedKeys(m.Keys), bad)
  }

  method FindBadKey<V>(m: map<string, V>, bad: V -> bool) returns (r: Option<string>)
    ensures r == FirstSorted(m, bad)
  {
    var keys := GetSortedKeys(m);
    assert keys[0..] == keys;
    for i := 0 to |keys|
      invariant forall k :: k in keys[i..] ==> k in m.Keys
      invariant FirstWhere(m, keys[i..], bad) == FirstSorted(m, bad)
    {
      assert keys[i] in m.Keys;
      if bad(m[keys[i]]) {
        return Some(keys[i]);
      }
      assert keys[i..][1..] == keys[i + 1..];
    }
    return None;
  }
}
