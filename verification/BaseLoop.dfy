/** The base controller's loop over the bundles that name the base. */
module BaseLoop {
  import opened Options
  import opened LockOrder
  import opened LockScripts
  import opened StateCache

  datatype Listed = Listed(name: string, namespace: string, base: Option<string>)

  predicate Names(ab: Listed, base: string) {
    ab.base == Some(base)
  }

  function IdOf(ab: Listed): string {
    Id(ab.name, ab.namespace)
  }

  /** The bundles among items that name the base, in order. */
  function Dependents(items: seq<Listed>, base: string): seq<BundleName> {
    if items == [] then []
    else
      var n := |items| - 1;
      Dependents(items[..n], base) + if Names(items[n], base) then [BundleName(items[n].name, items[n].namespace)]
        else []
  }

  function DependentIds(items: seq<Listed>, base: string): set<string> {
    set i | 0 <= i < |items| && Names(items[i], base) :: IdOf(items[i])
  }

  /** The table with the hashes of some entries emptied. */
  function Invalidated(v: map<string, Entry>, ids: set<string>): map<string, Entry> {
    map id | id in v :: if id in ids then Entry("", v[id].last) else v[id]
  }

  datatype LoopEnd = AllVisited | NotYetRegistered | StatusUpdateFailed

  lemma {:induction false} VisitsConcat(a: seq<BundleName>, b: seq<BundleName>)
    ensures Visits(a + b) == Visits(a) + Visits(b)
    decreases |a|
  {
    if a == [] {
      assert a + b == b;
    } else {
      assert (a + b)[1..] == a[1..] + b;
      VisitsConcat(a[1..], b);
    }
  }

  /** One more item. */
  lemma OneMore(items: seq<Listed>, n: nat, base: string, v: map<string, Entry>)
    requires n < |items|
    ensures Names(items[n], base) ==>
      Visits(Dependents(items[..n + 1], base))
        == Visits(Dependents(items[..n], base)) + Visit(BundleName(items[n].name, items[n].namespace))
    ensures Names(items[n], base) ==>
      DependentIds(items[..n + 1], base) == DependentIds(items[..n], base) + {IdOf(items[n])}
    ensures !Names(items[n], base) ==>
      Dependents(items[..n + 1], base) == Dependents(items[..n], base)
      && DependentIds(items[..n + 1], base) == DependentIds(items[..n], base)
  {
    assert items[..n + 1][..n] == items[..n];
    assert forall i :: 0 <= i < n ==> items[..n + 1][i] == items[..n][i];
    if Names(items[n], base) {
      var one := [BundleName(items[n].name, items[n].namespace)];
      VisitsConcat(Dependents(items[..n], base), one);
      assert Visits(one) == Visit(one[0]) + Visits(one[1..]) == Visit(one[0]);
    }
    OneMoreId(items, n, base);
  }

  lemma OneMoreId(items: seq<Listed>, n: nat, base: string)
    requires n < |items|
    ensures DependentIds(items[..n + 1], base)
         == DependentIds(items[..n], base) + if Names(items[n], base) then {IdOf(items[n])} else {}
  {
    var a, b := items[..n + 1], items[..n];
    forall id | id in DependentIds(a, base)
      ensures id in DependentIds(b, base) || (Names(items[n], base) && id == IdOf(items[n])) {
      var i :| 0 <= i < |a| && Names(a[i], base) && id == IdOf(a[i]);
      if i < n { assert b[i] == a[i]; }
    }
    forall id | id in DependentIds(b, base) ensures id in DependentIds(a, base) {
      var i :| 0 <= i < |b| && Names(b[i], base) && id == IdOf(b[i]);
      assert a[i] == b[i];
    }
    if Names(items[n], base) { assert a[n] == items[n]; }
  }

  lemma NothingVisited(v: map<string, Entry>, items: seq<Listed>, base: string)
    ensures Invalidated(v, DependentIds(items[..0], base)) == v
    ensures Visits(Dependents(items[..0], base)) == []
  {
  }

  lemma InvalidateOne(v: map<string, Entry>, ids: set<string>, id: string)
    ensures id in v ==>
      Invalidated(v, ids + {id}) == Invalidated(v, ids)[id := Entry("", Invalidated(v, ids)[id].last)]
    ensures id !in v ==> Invalidated(v, ids + {id}) == Invalidated(v, ids)
  {
  }

  /** The loop went past item i: it does not name the base, or its hash was emptied and its status written. */
  predicate Passed(items: seq<Listed>, statusFails: seq<bool>, base: string, v: map<string, Entry>, i: nat)
    requires i < |items| == |statusFails|
  {
    Names(items[i], base) ==> IdOf(items[i]) in v && !statusFails[i]
  }

  /** One dependent, under its own mutex mu, looked up just before; AllVisited means that the loop goes on. */
  method VisitDependent(cache: Cache, ab: Listed, mu: Mutex, statusFails: bool)
    returns (end: LoopEnd, acts: seq<LockAct>)
    requires cache.Valid() && mu == Of(BUNDLE, ab.name, ab.namespace)
    modifies cache`history, cache.state.Values
    ensures cache.Valid() && cache.state == old(cache.state)
    ensures acts == Visit(BundleName(ab.name, ab.namespace))
    ensures end == if IdOf(ab) !in old(cache.View()) then NotYetRegistered
                   else if statusFails then StatusUpdateFailed else AllVisited
    ensures cache.View() == if IdOf(ab) in old(cache.View())
      then old(cache.View())[IdOf(ab) := Entry("", old(cache.View())[IdOf(ab)].last)] else old(cache.View())
  {
    acts := TakeNamed(mu);
    var stateAb := cache.GetState(App(ab.name, ab.namespace, None, None));
    acts := acts + CACHE_CALL;
    if stateAb == None {
      acts := acts + [Give(mu)];
      return NotYetRegistered, acts;
    }
    cache.ResetHash(IdOf(ab), stateAb.value);
    acts := acts + [Give(mu)];
    return if statusFails then StatusUpdateFailed else AllVisited, acts;
  }

  /** Item n of the loop. */
  method VisitItem(
    cache: Cache, base: string, items: seq<Listed>, n: nat, statusFails: seq<bool>, ghost start: map<string, Entry>)
    returns (end: LoopEnd, acts: seq<LockAct>)
    requires cache.Valid() && n < |items| == |statusFails|
    requires cache.View() == Invalidated(start, DependentIds(items[..n], base))
    modifies cache`history, cache.state.Values
    ensures cache.Valid() && cache.state == old(cache.state)
    ensures cache.View() == Invalidated(start, DependentIds(items[..n + 1], base))
    ensures Visits(Dependents(items[..n], base)) + acts == Visits(Dependents(items[..n + 1], base))
    ensures end == AllVisited <==> Passed(items, statusFails, base, start, n)
    ensures end == NotYetRegistered ==> Names(items[n], base) && IdOf(items[n]) !in start
    ensures end == StatusUpdateFailed ==> Names(items[n], base) && IdOf(items[n]) in start && statusFails[n]
  {
    var ab := items[n];
    OneMore(items, n, base, start);
    assert cache.View().Keys == start.Keys;
    if ab.base != None && ab.base.value == base {
      InvalidateOne(start, DependentIds(items[..n], base), IdOf(ab));
      var mu := Of(BUNDLE, ab.name, ab.namespace);
      end, acts := VisitDependent(cache, ab, mu, statusFails[n]);
    } else {
      end, acts := AllVisited, [];
    }
  }

  /**
   Takes each dependent's mutex, empties its cached hash through the shared state
   object, writes its status and gives the mutex back.  It returns early at the
   first dependent that is not registered or whose status cannot be written;
   statusFails says which writes fail.
   */
  method InvalidateDependents(cache: Cache, base: string, items: seq<Listed>, statusFails: seq<bool>)
    returns (end: LoopEnd, visited: nat, acts: seq<LockAct>)
    requires cache.Valid() && |items| == |statusFails|
    modifies cache`history, cache.state.Values
    ensures cache.Valid() && cache.state == old(cache.state) && visited <= |items|
    ensures cache.View() == Invalidated(old(cache.View()), DependentIds(items[..visited], base))
    ensures acts == Visits(Dependents(items[..visited], base))
    ensures end == AllVisited ==>
      visited == |items| && forall i :: 0 <= i < |items| ==> Passed(items, statusFails, base, old(cache.View()), i)
    ensures end != AllVisited ==>
      && visited > 0 && Names(items[visited - 1], base)
      && (forall i :: 0 <= i < visited - 1 ==> Passed(items, statusFails, base, old(cache.View()), i))
      && (if end == NotYetRegistered then IdOf(items[visited - 1]) !in old(cache.View())
          else IdOf(items[visited - 1]) in old(cache.View()) && statusFails[visited - 1])
  {
    visited, acts, end := 0, [], AllVisited;
    ghost var start := cache.View();
    NothingVisited(start, items, base);
    while visited < |items|
      invariant visited <= |items|
      invariant cache.Valid() && cache.state == old(cache.state)
      invariant cache.View() == Invalidated(start, DependentIds(items[..visited], base))
      invariant acts == Visits(Dependents(items[..visited], base))
      invariant forall i :: 0 <= i < visited ==> Passed(items, statusFails, base, start, i)
      invariant end == AllVisited
    {
      var taken;
      end, taken := VisitItem(cache, base, items, visited, statusFails, start);
      visited, acts := visited + 1, acts + taken;
      if end != AllVisited {
        return;
      }
    }
  }

  /** Exactly the visited dependents change: other bundles, and every base, keep their entries. */
  lemma OthersKeepTheirEntries(v: map<string, Entry>, items: seq<Listed>, base: string, name: string, namespace: string)
    requires NoUnderscore(name) && Id(name, namespace) in v
    requires forall i :: 0 <= i < |items| ==> NoUnderscore(items[i].name) && items[i].namespace != ""
    requires namespace == "" || forall i :: 0 <= i < |items| && Names(items[i], base) ==>
      items[i].name != name || items[i].namespace != namespace
    ensures Invalidated(v, DependentIds(items, base))[Id(name, namespace)] == v[Id(name, namespace)]
  {
    forall i | 0 <= i < |items| && Names(items[i], base) ensures IdOf(items[i]) != Id(name, namespace) {
      IdIsInjective(items[i].name, items[i].namespace, name, namespace);
    }
  }

  /**
   A base loop that went through all items leaves every listed bundle that names
   the base in need of an update, and it stays so, whatever is registered or
   invalidated later, until its own state is updated.
   */
  lemma DependentsNeedUpdating(
    v: map<string, Entry>, items: seq<Listed>, base: string, i: nat, history: seq<Event>, more: seq<Event>,
    hash: string, reconciledBefore: bool, now: int)
    requires i < |items| && Names(items[i], base) && IdOf(items[i]) in v && hash != ""
    requires Replay(history) == Invalidated(v, DependentIds(items, base)) && NeverUpdated(more, IdOf(items[i]))
    ensures IdOf(items[i]) in Replay(history + more)
    ensures NeedsUpdating(Replay(history + more)[IdOf(items[i])], hash, reconciledBefore, now)
  {
    var id := IdOf(items[i]);
    assert id in DependentIds(items, base);
    assert Replay(history)[id].hash == "";
    InvalidStaysInvalid(history, more, id);
  }
}
