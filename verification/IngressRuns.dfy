/** What one run of the ingress reconciler leaves behind. */
module IngressRuns {
  import opened Options
  import opened KeyOrder
  import opened Bundle
  import opened DeepDerivative
  import opened IngressCompiler
  import opened Api
  import opened Programs
  import opened SoloRuns

  function Labelled(ab: AppBundle, c: Cluster): set<Key> {
    Matching(c, IngressKind, Some(ab.namespace), ab.name)
  }

  ghost predicate Wanted(ab: AppBundle, k: Key) {
    exists key :: WantedKey(ab, key) && k == IngressKey(ab, key)
  }

  ghost predicate Current(ab: AppBundle, c: Cluster, key: string)
    requires RoutesReady(ab) && WantedKey(ab, key)
  {
    IngressKey(ab, key) in c && Derives(IngressObj(ab, key).spec, c[IngressKey(ab, key)].spec)
  }

  ghost predicate NoStray(ab: AppBundle, c: Cluster) {
    forall k :: k in Labelled(ab, c) ==> Wanted(ab, k)
  }

  /** Every ingress that carries the bundle's label is wanted, and every wanted one is there and up to date. */
  ghost predicate IngressDone(ab: AppBundle, c: Cluster)
    requires RoutesReady(ab)
  {
    && NoStray(ab, c)
    && forall key :: WantedKey(ab, key) ==> Current(ab, c, key)
  }

  /** Objects that are neither wanted nor labelled are never touched. */
  ghost predicate OthersUntouched(ab: AppBundle, c: Cluster, after: Cluster) {
    forall k :: !Wanted(ab, k) && k !in Labelled(ab, c) ==>
      (k in c <==> k in after) && (k in c ==> c[k] == after[k])
  }

  lemma OneTouched(ab: AppBundle, c: Cluster, mid: Cluster, k: Key)
    requires SameExcept(c, mid, {k}) && Wanted(ab, k)
    requires k in mid ==> (k in c && mid[k] == c[k]) || mid[k].labels == DefaultLabels(ab)
    ensures OwnWrites(ab, c, mid)
  {
    forall j: Key | j != k ensures (j in c <==> j in mid) && (j in c ==> c[j] == mid[j]) {
      Untouched(c, mid, {k}, j);
    }
  }

  lemma NameIsWanted(ab: AppBundle, k: Key)
    requires k.kind == IngressKind && k.namespace == ab.namespace
    ensures k.name in NamesOf(ab, WantedKeys(ab)) <==> Wanted(ab, k)
  {
    var keys := WantedKeys(ab);
    if Wanted(ab, k) {
      var key :| WantedKey(ab, key) && k == IngressKey(ab, key);
      assert key in keys;
      var i :| 0 <= i < |keys| && keys[i] == key;
      assert NamesOf(ab, keys)[i] == k.name;
    }
    if k.name in NamesOf(ab, keys) {
      var i :| 0 <= i < |keys| && NamesOf(ab, keys)[i] == k.name;
      assert keys[i] in keys;
      assert k == IngressKey(ab, keys[i]);
    }
  }

  /** What changed is wanted and carries the bundle's labels, and what is gone was wanted or carried its label. */
  ghost predicate OwnWrites(ab: AppBundle, c: Cluster, mid: Cluster) {
    forall j ::
      && (j in mid ==> (j in c && mid[j] == c[j]) || (Wanted(ab, j) && mid[j].labels == DefaultLabels(ab)))
      && (j in c && j !in mid ==> Wanted(ab, j) || j in Labelled(ab, c))
  }

  lemma OwnWritesTransitive(ab: AppBundle, a: Cluster, b: Cluster, c: Cluster)
    requires OwnWrites(ab, a, b) && OwnWrites(ab, b, c)
    ensures OwnWrites(ab, a, c)
  {
  }

  /** Every wanted ingress that is not among keys is up to date. */
  ghost predicate CurrentBut(ab: AppBundle, c: Cluster, keys: seq<string>)
    requires RoutesReady(ab)
  {
    forall key :: WantedKey(ab, key) && key !in keys ==> Current(ab, c, key)
  }

  /** One turn of the upsert loop. */
  lemma OneUpsert(
    ab: AppBundle, keys: seq<string>,
    c: Cluster, mode: Mode, trace: seq<Event>, after: Cluster, err: Option<ApiError>)
    returns (e: Option<ApiError>, mid: Cluster, rest: seq<Event>)
    requires RoutesReady(ab) && keys != [] && forall k :: k in keys ==> WantedKey(ab, k)
    requires Runs(UpsertIngresses(ab, keys), c, mode, trace, after, err)
    ensures Runs(if e.Some? then Ret(e) else UpsertIngresses(ab, keys[1..]), mid, mode, rest, after, err)
    ensures OwnWrites(ab, c, mid)
    ensures mode.Truthful? ==> e == None
    ensures e == None && CurrentBut(ab, c, keys) ==> CurrentBut(ab, mid, keys[1..])
    ensures mode.Truthful? && Current(ab, c, keys[0]) ==>
      mid == c && (Spares(UpsertIngresses(ab, keys[1..]), rest, Everywhere) ==>
        Spares(UpsertIngresses(ab, keys), trace, Everywhere))
  {
    var k, obj := IngressKey(ab, keys[0]), IngressObj(ab, keys[0]);
    var r, c1, t1 := FirstCall(UpsertIngresses(ab, keys), c, mode, trace, after, err);
    NoIngressNeverMatches(ExpectedIngress(ab, IngressName(ab, keys[0]), Entries(ab.spec.routes)[keys[0]]));
    assert UpsertIngresses(ab, keys).k(r) == IngressGot(ab, keys, r);
    assert Wanted(ab, k);
    if Derives(obj.spec, CurrentOr(r, ZERO_INGRESS).spec) {
      e, mid, rest := None, c1, t1;
    } else {
      e, mid, rest := UpsertRun(k, obj, ErrorOf(r), false, AfterIngress(ab, keys), c1, mode, t1, after, err);
      OneTouched(ab, c, mid, k);
      assert AfterIngress(ab, keys)(e) == if e.Some? then Ret(e) else UpsertIngresses(ab, keys[1..]);
      if e == None {
        StillCurrent(ab, keys, c, mid);
      }
    }
  }

  lemma {:induction false} UpsertLoopRun(
    ab: AppBundle, keys: seq<string>,
    c: Cluster, mode: Mode, trace: seq<Event>, after: Cluster, err: Option<ApiError>)
    requires RoutesReady(ab) && forall k :: k in keys ==> WantedKey(ab, k)
    requires Runs(UpsertIngresses(ab, keys), c, mode, trace, after, err)
    ensures OwnWrites(ab, c, after)
    ensures mode.Truthful? ==> err == None
    ensures err == None && NoStray(ab, c) && CurrentBut(ab, c, keys) ==> IngressDone(ab, after)
    ensures mode.Truthful? && IngressDone(ab, c) ==> after == c && Spares(UpsertIngresses(ab, keys), trace, Everywhere)
    decreases |keys|
  {
    if keys == [] {
      ReturnedRun(None, c, mode, trace, after, err);
    } else {
      var e, mid, rest := OneUpsert(ab, keys, c, mode, trace, after, err);
      if e.Some? {
        ReturnedRun(e, mid, mode, rest, after, err);
      } else {
        UpsertLoopRun(ab, keys[1..], mid, mode, rest, after, err);
        OwnWritesTransitive(ab, c, mid, after);
      }
    }
  }

  lemma StillCurrent(ab: AppBundle, keys: seq<string>, c: Cluster, mid: Cluster)
    requires RoutesReady(ab) && keys != [] && WantedKey(ab, keys[0])
    requires LeftAs(c, mid, IngressKey(ab, keys[0]), IngressObj(ab, keys[0]))
    requires IngressKey(ab, keys[0]) in mid && Admits(IngressObj(ab, keys[0]), mid[IngressKey(ab, keys[0])])
    ensures (forall key :: WantedKey(ab, key) && key !in keys ==> Current(ab, c, key))
        ==> forall key :: WantedKey(ab, key) && key !in keys[1..] ==> Current(ab, mid, key)
  {
    forall key | WantedKey(ab, key) && key != keys[0] && Current(ab, c, key) ensures Current(ab, mid, key) {
      if IngressName(ab, key) == IngressName(ab, keys[0]) {
        IngressNameInjective(ab, key, keys[0]);
      }
      Untouched(c, mid, {IngressKey(ab, keys[0])}, IngressKey(ab, key));
    }
    assert Current(ab, mid, keys[0]);
  }

  /** items holds every labelled ingress that is not wanted. */
  ghost predicate HoldsStrays(ab: AppBundle, c: Cluster, items: seq<Key>) {
    forall k :: k in Labelled(ab, c) && k !in items ==> Wanted(ab, k)
  }

  /** One turn of the deletion loop. */
  lemma OneDelete(
    ab: AppBundle, items: seq<Key>,
    c: Cluster, mode: Mode, trace: seq<Event>, after: Cluster, err: Option<ApiError>)
    returns (e: Option<ApiError>, mid: Cluster, rest: seq<Event>)
    requires RoutesReady(ab) && items != [] && items[0] in Labelled(ab, c)
    requires Runs(DeleteIngresses(ab, items), c, mode, trace, after, err)
    ensures Runs(if e.Some? then Ret(e) else DeleteIngresses(ab, items[1..]), mid, mode, rest, after, err)
    ensures mid == c || (mid == c - {items[0]} && !Wanted(ab, items[0]))
    ensures mode.Truthful? ==> e == None
    ensures e == None && !Wanted(ab, items[0]) ==> mid == c - {items[0]}
    ensures Wanted(ab, items[0]) && Spares(DeleteIngresses(ab, items[1..]), rest, Everywhere) ==>
      Spares(DeleteIngresses(ab, items), trace, Everywhere)
  {
    NameIsWanted(ab, items[0]);
    if items[0].name in NamesOf(ab, WantedKeys(ab)) {
      e, mid, rest := None, c, trace;
    } else {
      var d;
      d, mid, rest := FirstCall(DeleteIngresses(ab, items), c, mode, trace, after, err);
      e := ErrorOf(d);
    }
  }

  lemma {:induction false} DeleteLoopRun(
    ab: AppBundle, items: seq<Key>,
    c: Cluster, mode: Mode, trace: seq<Event>, after: Cluster, err: Option<ApiError>)
    requires RoutesReady(ab) && Distinct(items)
    requires forall k :: k in items ==> k in Labelled(ab, c)
    requires Runs(DeleteIngresses(ab, items), c, mode, trace, after, err)
    ensures OwnWrites(ab, c, after)
    ensures mode.Truthful? ==> err == None
    ensures err == None && HoldsStrays(ab, c, items) ==> IngressDone(ab, after)
    ensures mode.Truthful? && IngressDone(ab, c) ==> after == c && Spares(DeleteIngresses(ab, items), trace, Everywhere)
    decreases |items|
  {
    if items == [] {
      UpsertLoopRun(ab, WantedKeys(ab), c, mode, trace, after, err);
    } else {
      assert items[0] in items;
      assert forall k :: k in items[1..] ==> k in items && k != items[0];
      var e, mid, rest := OneDelete(ab, items, c, mode, trace, after, err);
      StrayDeleted(ab, items[0], c, mid);
      if e.Some? {
        ReturnedRun(e, mid, mode, rest, after, err);
      } else {
        DeleteLoopRun(ab, items[1..], mid, mode, rest, after, err);
        OwnWritesTransitive(ab, c, mid, after);
      }
    }
  }

  lemma StrayDeleted(ab: AppBundle, k: Key, c: Cluster, mid: Cluster)
    requires k in Labelled(ab, c) && (mid == c || mid == c - {k})
    ensures OwnWrites(ab, c, mid)
    ensures forall j :: j in Labelled(ab, c) && j != k ==> j in Labelled(ab, mid)
    ensures forall j :: j in Labelled(ab, mid) ==> j in Labelled(ab, c) && (mid != c ==> j != k)
  {
  }

  /**
   The ingress reconciler.  On any server it leaves other objects alone, and
   whenever it returns nil every labelled ingress is wanted and every wanted one
   current.  On a truthful server it does return nil, and when that held already it
   writes nothing.
   */
  lemma IngressRun(
    ab: AppBundle, c: Cluster, mode: Mode, trace: seq<Event>, after: Cluster, err: Option<ApiError>)
    requires RoutesReady(ab) && Runs(IngressProg(ab), c, mode, trace, after, err)
    ensures OwnWrites(ab, c, after) && OthersUntouched(ab, c, after)
    ensures err == None ==> IngressDone(ab, after)
    ensures mode.Truthful? ==> err == None
    ensures mode.Truthful? && IngressDone(ab, c) ==> after == c && Spares(IngressProg(ab), trace, Everywhere)
  {
    var r, c1, t1 := FirstCall(IngressProg(ab), c, mode, trace, after, err);
    assert c1 == c;
    if r.Err? {
      ReturnedRun(Some(r.error), c1, mode, t1, after, err);
    } else if ab.spec.routes == None && ListedKeys(r) == [] {
      ReturnedRun(None, c1, mode, t1, after, err);
    } else {
      DeleteLoopRun(ab, ListedKeys(r), c1, mode, t1, after, err);
    }
  }
}
