/**
 Which bundles settle.

 Convergence needs two things that can be read off a spec: that it compiles, and
 that no two configs bind one secret key to different remotes.  Without the first
 every pass fails.  Without the second Go's range order decides what the
 ExternalSecret should be, so a pass in one order creates it and a pass in another
 order finds it stale, deletes it and fails, again and again.
 */
module Settling {
  import opened Options
  import opened KeyOrder
  import opened KeyLoops
  import opened Bundle
  import opened BaseInheritance
  import opened DeepDerivative
  import opened DeploymentCompiler
  import opened ExternalSecretCompiler
  import opened ClaimCompiler
  import opened Api
  import opened Programs
  import opened SoloRuns
  import opened ClaimRuns
  import opened Interleaving
  import opened Locality
  import opened Progress
  import opened Convergence

  /** In no run of passes do more than b fail. */
  ghost predicate FailuresBounded(ab: AppBundle, grow: nat -> nat, b: nat)
    requires Compilable(ab)
  {
    forall clusters, outcomes ::
      BundleHistory(ab, grow, clusters, outcomes) && ExistingPresent(ab, clusters[0]) ==> CountFailed(outcomes) <= b
  }

  // ----- Secrets compiled in different orders -----

  /** Two range orders in which the second outcome does not derive from the first. */
  lemma OrdersDisagree(ab: AppBundle)
    returns (order1: seq<string>, order2: seq<string>, e1: ExternalSecret, e2: ExternalSecret)
    requires Complete(ab.spec) && !NoConflict(Entries(ab.spec.configs))
    ensures Enumerates(order1, Entries(ab.spec.configs).Keys) && SecretFor(ab, order1) == Ok(Some(e1))
    ensures Enumerates(order2, Entries(ab.spec.configs).Keys) && SecretFor(ab, order2) == Ok(Some(e2))
    ensures !Derives(SecretObj(e2).spec, SecretObj(e1).spec)
  {
    var configs := Entries(ab.spec.configs);
    var a, b, k :| a in configs && b in configs && k in configs[a].secrets && k in configs[b].secrets
      && configs[a].secrets[k] != configs[b].secrets[k];
    var low, high := a, b;
    if configs[b].secrets[k] == "" {
      low, high := b, a;
    }
    order1 := EndingWith(configs.Keys, low);
    order2 := EndingWith(configs.Keys, high);
    LastBinds(ab, order1, k);
    LastBinds(ab, order2, k);
    SameBindingKeys(ab, order1, order2);
    e1, e2 := SecretFor(ab, order1).value.value, SecretFor(ab, order2).value.value;
    DataDisagrees(e1, e2, SecretsToGet(ab, order1), SecretsToGet(ab, order2), k);
  }

  lemma SameBindingKeys(ab: AppBundle, order1: seq<string>, order2: seq<string>)
    requires Enumerates(order1, Entries(ab.spec.configs).Keys) && Enumerates(order2, Entries(ab.spec.configs).Keys)
    ensures SecretsToGet(ab, order1).Keys == SecretsToGet(ab, order2).Keys
  {
    var configs := Entries(ab.spec.configs);
    forall k ensures k in SecretsToGet(ab, order1) <==> k in SecretsToGet(ab, order2) {
      BindMeaning(configs, order1, k);
      BindMeaning(configs, order2, k);
    }
  }

  lemma DataDisagrees(
    e1: ExternalSecret, e2: ExternalSecret, s1: map<string, string>, s2: map<string, string>, k: string)
    requires e1.data == MapSorted(s1, SecretDataOf) && e2.data == MapSorted(s2, SecretDataOf)
    requires s1.Keys == s2.Keys && k in s1 && s1[k] != s2[k] && s2[k] != ""
    ensures !Derives(EncodeExternalSecret(e2), EncodeExternalSecret(e1))
  {
    var keys := SortedKeys(s1.Keys);
    assert k in s1.Keys;
    var i :| 0 <= i < |keys| && keys[i] == k;
    MapSortedItem(s1, SecretDataOf, i);
    MapSortedItem(s2, SecretDataOf, i);
    DifferentItem(e1, e2, i);
  }

  lemma DifferentItem(e1: ExternalSecret, e2: ExternalSecret, i: nat)
    requires i < |e1.data| == |e2.data| && e2.data[i].remoteKey != "" && e2.data[i].remoteKey != e1.data[i].remoteKey
    ensures !Derives(EncodeExternalSecret(e2), EncodeExternalSecret(e1))
  {
    var v1, v2 := EncodeExternalSecret(e1).fields[2], EncodeExternalSecret(e2).fields[2];
    assert !Derives(v2.elems[i].fields[1].fields[0], v1.elems[i].fields[1].fields[0]);
    assert !Derives(v2.elems[i].fields[1], v1.elems[i].fields[1]);
    assert !Derives(v2.elems[i], v1.elems[i]);
    assert !Derives(v2, v1);
  }

  // ----- Two runs of the ExternalSecret reconciler -----

  /** With no ExternalSecret there, a run creates it; this server stores it as sent. */
  lemma CreatingRun(ab: AppBundle, e: ExternalSecret, c: Cluster) returns (trace: seq<Event>)
    requires OwnKey(ab, ExternalSecretKind) !in c
    ensures Runs(SecretProg(ab, Ok(Some(e))), c, Truthful, trace, c[OwnKey(ab, ExternalSecretKind) := SecretObj(e)],
      None)
  {
    var key, obj, missing := OwnKey(ab, ExternalSecretKind), SecretObj(e), Err(NotFound);
    var after := c[key := obj];
    NoSecretNeverMatches(e);
    DerivesReflexive(obj.spec);
    var created := Upsert(key, obj, Some(NotFound), false, Finish);
    assert created.k(Response.Done) == Finish(ErrorOf(Response.Done)) == Ret(None);
    trace := RunCons(created, c, Truthful, Done, after, [], after, None);
    assert SecretDeleted(ab, e, missing, missing) == created;
    assert SecretGot(ab, Ok(Some(e)), missing).k(missing) == created;
    trace := RunCons(SecretGot(ab, Ok(Some(e)), missing), c, Truthful, missing, c, trace, after, None);
    trace := RunCons(SecretProg(ab, Ok(Some(e))), c, Truthful, missing, c, trace, after, None);
  }

  /** With a stale one there, a run deletes it and fails to update what is gone. */
  lemma StaleRun(ab: AppBundle, e: ExternalSecret, c: Cluster) returns (trace: seq<Event>)
    requires SecretPending(ab, Some(e), c)
    ensures Runs(SecretProg(ab, Ok(Some(e))), c, Truthful, trace, c - {OwnKey(ab, ExternalSecretKind)}, Some(NotFound))
  {
    var key, obj, missing := OwnKey(ab, ExternalSecretKind), SecretObj(e), Err(NotFound);
    var found, after := Found(c[key]), c - {key};
    var updated := Upsert(key, obj, None, false, Finish);
    assert updated.k(missing) == Updated(key, obj, false, Finish, missing) == Finish(Some(NotFound));
    trace := RunCons(updated, after, Truthful, missing, after, [], after, Some(NotFound));
    assert SecretDeleted(ab, e, found, Done) == updated;
    assert SecretGot(ab, Ok(Some(e)), found).k(Done) == updated;
    trace := RunCons(SecretGot(ab, Ok(Some(e)), found), c, Truthful, Done, after, trace, after, Some(NotFound));
    trace := RunCons(SecretProg(ab, Ok(Some(e))), c, Truthful, found, c, trace, after, Some(NotFound));
  }

  // ----- Passes around a run -----

  /** From every cluster there is a pass, in every range order. */
  lemma PassExists(ab: AppBundle, grow: nat -> nat, c: Cluster, order: seq<string>)
    returns (moves: seq<Move>, end: PassState)
    requires Compilable(ab) && Enumerates(order, Entries(ab.spec.configs).Keys)
    ensures FinishedPass(ab, grow, c, order, moves, end)
  {
    ReconcilersKeep(ab, grow, SecretFor(ab, order));
    moves, end := PassFinishes(Start(ab, grow, SecretFor(ab, order), c), KINDS, 0);
  }

  /** A run of the ExternalSecret reconciler is part of some pass. */
  lemma PassAround(
    ab: AppBundle, grow: nat -> nat, c: Cluster, order: seq<string>,
    trace: seq<Event>, mid: Cluster, err: Option<ApiError>)
    returns (moves: seq<Move>, end: PassState)
    requires Compilable(ab) && Enumerates(order, Entries(ab.spec.configs).Keys)
    requires Runs(SecretProg(ab, SecretFor(ab, order)), c, Truthful, trace, mid, err)
    ensures FinishedPass(ab, grow, c, order, moves, end)
    ensures Restrict(end.cluster, {ExternalSecretKind}) == Restrict(mid, {ExternalSecretKind})
    ensures err.Some? ==> end.cancelled
  {
    ReconcilersKeep(ab, grow, SecretFor(ab, order));
    moves, end := PassLedBy(Start(ab, grow, SecretFor(ab, order), c), KINDS, 5, trace, mid, err);
  }

  lemma PassLedBy(s: PassState, kinds: seq<set<Kind>>, i: nat, trace: seq<Event>, mid: Cluster, err: Option<ApiError>)
    returns (moves: seq<Move>, end: PassState)
    requires AllKeep(s.procs, kinds) && Disjoint(kinds) && i < |s.procs| && s.procs[i].Call?
    requires Runs(s.procs[i], s.cluster, Truthful, trace, mid, err)
    ensures Pass(s, moves, end) && Finished(end)
    ensures Restrict(end.cluster, kinds[i]) == Restrict(mid, kinds[i])
    ensures err.Some? ==> end.cancelled
  {
    var first, next := RunToEnd(s, i, Truthful, trace, mid, err);
    assert Tame(Ret(err), kinds[i]);
    assert AllKeep(next.procs, kinds);
    var rest;
    rest, end := PassFinishes(next, kinds, 0);
    moves := first + rest;
    PassConcat(s, first, next, rest, end);
    ShareIsSolo(next, rest, end, kinds, i);
    RetReaches(next.procs[i], Restrict(mid, kinds[i]), ModeOf(end), Share(rest, i, kinds[i]),
               end.procs[i], Restrict(end.cluster, kinds[i]));
    CancelledStays(next, rest, end);
  }

  // ----- Histories that keep failing -----

  lemma HistoryExtends(
    ab: AppBundle, grow: nat -> nat, clusters: seq<Cluster>, outcomes: seq<Outcome>,
    order: seq<string>, moves: seq<Move>, end: PassState)
    returns (clusters': seq<Cluster>, outcomes': seq<Outcome>)
    requires Compilable(ab) && BundleHistory(ab, grow, clusters, outcomes)
    requires FinishedPass(ab, grow, clusters[|outcomes|], order, moves, end)
    ensures BundleHistory(ab, grow, clusters', outcomes')
    ensures clusters'[0] == clusters[0] && |outcomes'| == |outcomes| + 1 && clusters'[|outcomes'|] == end.cluster
    ensures CountFailed(outcomes') == CountFailed(outcomes) + if end.cancelled then 1 else 0
  {
    var c := clusters[|outcomes|];
    var outcome := OutcomeOf(Start(ab, grow, SecretFor(ab, order), c), moves, end);
    clusters', outcomes' := clusters + [end.cluster], outcomes + [outcome];
    assert BundlePass(ab, grow, c, end.cluster, outcome);
    assert outcomes'[..|outcomes|] == outcomes;
    forall i | 0 <= i < |outcomes'| ensures BundlePass(ab, grow, clusters'[i], clusters'[i + 1], outcomes'[i]) {
      if i < |outcomes| {
        assert BundlePass(ab, grow, clusters[i], clusters[i + 1], outcomes[i]);
      }
    }
  }

  /** A spec that does not compile makes every pass fail. */
  lemma IncompleteFails(
    ab: AppBundle, grow: nat -> nat, c: Cluster, order: seq<string>, moves: seq<Move>, end: PassState)
    requires Compilable(ab) && !Complete(ab.spec) && FinishedPass(ab, grow, c, order, moves, end)
    ensures end.cancelled
  {
    if !DeploymentComplete(ab.spec) {
      DeploymentCompilesIff(ab, grow);
      DoomedByDeployment(ab, grow, SecretFor(ab, order), c, moves, end);
    } else {
      SecretCompilesIff(ab, order);
      DoomedBySecret(ab, grow, SecretFor(ab, order), c, moves, end);
    }
  }

  lemma DoomedByDeployment(
    ab: AppBundle, grow: nat -> nat, secret: SecretOutcome, c: Cluster, moves: seq<Move>, end: PassState)
    requires Compilable(ab) && Pass(Start(ab, grow, secret, c), moves, end) && Finished(end)
    requires ExpectedDeployment(ab, grow).Failure?
    ensures end.cancelled
  {
    ProcessRan(ab, grow, secret, c, moves, end, 2);
    DoomedDeployment(ab, grow, Restrict(c, KINDS[2]), ModeOf(end), Share(moves, 2, KINDS[2]),
                     Restrict(end.cluster, KINDS[2]), end.procs[2].err);
  }

  lemma DoomedBySecret(
    ab: AppBundle, grow: nat -> nat, secret: SecretOutcome, c: Cluster, moves: seq<Move>, end: PassState)
    requires Compilable(ab) && Pass(Start(ab, grow, secret, c), moves, end) && Finished(end)
    requires secret.Failure?
    ensures end.cancelled
  {
    ProcessRan(ab, grow, secret, c, moves, end, 5);
    DoomedSecret(ab, secret, Restrict(c, KINDS[5]), ModeOf(end), Share(moves, 5, KINDS[5]),
                 Restrict(end.cluster, KINDS[5]), end.procs[5].err);
  }

  lemma ProcessRan(
    ab: AppBundle, grow: nat -> nat, secret: SecretOutcome, c: Cluster, moves: seq<Move>, end: PassState, i: nat)
    requires Compilable(ab) && Pass(Start(ab, grow, secret, c), moves, end) && Finished(end) && i < 6
    ensures |end.procs| == 6
    ensures Runs(Reconcilers(ab, grow, secret)[i], Restrict(c, KINDS[i]), ModeOf(end), Share(moves, i, KINDS[i]),
                 Restrict(end.cluster, KINDS[i]), end.procs[i].err)
    ensures end.procs[i].err.Some? ==> end.cancelled
  {
    var s := Start(ab, grow, secret, c);
    ReconcilersKeep(ab, grow, secret);
    NothingFailsAtStart(ab, grow, secret);
    ShareIsSolo(s, moves, end, KINDS, i);
    assert s.procs[i] in s.procs;
    if !end.cancelled {
      NoFailureWithoutCancel(s, moves, end, i);
    }
  }

  lemma DoomedDeployment(
    ab: AppBundle, grow: nat -> nat, c: Cluster, mode: Mode, trace: seq<Event>, after: Cluster, err: Option<ApiError>)
    requires Dereferenceable(ab) && ExpectedDeployment(ab, grow).Failure?
    requires Runs(DeploymentProg(ab, grow), c, mode, trace, after, err)
    ensures err.Some?
  {
    var r, c1, t1 := FirstCall(DeploymentProg(ab, grow), c, mode, trace, after, err);
    ReturnedRun(Some(Failed), c1, mode, t1, after, err);
  }

  lemma DoomedSecret(
    ab: AppBundle, secret: SecretOutcome, c: Cluster, mode: Mode, trace: seq<Event>, after: Cluster,
    err: Option<ApiError>)
    requires secret.Failure? && Runs(SecretProg(ab, secret), c, mode, trace, after, err)
    ensures err.Some?
  {
    var r, c1, t1 := FirstCall(SecretProg(ab, secret), c, mode, trace, after, err);
    ReturnedRun(Some(Failed), c1, mode, t1, after, err);
  }

  lemma {:induction false} IncompleteNeverSettles(ab: AppBundle, grow: nat -> nat, c: Cluster, n: nat)
    returns (clusters: seq<Cluster>, outcomes: seq<Outcome>)
    requires Compilable(ab) && !Complete(ab.spec)
    ensures BundleHistory(ab, grow, clusters, outcomes) && clusters[0] == c && CountFailed(outcomes) == n
  {
    if n == 0 {
      clusters, outcomes := [c], [];
    } else {
      var order := SortedKeys(Entries(ab.spec.configs).Keys);
      clusters, outcomes := IncompleteNeverSettles(ab, grow, c, n - 1);
      var moves, end := PassExists(ab, grow, clusters[|outcomes|], order);
      IncompleteFails(ab, grow, clusters[|outcomes|], order, moves, end);
      clusters, outcomes := HistoryExtends(ab, grow, clusters, outcomes, order, moves, end);
    }
  }

  /** A pass that creates the ExternalSecret as one order has it, then one that finds it stale as the other has it. */
  lemma OneRound(
    ab: AppBundle, grow: nat -> nat, order1: seq<string>, order2: seq<string>, e1: ExternalSecret, e2: ExternalSecret,
    clusters: seq<Cluster>, outcomes: seq<Outcome>)
    returns (clusters': seq<Cluster>, outcomes': seq<Outcome>)
    requires Compilable(ab) && BundleHistory(ab, grow, clusters, outcomes)
    requires Enumerates(order1, Entries(ab.spec.configs).Keys) && SecretFor(ab, order1) == Ok(Some(e1))
    requires Enumerates(order2, Entries(ab.spec.configs).Keys) && SecretFor(ab, order2) == Ok(Some(e2))
    requires !Derives(SecretObj(e2).spec, SecretObj(e1).spec)
    requires OwnKey(ab, ExternalSecretKind) !in clusters[|outcomes|]
    ensures BundleHistory(ab, grow, clusters', outcomes') && clusters'[0] == clusters[0]
    ensures OwnKey(ab, ExternalSecretKind) !in clusters'[|outcomes'|]
    ensures CountFailed(outcomes') > CountFailed(outcomes)
  {
    var key, c := OwnKey(ab, ExternalSecretKind), clusters[|outcomes|];
    var trace := CreatingRun(ab, e1, c);
    var mid := c[key := SecretObj(e1)];
    var moves, end := PassAround(ab, grow, c, order1, trace, mid, None);
    SamePart(mid, end.cluster, {ExternalSecretKind}, key);
    clusters', outcomes' := HistoryExtends(ab, grow, clusters, outcomes, order1, moves, end);
    c := end.cluster;
    assert c[key] == SecretObj(e1);
    trace := StaleRun(ab, e2, c);
    mid := c - {key};
    moves, end := PassAround(ab, grow, c, order2, trace, mid, Some(NotFound));
    SamePart(mid, end.cluster, {ExternalSecretKind}, key);
    clusters', outcomes' := HistoryExtends(ab, grow, clusters', outcomes', order2, moves, end);
  }

  /** With a conflict, from every cluster without the ExternalSecret, runs with any number of failures. */
  lemma {:induction false} ConflictNeverSettles(ab: AppBundle, grow: nat -> nat, c: Cluster, n: nat)
    returns (clusters: seq<Cluster>, outcomes: seq<Outcome>)
    requires Compilable(ab) && Complete(ab.spec) && !NoConflict(Entries(ab.spec.configs))
    requires OwnKey(ab, ExternalSecretKind) !in c
    ensures BundleHistory(ab, grow, clusters, outcomes) && clusters[0] == c && CountFailed(outcomes) >= n
    ensures OwnKey(ab, ExternalSecretKind) !in clusters[|outcomes|]
  {
    if n == 0 {
      clusters, outcomes := [c], [];
    } else {
      var order1, order2, e1, e2 := OrdersDisagree(ab);
      clusters, outcomes := ConflictNeverSettles(ab, grow, c, n - 1);
      clusters, outcomes := OneRound(ab, grow, order1, order2, e1, e2, clusters, outcomes);
    }
  }

  // ----- The exact condition -----

  /** A cluster that holds just the claims the bundle expects to find. */
  function ClaimsOnly(ab: AppBundle): Cluster {
    map k | k in ExistingKeys(ab) :: Obj(map[], ZERO_CLAIM)
  }

  lemma NeverBounded(ab: AppBundle, grow: nat -> nat, b: nat)
    requires Compilable(ab) && !(Complete(ab.spec) && NoConflict(Entries(ab.spec.configs)))
    ensures !FailuresBounded(ab, grow, b)
  {
    var c := ClaimsOnly(ab);
    var clusters, outcomes;
    if !Complete(ab.spec) {
      clusters, outcomes := IncompleteNeverSettles(ab, grow, c, b + 1);
    } else {
      clusters, outcomes := ConflictNeverSettles(ab, grow, c, b + 1);
    }
    assert ExistingPresent(ab, clusters[0]);
  }

  lemma ThreeAtMost(ab: AppBundle, grow: nat -> nat)
    requires Compilable(ab) && ab.spec.backup == None && Complete(ab.spec) && NoConflict(Entries(ab.spec.configs))
    ensures FailuresBounded(ab, grow, 3)
  {
    CompilesIff(ab, grow);
    var d, e :| Compiles(Plan(ab, grow, d, e));
    forall clusters, outcomes | BundleHistory(ab, grow, clusters, outcomes) && ExistingPresent(ab, clusters[0])
      ensures CountFailed(outcomes) <= 3
    {
      FewFailures(Plan(ab, grow, d, e), clusters, outcomes);
    }
  }

  /**
   The failures of a bundle are bounded, over all clusters, interleavings and
   range orders, exactly when its spec is complete and no two of its configs bind
   one secret key to different remotes; three is then a bound.
   */
  lemma SettlesIff(ab: AppBundle, grow: nat -> nat)
    requires Compilable(ab) && ab.spec.backup == None
    ensures (exists b :: FailuresBounded(ab, grow, b)) <==> Complete(ab.spec) && NoConflict(Entries(ab.spec.configs))
    ensures (exists b :: FailuresBounded(ab, grow, b)) ==> FailuresBounded(ab, grow, 3)
  {
    if Complete(ab.spec) && NoConflict(Entries(ab.spec.configs)) {
      ThreeAtMost(ab, grow);
    } else {
      forall b: nat ensures !FailuresBounded(ab, grow, b) {
        NeverBounded(ab, grow, b);
      }
    }
  }

  const CONFLICTED := AppBundle("AppBundle", "web", "apps", None, None, EMPTY_SPEC.(
    image := Some(Image(Some("nginx"), Some("1.27"), None)),
    secretStoreRef := Some("vault"),
    configs := Some(map[
      "a" := Config("a.conf", "", None, map["token" := "first/token"], "/etc", None),
      "b" := Config("b.conf", "", None, map["token" := "second/token"], "/etc", None)])))

  /** A bundle with nothing else wrong whose failures no number bounds. */
  lemma AConflictedBundle(grow: nat -> nat, b: nat)
    ensures Compilable(CONFLICTED) && CONFLICTED.spec.backup == None && Complete(CONFLICTED.spec)
    ensures !FailuresBounded(CONFLICTED, grow, b)
  {
    var configs := Entries(CONFLICTED.spec.configs);
    assert configs["a"].secrets["token"] == "first/token" && configs["b"].secrets["token"] == "second/token";
    assert "first/token"[0] != "second/token"[0];
    assert !NoConflict(configs);
    NeverBounded(CONFLICTED, grow, b);
  }
}
