/**
 The bound on failing passes is reached.

 Whatever the cluster, some run of passes fails as often as there are causes in it:
 one failing pass per cause, in which everybody else is cancelled at the first
 call.  So the greatest number of failures from a cluster is exactly its number of
 causes, and three is not too many.
 */
module Tightness {
  import opened Options
  import opened KeyOrder
  import opened Bundle
  import opened BaseInheritance
  import opened DeploymentCompiler
  import opened DeploymentEncoding
  import opened ConfigMapCompiler
  import opened ExternalSecretCompiler
  import opened ClaimCompiler
  import opened Api
  import opened Programs
  import opened SoloRuns
  import opened ClaimRuns
  import opened Interleaving
  import opened Locality
  import opened Progress
  import opened Convergence
  import opened Settling

  // ----- One failing pass -----

  /** A part with a cause fails when it runs alone, and the cause is then gone. */
  lemma CauseFails(p: Part, c: Cluster) returns (trace: seq<Event>, after: Cluster, err: Option<ApiError>)
    requires Good(p) && p.needs(c) && p.cause(c)
    ensures Runs(p.prog, c, Truthful, trace, after, err) && err.Some? && !p.cause(after) && p.prog.Call?
  {
    TameEnds(p.prog, p.kinds, c);
    trace, after, err :| Runs(p.prog, c, Truthful, trace, after, err);
    assert Progresses(p, c, Truthful, trace, after, err);
  }

  /** A pass in which part i fails first and all others are cancelled before they do anything. */
  lemma FailingPass(parts: seq<Part>, c: Cluster, i: nat) returns (moves: seq<Move>, end: PassState)
    requires GoodParts(parts) && Needs(parts, c) && i < |parts| && parts[i].cause(c)
    ensures Ran(parts, c, moves, end) && end.cancelled
    ensures Causes(parts, end.cluster) == Causes(parts, c) - {i}
  {
    var s, p := StartOf(parts, c), parts[i];
    PartsKeep(parts);
    assert Good(p);
    var trace, mid, err := CauseFails(p, c);
    var first, cancelled := RunToEnd(s, i, Truthful, trace, mid, err);
    assert Tame(Ret(err), p.kinds) && KindsOf(parts)[i] == p.kinds;
    assert AllKeep(cancelled.procs, KindsOf(parts));
    var rest;
    rest, end := PassAborts(cancelled, KindsOf(parts), 0);
    moves := first + rest;
    PassConcat(s, first, cancelled, rest, end);
    TameOutside(p.prog, p.kinds, c, Truthful, trace, Ret(err), mid);
    forall j: nat | j < |parts| && j != i ensures parts[j].cause(mid) == parts[j].cause(c) {
      SameCause(parts, i, j, c, mid);
    }
  }

  lemma SameCause(parts: seq<Part>, i: nat, j: nat, c: Cluster, mid: Cluster)
    requires GoodParts(parts) && i < |parts| && j < |parts| && j != i && SameOutside(c, mid, parts[i].kinds)
    ensures parts[j].cause(mid) == parts[j].cause(c)
  {
    assert Good(parts[j]);
    var kinds := KindsOf(parts);
    assert if i < j then kinds[i] !! kinds[j] else kinds[j] !! kinds[i];
    OtherPartUnchanged(c, mid, kinds[i], kinds[j]);
    assert parts[j].cause(Restrict(mid, kinds[j])) == parts[j].cause(mid);
  }

  // ----- As many as there are causes -----

  lemma {:induction false} CountCons(first: Outcome, rest: seq<Outcome>)
    ensures CountFailed([first] + rest) == (if first.failed then 1 else 0) + CountFailed(rest)
    decreases |rest|
  {
    var all := [first] + rest;
    if rest == [] {
      assert all[..0] == [];
    } else {
      CountCons(first, rest[..|rest| - 1]);
      assert all[..|all| - 1] == [first] + rest[..|rest| - 1];
    }
  }

  lemma HistoryCons(
    parts: seq<Part>, c: Cluster, moves: seq<Move>, end: PassState, clusters: seq<Cluster>, outcomes: seq<Outcome>)
    returns (clusters': seq<Cluster>, outcomes': seq<Outcome>)
    requires Ran(parts, c, moves, end) && PassHistory(parts, clusters, outcomes) && clusters[0] == end.cluster
    ensures PassHistory(parts, clusters', outcomes') && clusters'[0] == c
    ensures CountFailed(outcomes') == (if end.cancelled then 1 else 0) + CountFailed(outcomes)
  {
    var outcome := OutcomeOf(StartOf(parts, c), moves, end);
    clusters', outcomes' := [c] + clusters, [outcome] + outcomes;
    CountCons(outcome, outcomes);
    assert OnePass(parts, c, end.cluster, outcome);
    forall i | 0 <= i < |outcomes'| ensures OnePass(parts, clusters'[i], clusters'[i + 1], outcomes'[i]) {
      if i > 0 {
        assert OnePass(parts, clusters[i - 1], clusters[i], outcomes[i - 1]);
      }
    }
  }

  /** From every cluster some history fails once per cause: the bound of TotalFailures is exact. */
  lemma {:induction false} EveryCauseFails(parts: seq<Part>, c: Cluster)
    returns (clusters: seq<Cluster>, outcomes: seq<Outcome>)
    requires GoodParts(parts) && Needs(parts, c)
    ensures PassHistory(parts, clusters, outcomes) && clusters[0] == c
    ensures CountFailed(outcomes) == |Causes(parts, c)|
    decreases |Causes(parts, c)|
  {
    if Causes(parts, c) == {} {
      clusters, outcomes := [c], [];
    } else {
      var i :| i in Causes(parts, c);
      var moves, end := FailingPass(parts, c, i);
      CausesNeverReturn(parts, c, moves, end);
      clusters, outcomes := EveryCauseFails(parts, end.cluster);
      clusters, outcomes := HistoryCons(parts, c, moves, end, clusters, outcomes);
    }
  }

  // ----- Bundles -----

  lemma PassIsBundlePass(p: Plan, c: Cluster, after: Cluster, outcome: Outcome)
    requires Compiles(p) && OnePass(PartsOf(p), c, after, outcome)
    ensures BundlePass(p.ab, p.grow, c, after, outcome)
  {
    var order := SortedKeys(Entries(p.ab.spec.configs).Keys);
    StartIsParts(p, order, c);
    var moves, end :|
      Ran(PartsOf(p), c, moves, end) && after == end.cluster
        && outcome == OutcomeOf(StartOf(PartsOf(p), c), moves, end);
    assert FinishedPass(p.ab, p.grow, c, order, moves, end);
  }

  /** The greatest number of failing passes of a bundle from a cluster is the number of causes in it. */
  lemma MostFailures(p: Plan, c: Cluster)
    requires Compiles(p) && ExistingPresent(p.ab, c)
    ensures exists clusters, outcomes ::
      && BundleHistory(p.ab, p.grow, clusters, outcomes) && clusters[0] == c
      && CountFailed(outcomes) == |Causes(PartsOf(p), c)|
    ensures forall clusters, outcomes :: BundleHistory(p.ab, p.grow, clusters, outcomes) && clusters[0] == c ==>
      CountFailed(outcomes) <= |Causes(PartsOf(p), c)|
  {
    var clusters, outcomes := ReachesMost(p, c);
    forall clusters, outcomes | BundleHistory(p.ab, p.grow, clusters, outcomes) && clusters[0] == c
      ensures CountFailed(outcomes) <= |Causes(PartsOf(p), c)|
    {
      PartsAreGood(p);
      HistoryOfParts(p, clusters, outcomes);
      TotalFailures(PartsOf(p), clusters, outcomes, |Causes(PartsOf(p), c)|);
    }
  }

  lemma ReachesMost(p: Plan, c: Cluster) returns (clusters: seq<Cluster>, outcomes: seq<Outcome>)
    requires Compiles(p) && ExistingPresent(p.ab, c)
    ensures BundleHistory(p.ab, p.grow, clusters, outcomes) && clusters[0] == c
    ensures CountFailed(outcomes) == |Causes(PartsOf(p), c)|
  {
    PartsAreGood(p);
    PartsNeed(p, c);
    clusters, outcomes := EveryCauseFails(PartsOf(p), c);
    forall i | 0 <= i < |outcomes| ensures BundlePass(p.ab, p.grow, clusters[i], clusters[i + 1], outcomes[i]) {
      PassIsBundlePass(p, clusters[i], clusters[i + 1], outcomes[i]);
    }
  }

  // ----- Three -----

  /** Stale objects where the Deployment and the ExternalSecret should be, no ConfigMap, and two pods. */
  function WorstCluster(ab: AppBundle): Cluster {
    ClaimsOnly(ab)[OwnKey(ab, DeploymentKind) := Obj(map[], ZERO_DEPLOYMENT)]
      [OwnKey(ab, ExternalSecretKind) := Obj(map[], ZERO_EXTERNAL_SECRET)]
      [Key(PodKind, ab.namespace, "1") := Obj(map[APP_BUNDLE_SELECTOR := ab.name], ZERO_CLAIM)]
      [Key(PodKind, ab.namespace, "2") := Obj(map[APP_BUNDLE_SELECTOR := ab.name], ZERO_CLAIM)]
  }

  lemma WorstHolds(ab: AppBundle)
    ensures var c := WorstCluster(ab);
      && OwnKey(ab, DeploymentKind) in c && c[OwnKey(ab, DeploymentKind)] == Obj(map[], ZERO_DEPLOYMENT)
      && OwnKey(ab, ExternalSecretKind) in c && c[OwnKey(ab, ExternalSecretKind)] == Obj(map[], ZERO_EXTERNAL_SECRET)
      && OwnKey(ab, ConfigMapKind) !in c && ExistingPresent(ab, c)
  {
  }

  lemma TwoPods(ab: AppBundle)
    ensures |PodsOf(ab, WorstCluster(ab))| > 1
  {
    assert "1"[0] != "2"[0];
    var pods := {Key(PodKind, ab.namespace, "1"), Key(PodKind, ab.namespace, "2")};
    assert pods <= PodsOf(ab, WorstCluster(ab));
    Smaller(pods, PodsOf(ab, WorstCluster(ab)));
  }

  lemma StaleDeployment(ab: AppBundle, d: Deployment, c: Cluster)
    requires OwnKey(ab, DeploymentKind) in c && c[OwnKey(ab, DeploymentKind)] == Obj(map[], ZERO_DEPLOYMENT)
    ensures DeploymentPending(ab, d, c)
  {
    NoDeploymentNeverMatches(d);
  }

  lemma WorstIsPending(ab: AppBundle, d: Deployment, e: ExternalSecret)
    requires ExpectedConfigMap(ab).Some?
    ensures var c := WorstCluster(ab);
      DeploymentPending(ab, d, c) && SecretPending(ab, Some(e), c) && ConfigMapPending(ab, c)
  {
    WorstHolds(ab);
    TwoPods(ab);
    StaleDeployment(ab, d, WorstCluster(ab));
    NoSecretNeverMatches(e);
  }

  /** Every bundle that wants a ConfigMap and an ExternalSecret can fail three times. */
  lemma ThreeFailures(p: Plan)
    requires Compiles(p) && p.secret.Some? && ExpectedConfigMap(p.ab).Some?
    ensures ExistingPresent(p.ab, WorstCluster(p.ab))
    ensures exists clusters, outcomes ::
      && BundleHistory(p.ab, p.grow, clusters, outcomes) && clusters[0] == WorstCluster(p.ab)
      && CountFailed(outcomes) == 3
  {
    var c := WorstCluster(p.ab);
    WorstHolds(p.ab);
    WorstIsPending(p.ab, p.deployment, p.secret.value);
    ThreeCausesOf(p, c);
    var clusters, outcomes := ReachesMost(p, c);
  }

  lemma ThreeCausesOf(p: Plan, c: Cluster)
    requires Compiles(p) && DeploymentPending(p.ab, p.deployment, c) && SecretPending(p.ab, p.secret, c)
    requires ConfigMapPending(p.ab, c)
    ensures |Causes(PartsOf(p), c)| == 3
  {
    ExactlyThree(VolumesPart(p.ab), ServicePart(p.ab), DeploymentPart(p.ab, p.grow, p.deployment), IngressPart(p.ab),
                 ConfigMapPart(p.ab), SecretPart(p.ab, p.secret), c);
  }

  lemma ExactlyThree(a: Part, b: Part, c: Part, d: Part, e: Part, f: Part, now: Cluster)
    requires !a.cause(now) && !b.cause(now) && !d.cause(now) && c.cause(now) && e.cause(now) && f.cause(now)
    ensures |Causes(Six(a, b, c, d, e, f), now)| == 3
  {
    assert Causes(Six(a, b, c, d, e, f), now) == {2, 4, 5};
  }

  const DEMANDING := AppBundle("AppBundle", "web", "apps", None, None, EMPTY_SPEC.(
    image := Some(Image(Some("nginx"), Some("1.27"), None)),
    secretStoreRef := Some("vault"),
    configs := Some(map[
      "a" := Config("a.conf", "on", None, map[], "/etc", None),
      "b" := Config("b.conf", "", None, map["token" := "web/token"], "/etc", None)])))

  /** A concrete one. */
  lemma DemandingBundle(grow: nat -> nat) returns (d: Deployment, e: ExternalSecret)
    ensures Compiles(Plan(DEMANDING, grow, d, Some(e))) && ExpectedConfigMap(DEMANDING).Some?
  {
    OneBindsOneDoesNot();
    OutcomesIff(DEMANDING, grow);
    d := ExpectedDeployment(DEMANDING, grow).value;
    e := DemandedSecret();
  }

  lemma DemandedSecret() returns (e: ExternalSecret)
    ensures SecretFor(DEMANDING, SortedKeys(Entries(DEMANDING.spec.configs).Keys)) == Ok(Some(e))
  {
    var configs := Entries(DEMANDING.spec.configs);
    var order := SortedKeys(configs.Keys);
    BindMeaning(configs, order, "token");
    assert "b" in configs.Keys && "token" in configs["b"].secrets;
    assert "token" in SecretsToGet(DEMANDING, order);
    e := SecretFor(DEMANDING, order).value.value;
  }

  lemma OneBindsOneDoesNot()
    ensures Compilable(DEMANDING) && Complete(DEMANDING.spec) && NoConflict(Entries(DEMANDING.spec.configs))
    ensures ExpectedConfigMap(DEMANDING).Some? && DEMANDING.spec.backup == None
  {
    var configs := Entries(DEMANDING.spec.configs);
    assert "a" in configs && Generated(configs["a"]) && "a" in ConfigMapData(configs);
  }
}
