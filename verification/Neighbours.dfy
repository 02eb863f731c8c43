/**
 Several bundles on one cluster.

 Their passes may alternate in any way.  What makes a pass fail concerns objects
 that only its own bundle writes, so each bundle fails at most three times, whoever
 its neighbours are.  Whether they settle depends on what they share: bundles that
 are compatible do, and for two bundles compatibility is also necessary for any
 cluster to be right for both.
 */
module Neighbours {
  import opened Options
  import opened KeyOrder
  import opened Bundle
  import opened DeploymentCompiler
  import opened ExternalSecretCompiler
  import opened ClaimCompiler
  import opened Api
  import opened Programs
  import opened SoloRuns
  import opened IngressRuns
  import opened ClaimRuns
  import opened Progress
  import opened Convergence
  import opened SharedCluster

  predicate Apart(a: AppBundle, b: AppBundle) {
    a.namespace != b.namespace || a.name != b.name
  }

  /** k is an existing claim that the bundle mounts. */
  ghost predicate Mounts(ab: AppBundle, k: Key) {
    exists key :: key in Entries(ab.spec.volumes) && KindOf(VolumeAt(ab, key)) == Existing
      && k == ExistingKey(ab, VolumeAt(ab, key))
  }

  ghost predicate NoSharedIngress(a: AppBundle, b: AppBundle) {
    forall j, k :: WantedKey(a, j) && WantedKey(b, k) ==> IngressKey(a, j) != IngressKey(b, k)
  }

  /** A claim that a manages is not managed by b, and if b mounts it, it has the label keys b wants already. */
  ghost predicate ClaimsFree(a: AppBundle, b: AppBundle) {
    forall key :: key in Entries(a.spec.volumes) && KindOf(VolumeAt(a, key)) == Claimed ==>
      && !Managed(b, ClaimKey(a, key))
      && (Mounts(b, ClaimKey(a, key)) ==> DefaultLabels(b).Keys <= DefaultLabels(a).Keys)
  }

  ghost predicate Compatible(a: AppBundle, b: AppBundle) {
    NoSharedIngress(a, b) && ClaimsFree(a, b) && ClaimsFree(b, a)
  }

  // ----- What a bundle's runs do to another's parts -----

  lemma VolumesTolerated(a: AppBundle, b: AppBundle)
    requires VolumesReady(a) && VolumesReady(b)
    ensures Tolerates(VolumesPart(b), VolumesPart(a))
  {
    forall c, mode: Mode, trace, after, err | !mode.Faulty? && Runs(VolumesProg(a), c, mode, trace, after, err)
      ensures ExistingPresent(b, c) ==> ExistingPresent(b, after)
    {
      VolumesRunSafe(a, c, mode, trace, after, err);
    }
  }

  lemma VolumesRespected(a: AppBundle, b: AppBundle)
    requires VolumesReady(a) && VolumesReady(b) && a.spec.backup == None && b.spec.backup == None
    requires ClaimsFree(a, b) && ClaimsFree(b, a)
    ensures Respects(VolumesPart(a), VolumesPart(b))
  {
    forall c, mode: Mode, trace, after, err | !mode.Faulty? && Runs(VolumesProg(a), c, mode, trace, after, err)
      ensures VolumesDone(b, c) ==> VolumesDone(b, after)
    {
      if VolumesDone(b, c) {
        forall key | key in Entries(b.spec.volumes) ensures VolumeDone(b, key, after) {
          assert VolumeDone(b, key, c);
          VolumeRespected(a, b, key, c, mode, trace, after, err);
        }
      }
    }
  }

  lemma VolumeRespected(
    a: AppBundle, b: AppBundle, key: string,
    c: Cluster, mode: Mode, trace: seq<Event>, after: Cluster, err: Option<ApiError>)
    requires VolumesReady(a) && VolumesReady(b) && a.spec.backup == None && b.spec.backup == None
    requires ClaimsFree(a, b) && ClaimsFree(b, a)
    requires Runs(VolumesProg(a), c, mode, trace, after, err)
    requires key in Entries(b.spec.volumes) && VolumeDone(b, key, c)
    ensures VolumeDone(b, key, after)
  {
    var v := VolumeAt(b, key);
    VolumesRunSafe(a, c, mode, trace, after, err);
    if KindOf(v) == Existing {
      var k, l := ExistingKey(b, v), DefaultLabels(b).Keys;
      assert HasKeys(c, k, l) && Mounts(b, k);
      if Managed(a, k) {
        assert HasKeys(after, k, l);
      } else {
        assert OnlyGains(c, after, k);
      }
    } else if KindOf(v) == Claimed {
      var k := ClaimKey(b, key);
      SettledForMounter(a, b, key, c);
      VolumeLoopAt(a, SortedKeys(Entries(a.spec.volumes).Keys), c, mode, trace, after, err, k);
    }
  }

  /** A claim that is right for its manager has the label keys that a compatible bundle wants on it. */
  lemma SettledForMounter(a: AppBundle, b: AppBundle, key: string, c: Cluster)
    requires VolumesReady(b) && a.spec.backup == None && b.spec.backup == None && ClaimsFree(b, a)
    requires key in Entries(b.spec.volumes) && KindOf(VolumeAt(b, key)) == Claimed && VolumeDone(b, key, c)
    ensures !Managed(a, ClaimKey(b, key)) && Settled(a, ClaimKey(b, key), c)
  {
    var k := ClaimKey(b, key);
    forall j | j in SortedKeys(Entries(a.spec.volumes).Keys) ensures LabelledFor(a, j, k, c) {
      if KindOf(VolumeAt(a, j)) == Existing && ExistingKey(a, VolumeAt(a, j)) == k {
        assert Mounts(a, k);
      }
    }
  }

  lemma ServiceApart(a: AppBundle, b: AppBundle)
    requires Apart(a, b)
    ensures Tolerates(ServicePart(b), ServicePart(a)) && Respects(ServicePart(a), ServicePart(b))
  {
    forall c, mode: Mode, trace, after, err | !mode.Faulty? && Runs(ServiceProg(a), c, mode, trace, after, err)
      ensures ServiceDone(b, c) ==> ServiceDone(b, after)
    {
      ServiceRun(a, c, mode, trace, after, err);
      Untouched(c, after, {OwnKey(a, ServiceKind)}, OwnKey(b, ServiceKind));
    }
  }

  lemma DeploymentApart(a: AppBundle, grow: nat -> nat, d: Deployment, b: AppBundle, grow': nat -> nat, e: Deployment)
    requires Apart(a, b) && Dereferenceable(a) && ExpectedDeployment(a, grow) == Ok(d) && Dereferenceable(b)
    ensures Tolerates(DeploymentPart(b, grow', e), DeploymentPart(a, grow, d))
    ensures Respects(DeploymentPart(a, grow, d), DeploymentPart(b, grow', e))
  {
    forall c, mode: Mode, trace, after, err | !mode.Faulty? && Runs(DeploymentProg(a, grow), c, mode, trace, after, err)
      ensures DeploymentDone(b, e, after) == DeploymentDone(b, e, c)
      ensures DeploymentPending(b, e, after) == DeploymentPending(b, e, c)
    {
      DeploymentRun(a, grow, d, c, mode, trace, after, err);
      Untouched(c, after, {OwnKey(a, DeploymentKind)}, OwnKey(b, DeploymentKind));
    }
  }

  lemma SecretApart(a: AppBundle, s: Option<ExternalSecret>, b: AppBundle, t: Option<ExternalSecret>)
    requires Apart(a, b)
    ensures Tolerates(SecretPart(b, t), SecretPart(a, s)) && Respects(SecretPart(a, s), SecretPart(b, t))
  {
    forall c, mode: Mode, trace, after, err | !mode.Faulty? && Runs(SecretProg(a, Ok(s)), c, mode, trace, after, err)
      ensures SecretDone(b, t, after) == SecretDone(b, t, c)
      ensures SecretPending(b, t, after) == SecretPending(b, t, c)
    {
      SecretRun(a, s, c, mode, trace, after, err);
      Untouched(c, after, {OwnKey(a, ExternalSecretKind)}, OwnKey(b, ExternalSecretKind));
    }
  }

  lemma ConfigMapApart(a: AppBundle, b: AppBundle)
    requires Apart(a, b)
    ensures Tolerates(ConfigMapPart(b), ConfigMapPart(a)) && Respects(ConfigMapPart(a), ConfigMapPart(b))
  {
    forall c, mode: Mode, trace, after, err | !mode.Faulty? && Runs(ConfigMapProg(a), c, mode, trace, after, err)
      ensures ConfigMapDone(b, after) == ConfigMapDone(b, c)
      ensures ConfigMapPending(b, after) ==> ConfigMapPending(b, c)
    {
      ConfigMapRun(a, c, mode, trace, after, err);
      ConfigMapSeen(a, b, c, after);
    }
  }

  lemma ConfigMapSeen(a: AppBundle, b: AppBundle, c: Cluster, after: Cluster)
    requires Apart(a, b) && ConfigEffect(a, c, after)
    ensures ConfigMapDone(b, after) == ConfigMapDone(b, c)
    ensures ConfigMapPending(b, after) ==> ConfigMapPending(b, c)
  {
    var k := OwnKey(b, ConfigMapKind);
    assert k != OwnKey(a, ConfigMapKind) && k !in PodsOf(a, c);
    assert PodsOf(b, after) <= PodsOf(b, c);
    Smaller(PodsOf(b, after), PodsOf(b, c));
  }

  lemma IngressTolerated(a: AppBundle, b: AppBundle)
    requires Apart(a, b) && RoutesReady(a) && RoutesReady(b)
    ensures Tolerates(IngressPart(b), IngressPart(a))
  {
    forall c, mode: Mode, trace, after, err | !mode.Faulty? && Runs(IngressProg(a), c, mode, trace, after, err)
      ensures NoStray(b, c) ==> NoStray(b, after)
    {
      IngressRun(a, c, mode, trace, after, err);
      if NoStray(b, c) {
        StraysSeen(a, b, c, after);
      }
    }
  }

  /** What a writes it labels as its own, so it leaves no stray of b. */
  lemma StraysSeen(a: AppBundle, b: AppBundle, c: Cluster, after: Cluster)
    requires Apart(a, b) && OwnWrites(a, c, after) && NoStray(b, c)
    ensures NoStray(b, after)
  {
    OwnLabelsWin(a);
    assert DefaultLabels(a)[APP_BUNDLE_SELECTOR] == a.name;
    forall k | k in Labelled(b, after) ensures k in Labelled(b, c) {
      assert k in c && after[k] == c[k];
    }
  }

  lemma IngressRespected(a: AppBundle, b: AppBundle)
    requires Apart(a, b) && RoutesReady(a) && RoutesReady(b) && NoSharedIngress(a, b)
    ensures Respects(IngressPart(a), IngressPart(b))
  {
    forall c, mode: Mode, trace, after, err | !mode.Faulty? && Runs(IngressProg(a), c, mode, trace, after, err)
      ensures NoStray(a, c) && IngressDone(b, c) ==> IngressDone(b, after)
    {
      IngressRun(a, c, mode, trace, after, err);
      if NoStray(a, c) && IngressDone(b, c) {
        StraysSeen(a, b, c, after);
        forall key | WantedKey(b, key) ensures Current(b, after, key) {
          assert Current(b, c, key);
          assert !Wanted(a, IngressKey(b, key));
        }
      }
    }
  }

  // ----- Plans -----

  lemma PlansTolerate(p: Plan, q: Plan)
    requires Compiles(p) && Compiles(q) && Apart(p.ab, q.ab)
    ensures Tolerant(PartsOf(q), PartsOf(p))
  {
    VolumesTolerated(p.ab, q.ab);
    ServiceApart(p.ab, q.ab);
    DeploymentApart(p.ab, p.grow, p.deployment, q.ab, q.grow, q.deployment);
    IngressTolerated(p.ab, q.ab);
    ConfigMapApart(p.ab, q.ab);
    SecretApart(p.ab, p.secret, q.ab, q.secret);
    SixTolerant(
      VolumesPart(q.ab), ServicePart(q.ab), DeploymentPart(q.ab, q.grow, q.deployment),
      IngressPart(q.ab), ConfigMapPart(q.ab), SecretPart(q.ab, q.secret),
      VolumesPart(p.ab), ServicePart(p.ab), DeploymentPart(p.ab, p.grow, p.deployment),
      IngressPart(p.ab), ConfigMapPart(p.ab), SecretPart(p.ab, p.secret));
  }

  lemma PlansRespect(p: Plan, q: Plan)
    requires Compiles(p) && Compiles(q) && Apart(p.ab, q.ab) && Compatible(p.ab, q.ab)
    ensures Respectful(PartsOf(p), PartsOf(q))
  {
    VolumesRespected(p.ab, q.ab);
    ServiceApart(p.ab, q.ab);
    DeploymentApart(p.ab, p.grow, p.deployment, q.ab, q.grow, q.deployment);
    IngressRespected(p.ab, q.ab);
    ConfigMapApart(p.ab, q.ab);
    SecretApart(p.ab, p.secret, q.ab, q.secret);
    SixRespectful(
      VolumesPart(p.ab), ServicePart(p.ab), DeploymentPart(p.ab, p.grow, p.deployment),
      IngressPart(p.ab), ConfigMapPart(p.ab), SecretPart(p.ab, p.secret),
      VolumesPart(q.ab), ServicePart(q.ab), DeploymentPart(q.ab, q.grow, q.deployment),
      IngressPart(q.ab), ConfigMapPart(q.ab), SecretPart(q.ab, q.secret));
  }

  ghost predicate AllCompile(plans: seq<Plan>) {
    forall i :: 0 <= i < |plans| ==> Compiles(plans[i])
  }

  ghost predicate AllApart(plans: seq<Plan>) {
    forall i, j :: 0 <= i < |plans| && 0 <= j < |plans| && i != j ==> Apart(plans[i].ab, plans[j].ab)
  }

  ghost predicate AllCompatible(plans: seq<Plan>) {
    forall i, j :: 0 <= i < |plans| && 0 <= j < |plans| && i != j ==> Compatible(plans[i].ab, plans[j].ab)
  }

  ghost function Families(plans: seq<Plan>): (families: seq<Family>)
    requires AllCompile(plans)
    ensures |families| == |plans| && forall i :: 0 <= i < |plans| ==> families[i] == PartsOf(plans[i])
  {
    seq(|plans|, i requires 0 <= i < |plans| => PartsOf(plans[i]))
  }

  lemma PlansAreCompany(plans: seq<Plan>)
    requires AllCompile(plans) && AllApart(plans)
    ensures Company(Families(plans))
  {
    forall i | 0 <= i < |plans| ensures GoodParts(PartsOf(plans[i])) {
      PartsAreGood(plans[i]);
    }
    forall i, j | 0 <= i < |plans| && 0 <= j < |plans| && i != j
      ensures Tolerant(PartsOf(plans[i]), PartsOf(plans[j])) {
      PlansTolerate(plans[j], plans[i]);
    }
  }

  lemma CompatibleIsConsiderate(plans: seq<Plan>)
    requires AllCompile(plans) && AllApart(plans) && AllCompatible(plans)
    ensures Considerate(Families(plans))
  {
    forall i, j | 0 <= i < |plans| && 0 <= j < |plans| && i != j
      ensures Respectful(PartsOf(plans[i]), PartsOf(plans[j])) {
      PlansRespect(plans[i], plans[j]);
    }
  }

  // ----- Histories of several bundles -----

  /** In turn i bundle turns[i] makes a complete pass from cluster i to cluster i + 1. */
  ghost predicate BundleTurns(plans: seq<Plan>, turns: seq<nat>, clusters: seq<Cluster>, outcomes: seq<Outcome>)
    requires AllCompile(plans)
  {
    && |clusters| == |turns| + 1 == |outcomes| + 1
    && forall i :: 0 <= i < |turns| ==> TurnOfBundle(plans, turns[i], clusters[i], clusters[i + 1], outcomes[i])
  }

  ghost predicate TurnOfBundle(plans: seq<Plan>, who: nat, c: Cluster, after: Cluster, outcome: Outcome)
    requires AllCompile(plans)
  {
    who < |plans| && BundlePass(plans[who].ab, plans[who].grow, c, after, outcome)
  }

  ghost predicate AllPresent(plans: seq<Plan>, c: Cluster) {
    forall b :: 0 <= b < |plans| ==> ExistingPresent(plans[b].ab, c)
  }

  lemma TurnsOfFamilies(plans: seq<Plan>, turns: seq<nat>, clusters: seq<Cluster>, outcomes: seq<Outcome>)
    requires AllCompile(plans) && BundleTurns(plans, turns, clusters, outcomes) && AllPresent(plans, clusters[0])
    ensures Turns(Families(plans), turns, clusters, outcomes) && AllNeeds(Families(plans), clusters[0])
  {
    var families := Families(plans);
    forall i | 0 <= i < |turns|
      ensures turns[i] < |families| && OnePass(families[turns[i]], clusters[i], clusters[i + 1], outcomes[i])
    {
      assert TurnOfBundle(plans, turns[i], clusters[i], clusters[i + 1], outcomes[i]);
      BundlePassIsPass(plans[turns[i]], clusters[i], clusters[i + 1], outcomes[i]);
    }
    forall b | 0 <= b < |plans| ensures Needs(families[b], clusters[0]) {
      PartsNeed(plans[b], clusters[0]);
    }
  }

  /** However their passes alternate, each of several bundles fails at most three times, compatible or not. */
  lemma EachFailsAtMostThrice(
    plans: seq<Plan>, turns: seq<nat>, clusters: seq<Cluster>, outcomes: seq<Outcome>, b: nat)
    requires AllCompile(plans) && AllApart(plans) && BundleTurns(plans, turns, clusters, outcomes)
    requires AllPresent(plans, clusters[0]) && b < |plans|
    ensures FailuresOf(b, turns, outcomes, |turns|) <= 3
  {
    PlansAreCompany(plans);
    TurnsOfFamilies(plans, turns, clusters, outcomes);
    EachFailsAsIfAlone(Families(plans), turns, clusters, outcomes, b);
    AtMostThreeCauses(plans[b], clusters[0]);
  }

  /** Every bundle has succeeded before t and again before u. */
  ghost predicate TwoRoundsOf(plans: seq<Plan>, turns: seq<nat>, outcomes: seq<Outcome>, t: nat, u: nat)
    requires |turns| == |outcomes|
  {
    forall b: nat :: b < |plans| ==>
      SucceedsWithin(b, turns, outcomes, 0, t) && SucceedsWithin(b, turns, outcomes, t, u)
  }

  /**
   Compatible bundles settle together.  Once each has succeeded and then succeeded
   again, every later pass of any of them succeeds, writes nothing and leaves the
   cluster as it is, and that cluster is right for all of them.
   */
  lemma CompatibleBundlesSettle(
    plans: seq<Plan>, turns: seq<nat>, clusters: seq<Cluster>, outcomes: seq<Outcome>, t: nat, u: nat, j: nat)
    requires AllCompile(plans) && AllApart(plans) && AllCompatible(plans)
    requires BundleTurns(plans, turns, clusters, outcomes) && AllPresent(plans, clusters[0])
    requires t <= u <= j < |turns| && TwoRoundsOf(plans, turns, outcomes, t, u)
    ensures !outcomes[j].failed && outcomes[j].quiet && clusters[j + 1] == clusters[u]
    ensures forall b :: 0 <= b < |plans| ==> Converged(plans[b], clusters[u])
  {
    PlansAreCompany(plans);
    CompatibleIsConsiderate(plans);
    TurnsOfFamilies(plans, turns, clusters, outcomes);
    assert TwoRounds(Families(plans), turns, outcomes, t, u);
    SettleTogether(Families(plans), turns, clusters, outcomes, t, u, j);
    forall b | 0 <= b < |plans| ensures Converged(plans[b], clusters[u]) {
      DoneAfterTwoRounds(Families(plans), turns, clusters, outcomes, t, u, b, u);
      AllPartsDone(plans[b], clusters[u]);
    }
  }

  /** Every bundle has four turns before t and four more before u. */
  predicate FourTurnsTwice(plans: seq<Plan>, turns: seq<nat>, t: nat, u: nat)
    requires t <= u <= |turns|
  {
    forall b: nat :: b < |plans| ==>
      TurnsTaken(b, turns, t) >= 4 && TurnsTaken(b, turns, u) - TurnsTaken(b, turns, t) >= 4
  }

  lemma FourTurnsSucceed(
    plans: seq<Plan>, turns: seq<nat>, clusters: seq<Cluster>, outcomes: seq<Outcome>, t: nat, u: nat, b: nat)
    requires AllCompile(plans) && AllApart(plans) && BundleTurns(plans, turns, clusters, outcomes)
    requires AllPresent(plans, clusters[0]) && t <= u <= |turns| && FourTurnsTwice(plans, turns, t, u) && b < |plans|
    ensures SucceedsWithin(b, turns, outcomes, 0, t) && SucceedsWithin(b, turns, outcomes, t, u)
  {
    EachFailsAtMostThrice(plans, turns, clusters, outcomes, b);
    MoreTurnsThanFailures(b, turns, outcomes, 0, t);
    MoreTurnsThanFailures(b, turns, outcomes, t, u);
    MoreTurnsThanFailures(b, turns, outcomes, u, |turns|);
  }

  /** Compatible bundles settle once each has had its turns, whatever the passes in between came to. */
  lemma FairTurnsSettle(
    plans: seq<Plan>, turns: seq<nat>, clusters: seq<Cluster>, outcomes: seq<Outcome>, t: nat, u: nat, j: nat)
    requires AllCompile(plans) && AllApart(plans) && AllCompatible(plans)
    requires BundleTurns(plans, turns, clusters, outcomes) && AllPresent(plans, clusters[0])
    requires t <= u <= j < |turns| && FourTurnsTwice(plans, turns, t, u)
    ensures !outcomes[j].failed && outcomes[j].quiet && clusters[j + 1] == clusters[u]
    ensures forall b :: 0 <= b < |plans| ==> Converged(plans[b], clusters[u])
  {
    forall b: nat | b < |plans|
      ensures SucceedsWithin(b, turns, outcomes, 0, t) && SucceedsWithin(b, turns, outcomes, t, u)
    {
      FourTurnsSucceed(plans, turns, clusters, outcomes, t, u, b);
    }
    CompatibleBundlesSettle(plans, turns, clusters, outcomes, t, u, j);
  }
}
