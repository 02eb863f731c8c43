/**
 Convergence.

 A pass may fail for three reasons only, each of which the pass that fails first
 for it removes for good: a Deployment whose selector must change is recreated
 and the original error returned; a stale ExternalSecret is deleted and the
 update that follows does not find it; a ConfigMap is written while several pods
 run.  So from every cluster and under every interleaving at most three passes
 fail, the next one succeeds with every object derived from what is expected, and
 all later passes write nothing.
 */
module Convergence {
  import opened Options
  import opened KeyOrder
  import opened Bundle
  import opened DeploymentCompiler
  import opened ExternalSecretCompiler
  import opened Api
  import opened Programs
  import opened SoloRuns
  import opened IngressRuns
  import opened ClaimRuns
  import opened Interleaving
  import opened Locality
  import opened Progress

  /** A bundle and what it compiles to. */
  datatype Plan = Plan(ab: AppBundle, grow: nat -> nat, deployment: Deployment, secret: Option<ExternalSecret>)

  /** Compilation succeeds, the same way on every pass. */
  ghost predicate Compiles(p: Plan) {
    && Compilable(p.ab) && p.ab.spec.backup == None && NoConflict(Entries(p.ab.spec.configs))
    && ExpectedDeployment(p.ab, p.grow) == Ok(p.deployment)
    && SecretFor(p.ab, SortedKeys(Entries(p.ab.spec.configs).Keys)) == Ok(p.secret)
  }

  predicate DeploymentComplete(spec: Spec) {
    && (forall k :: k in Entries(spec.volumes) ==> Entries(spec.volumes)[k].path.Some?)
    && (forall k :: k in Entries(spec.sourcedEnvs) ==> !HasNoSource(Entries(spec.sourcedEnvs)[k]))
  }

  predicate SecretComplete(spec: Spec) {
    spec.secretStoreRef.Some?
    || ((forall k :: k in Entries(spec.sourcedEnvs) ==> Entries(spec.sourcedEnvs)[k].externalSecret == "")
        && forall k :: k in Entries(spec.configs) ==> Entries(spec.configs)[k].secrets == map[])
  }

  /** Which bundles the convergence theorem speaks about, as one can read it off their specs. */
  predicate Complete(spec: Spec) {
    DeploymentComplete(spec) && SecretComplete(spec)
  }

  lemma CompilesIff(ab: AppBundle, grow: nat -> nat)
    requires Compilable(ab) && ab.spec.backup == None && NoConflict(Entries(ab.spec.configs))
    ensures Complete(ab.spec) <==> exists d, e :: Compiles(Plan(ab, grow, d, e))
  {
    OutcomesIff(ab, grow);
    if Complete(ab.spec) {
      var secret := SecretFor(ab, SortedKeys(Entries(ab.spec.configs).Keys));
      assert Compiles(Plan(ab, grow, ExpectedDeployment(ab, grow).value, secret.value));
    }
  }

  lemma OutcomesIff(ab: AppBundle, grow: nat -> nat)
    requires Dereferenceable(ab)
    ensures Complete(ab.spec)
       <==> ExpectedDeployment(ab, grow).Ok? && SecretFor(ab, SortedKeys(Entries(ab.spec.configs).Keys)).Ok?
  {
    DeploymentOutcome(ab, grow);
    SecretCompilesIff(ab, SortedKeys(Entries(ab.spec.configs).Keys));
  }

  lemma DeploymentOutcome(ab: AppBundle, grow: nat -> nat)
    requires Dereferenceable(ab)
    ensures DeploymentComplete(ab.spec) <==> ExpectedDeployment(ab, grow).Ok?
  {
    DeploymentCompilesIff(ab, grow);
  }

  // ----- The six parts of a pass -----

  ghost function VolumesPart(ab: AppBundle): Part
    requires VolumesReady(ab)
  {
    Part(VolumesProg(ab), {ClaimKind}, c => ExistingPresent(ab, c), c => false, c => VolumesDone(ab, c), c => true)
  }

  ghost function ServicePart(ab: AppBundle): Part {
    Part(ServiceProg(ab), {ServiceKind}, c => true, c => false, c => ServiceDone(ab, c), c => true)
  }

  ghost function DeploymentPart(ab: AppBundle, grow: nat -> nat, d: Deployment): Part
    requires Dereferenceable(ab)
  {
    Part(DeploymentProg(ab, grow), {DeploymentKind}, c => true,
         c => DeploymentPending(ab, d, c), c => DeploymentDone(ab, d, c), c => true)
  }

  ghost function IngressPart(ab: AppBundle): Part
    requires RoutesReady(ab)
  {
    Part(IngressProg(ab), {IngressKind}, c => true, c => false, c => IngressDone(ab, c), c => NoStray(ab, c))
  }

  ghost function ConfigMapPart(ab: AppBundle): Part {
    Part(ConfigMapProg(ab), CONFIG_KINDS, c => true, c => ConfigMapPending(ab, c), c => ConfigMapDone(ab, c),
         c => true)
  }

  ghost function SecretPart(ab: AppBundle, secret: Option<ExternalSecret>): Part {
    Part(SecretProg(ab, Ok(secret)), {ExternalSecretKind}, c => true,
         c => SecretPending(ab, secret, c), c => SecretDone(ab, secret, c), c => true)
  }

  lemma VolumesPartGood(ab: AppBundle)
    requires VolumesReady(ab) && ab.spec.backup == None
    ensures Good(VolumesPart(ab))
  {
    var p := VolumesPart(ab);
    VolumeLoopNotFailing(ab, SortedKeys(Entries(ab.spec.volumes).Keys));
    VolumesTame(ab);
    forall c ensures VolumesDone(ab, Restrict(c, p.kinds)) == VolumesDone(ab, c) {
      VolumesDoneIsLocal(ab, c);
    }
    forall c, mode: Mode, trace, after, err | !mode.Faulty? && p.needs(c) && Runs(p.prog, c, mode, trace, after, err)
      ensures Progresses(p, c, mode, trace, after, err)
    {
      VolumesRunSafe(ab, c, mode, trace, after, err);
      VolumesRun(ab, c, mode, trace, after, err);
    }
  }

  lemma VolumesDoneIsLocal(ab: AppBundle, c: Cluster)
    requires VolumesReady(ab)
    ensures VolumesDone(ab, Restrict(c, {ClaimKind})) == VolumesDone(ab, c)
  {
    forall key | key in Entries(ab.spec.volumes)
      ensures VolumeDone(ab, key, Restrict(c, {ClaimKind})) == VolumeDone(ab, key, c)
    {
    }
  }

  lemma ServicePartGood(ab: AppBundle)
    ensures Good(ServicePart(ab))
  {
    var p := ServicePart(ab);
    ServiceTame(ab);
    forall c, mode: Mode, trace, after, err | !mode.Faulty? && Runs(p.prog, c, mode, trace, after, err)
      ensures Progresses(p, c, mode, trace, after, err)
    {
      ServiceRun(ab, c, mode, trace, after, err);
    }
  }

  lemma DeploymentPartGood(ab: AppBundle, grow: nat -> nat, d: Deployment)
    requires Dereferenceable(ab) && ExpectedDeployment(ab, grow) == Ok(d)
    ensures Good(DeploymentPart(ab, grow, d))
  {
    var p := DeploymentPart(ab, grow, d);
    DeploymentTame(ab, grow);
    forall c, mode: Mode, trace, after, err | !mode.Faulty? && Runs(p.prog, c, mode, trace, after, err)
      ensures Progresses(p, c, mode, trace, after, err)
    {
      DeploymentRun(ab, grow, d, c, mode, trace, after, err);
    }
  }

  lemma IngressPartGood(ab: AppBundle)
    requires RoutesReady(ab)
    ensures Good(IngressPart(ab))
  {
    var p := IngressPart(ab);
    IngressTame(ab);
    forall c
      ensures IngressDone(ab, Restrict(c, p.kinds)) == IngressDone(ab, c)
      ensures NoStray(ab, Restrict(c, p.kinds)) == NoStray(ab, c)
    {
      IngressDoneIsLocal(ab, c);
    }
    forall c, mode: Mode, trace, after, err | !mode.Faulty? && Runs(p.prog, c, mode, trace, after, err)
      ensures Progresses(p, c, mode, trace, after, err)
    {
      IngressRun(ab, c, mode, trace, after, err);
    }
  }

  lemma IngressDoneIsLocal(ab: AppBundle, c: Cluster)
    requires RoutesReady(ab)
    ensures IngressDone(ab, Restrict(c, {IngressKind})) == IngressDone(ab, c)
    ensures NoStray(ab, Restrict(c, {IngressKind})) == NoStray(ab, c)
  {
    assert Labelled(ab, Restrict(c, {IngressKind})) == Labelled(ab, c);
    forall key | WantedKey(ab, key) ensures Current(ab, Restrict(c, {IngressKind}), key) == Current(ab, c, key) {
    }
  }

  lemma ConfigMapPartGood(ab: AppBundle)
    ensures Good(ConfigMapPart(ab))
  {
    var p := ConfigMapPart(ab);
    ConfigMapTame(ab);
    forall c ensures PodsOf(ab, Restrict(c, p.kinds)) == PodsOf(ab, c) {
    }
    forall c, mode: Mode, trace, after, err | !mode.Faulty? && Runs(p.prog, c, mode, trace, after, err)
      ensures Progresses(p, c, mode, trace, after, err)
    {
      ConfigMapRun(ab, c, mode, trace, after, err);
    }
  }

  lemma SecretPartGood(ab: AppBundle, secret: Option<ExternalSecret>)
    ensures Good(SecretPart(ab, secret))
  {
    var p := SecretPart(ab, secret);
    SecretTame(ab, Ok(secret));
    forall c, mode: Mode, trace, after, err | !mode.Faulty? && Runs(p.prog, c, mode, trace, after, err)
      ensures Progresses(p, c, mode, trace, after, err)
    {
      SecretRun(ab, secret, c, mode, trace, after, err);
    }
  }

  /** In the order RunReconciles is given them. */
  ghost function PartsOf(p: Plan): (parts: seq<Part>)
    requires Compiles(p)
  {
    Six(VolumesPart(p.ab), ServicePart(p.ab), DeploymentPart(p.ab, p.grow, p.deployment), IngressPart(p.ab),
        ConfigMapPart(p.ab), SecretPart(p.ab, p.secret))
  }

  lemma KindsAreDisjoint()
    ensures Disjoint([{ClaimKind}, {ServiceKind}, {DeploymentKind}, {IngressKind}, CONFIG_KINDS, {ExternalSecretKind}])
  {
  }

  lemma PartsAreGood(p: Plan)
    requires Compiles(p)
    ensures GoodParts(PartsOf(p))
  {
    VolumesPartGood(p.ab);
    ServicePartGood(p.ab);
    DeploymentPartGood(p.ab, p.grow, p.deployment);
    IngressPartGood(p.ab);
    ConfigMapPartGood(p.ab);
    SecretPartGood(p.ab, p.secret);
    KindsAreDisjoint();
    SixGoodParts(VolumesPart(p.ab), ServicePart(p.ab), DeploymentPart(p.ab, p.grow, p.deployment), IngressPart(p.ab),
                 ConfigMapPart(p.ab), SecretPart(p.ab, p.secret));
  }

  lemma ProgsOfParts(p: Plan)
    requires Compiles(p)
    ensures ProgsOf(PartsOf(p)) == Reconcilers(p.ab, p.grow, Ok(p.secret))
  {
    SixProgs(VolumesPart(p.ab), ServicePart(p.ab), DeploymentPart(p.ab, p.grow, p.deployment), IngressPart(p.ab),
             ConfigMapPart(p.ab), SecretPart(p.ab, p.secret));
  }

  /** Only three of the six can fail. */
  lemma AtMostThreeCauses(p: Plan, c: Cluster)
    requires Compiles(p)
    ensures |Causes(PartsOf(p), c)| <= 3
  {
    ThreeCauses(VolumesPart(p.ab), ServicePart(p.ab), DeploymentPart(p.ab, p.grow, p.deployment), IngressPart(p.ab),
                ConfigMapPart(p.ab), SecretPart(p.ab, p.secret), c);
  }

  // ----- Passes -----

  /** One pass: some range order for the configs, some interleaving, every program at its end. */
  ghost predicate FinishedPass(
    ab: AppBundle, grow: nat -> nat, c: Cluster, order: seq<string>, moves: seq<Move>, end: PassState)
    requires Compilable(ab)
  {
    && Enumerates(order, Entries(ab.spec.configs).Keys)
    && Pass(Start(ab, grow, SecretFor(ab, order), c), moves, end)
    && Finished(end)
  }

  ghost predicate BundlePass(ab: AppBundle, grow: nat -> nat, c: Cluster, after: Cluster, outcome: Outcome)
    requires Compilable(ab)
  {
    exists order, moves, end ::
      && FinishedPass(ab, grow, c, order, moves, end)
      && after == end.cluster
      && outcome == OutcomeOf(Start(ab, grow, SecretFor(ab, order), c), moves, end)
  }

  /** The range order cannot be seen in what was compiled. */
  lemma RangeOrderInvisible(ab: AppBundle, order: seq<string>, secret: Option<ExternalSecret>)
    requires NoConflict(Entries(ab.spec.configs)) && Enumerates(order, Entries(ab.spec.configs).Keys)
    requires SecretFor(ab, SortedKeys(Entries(ab.spec.configs).Keys)) == Ok(secret)
    ensures SecretFor(ab, order) == Ok(secret)
  {
    BindWithoutConflict(Entries(ab.spec.configs), order, SortedKeys(Entries(ab.spec.configs).Keys));
  }

  /** Every pass of the bundle is a pass over the six parts. */
  lemma StartIsParts(p: Plan, order: seq<string>, c: Cluster)
    requires Compiles(p) && Enumerates(order, Entries(p.ab.spec.configs).Keys)
    ensures Start(p.ab, p.grow, SecretFor(p.ab, order), c) == StartOf(PartsOf(p), c)
  {
    RangeOrderInvisible(p.ab, order, p.secret);
    ProgsOfParts(p);
  }

  lemma BundlePassIsPass(p: Plan, c: Cluster, after: Cluster, outcome: Outcome)
    requires Compiles(p) && BundlePass(p.ab, p.grow, c, after, outcome)
    ensures OnePass(PartsOf(p), c, after, outcome)
  {
    var order, moves, end :|
      && FinishedPass(p.ab, p.grow, c, order, moves, end)
      && after == end.cluster
      && outcome == OutcomeOf(Start(p.ab, p.grow, SecretFor(p.ab, order), c), moves, end);
    StartIsParts(p, order, c);
    assert Ran(PartsOf(p), c, moves, end);
  }

  /** Pass i leads from cluster i to cluster i + 1. */
  ghost predicate BundleHistory(ab: AppBundle, grow: nat -> nat, clusters: seq<Cluster>, outcomes: seq<Outcome>)
    requires Compilable(ab)
  {
    && |clusters| == |outcomes| + 1
    && forall i :: 0 <= i < |outcomes| ==> BundlePass(ab, grow, clusters[i], clusters[i + 1], outcomes[i])
  }

  /** Every object is there and derives from what is expected, and nothing is there that should not be. */
  ghost predicate Converged(p: Plan, c: Cluster)
    requires Compiles(p)
  {
    && VolumesDone(p.ab, c)
    && ServiceDone(p.ab, c)
    && DeploymentDone(p.ab, p.deployment, c)
    && IngressDone(p.ab, c)
    && ConfigMapDone(p.ab, c)
    && SecretDone(p.ab, p.secret, c)
  }

  lemma AllPartsDone(p: Plan, c: Cluster)
    requires Compiles(p) && AllDone(PartsOf(p), c)
    ensures Converged(p, c)
  {
    SixDone(VolumesPart(p.ab), ServicePart(p.ab), DeploymentPart(p.ab, p.grow, p.deployment), IngressPart(p.ab),
            ConfigMapPart(p.ab), SecretPart(p.ab, p.secret), c);
  }

  /** If pass i succeeds it leaves every object up to date. */
  ghost predicate ConvergedAfter(p: Plan, clusters: seq<Cluster>, outcomes: seq<Outcome>, i: nat)
    requires Compiles(p) && |clusters| == |outcomes| + 1 && i < |outcomes|
  {
    !outcomes[i].failed ==> Converged(p, clusters[i + 1])
  }

  /**
   Convergence.  In every run of passes over a bundle that compiles and whose
   existing claims are there, from whatever cluster it starts, at most three passes
   fail.  A pass that succeeds leaves every object up to date, and every pass after
   it succeeds too, writes nothing and leaves the cluster as it is.
   */
  lemma Converges(p: Plan, clusters: seq<Cluster>, outcomes: seq<Outcome>)
    requires Compiles(p) && BundleHistory(p.ab, p.grow, clusters, outcomes) && ExistingPresent(p.ab, clusters[0])
    ensures CountFailed(outcomes) <= 3
    ensures |outcomes| > 3 ==> !outcomes[3].failed
    ensures forall i: nat :: i < |outcomes| ==> ConvergedAfter(p, clusters, outcomes, i)
    ensures forall i: nat, j: nat :: i < j < |outcomes| ==> QuietPair(clusters, outcomes, i, j)
  {
    FewFailures(p, clusters, outcomes);
    EverySuccessConverges(p, clusters, outcomes);
    EverySuccessIsLast(p, clusters, outcomes);
  }

  lemma EverySuccessConverges(p: Plan, clusters: seq<Cluster>, outcomes: seq<Outcome>)
    requires Compiles(p) && BundleHistory(p.ab, p.grow, clusters, outcomes) && ExistingPresent(p.ab, clusters[0])
    ensures forall i: nat :: i < |outcomes| ==> ConvergedAfter(p, clusters, outcomes, i)
  {
    forall i: nat | i < |outcomes| ensures ConvergedAfter(p, clusters, outcomes, i) {
      if !outcomes[i].failed {
        AfterSuccess(p, clusters, outcomes, i, i);
      }
    }
  }

  lemma EverySuccessIsLast(p: Plan, clusters: seq<Cluster>, outcomes: seq<Outcome>)
    requires Compiles(p) && BundleHistory(p.ab, p.grow, clusters, outcomes) && ExistingPresent(p.ab, clusters[0])
    ensures forall i: nat, j: nat :: i < j < |outcomes| ==> QuietPair(clusters, outcomes, i, j)
  {
    forall i: nat, j: nat | i < j < |outcomes| ensures QuietPair(clusters, outcomes, i, j) {
      if !outcomes[i].failed {
        AfterSuccess(p, clusters, outcomes, i, j);
      }
    }
  }

  lemma FewFailures(p: Plan, clusters: seq<Cluster>, outcomes: seq<Outcome>)
    requires Compiles(p) && BundleHistory(p.ab, p.grow, clusters, outcomes) && ExistingPresent(p.ab, clusters[0])
    ensures CountFailed(outcomes) <= 3
    ensures |outcomes| > 3 ==> !outcomes[3].failed
  {
    PartsAreGood(p);
    HistoryOfParts(p, clusters, outcomes);
    AtMostThreeCauses(p, clusters[0]);
    TotalFailures(PartsOf(p), clusters, outcomes, 3);
    if |outcomes| > 3 {
      SuccessBy(PartsOf(p), clusters, outcomes, 3);
    }
  }

  lemma AfterSuccess(p: Plan, clusters: seq<Cluster>, outcomes: seq<Outcome>, i: nat, j: nat)
    requires Compiles(p) && BundleHistory(p.ab, p.grow, clusters, outcomes) && ExistingPresent(p.ab, clusters[0])
    requires i <= j < |outcomes| && !outcomes[i].failed
    ensures Converged(p, clusters[i + 1]) && !outcomes[j].failed && clusters[j + 1] == clusters[i + 1]
    ensures i < j ==> outcomes[j].quiet
  {
    PartsAreGood(p);
    HistoryOfParts(p, clusters, outcomes);
    StaysQuiet(PartsOf(p), clusters, outcomes, i, j);
    AllPartsDone(p, clusters[i + 1]);
  }

  lemma HistoryOfParts(p: Plan, clusters: seq<Cluster>, outcomes: seq<Outcome>)
    requires Compiles(p) && BundleHistory(p.ab, p.grow, clusters, outcomes) && ExistingPresent(p.ab, clusters[0])
    ensures PassHistory(PartsOf(p), clusters, outcomes) && Needs(PartsOf(p), clusters[0])
  {
    forall i | 0 <= i < |outcomes| ensures OnePass(PartsOf(p), clusters[i], clusters[i + 1], outcomes[i]) {
      BundlePassIsPass(p, clusters[i], clusters[i + 1], outcomes[i]);
    }
    PartsNeed(p, clusters[0]);
  }

  lemma PartsNeed(p: Plan, c: Cluster)
    requires Compiles(p) && ExistingPresent(p.ab, c)
    ensures Needs(PartsOf(p), c)
  {
    SixNeeds(VolumesPart(p.ab), ServicePart(p.ab), DeploymentPart(p.ab, p.grow, p.deployment), IngressPart(p.ab),
             ConfigMapPart(p.ab), SecretPart(p.ab, p.secret), c);
  }

  /** In every finished pass, failed or not, each reconciler that returned nil is done. */
  lemma NilReturnsAreDone(
    p: Plan, c: Cluster, order: seq<string>, moves: seq<Move>, end: PassState, i: nat)
    requires Compiles(p) && FinishedPass(p.ab, p.grow, c, order, moves, end) && ExistingPresent(p.ab, c)
    requires i < 6 && i < |end.procs| && end.procs[i] == Ret(None)
    ensures i == 0 ==> VolumesDone(p.ab, end.cluster)
    ensures i == 1 ==> ServiceDone(p.ab, end.cluster)
    ensures i == 2 ==> DeploymentDone(p.ab, p.deployment, end.cluster)
    ensures i == 3 ==> IngressDone(p.ab, end.cluster)
    ensures i == 4 ==> ConfigMapDone(p.ab, end.cluster)
    ensures i == 5 ==> SecretDone(p.ab, p.secret, end.cluster)
  {
    PartsAreGood(p);
    StartIsParts(p, order, c);
    PartsNeed(p, c);
    NilMeansDone(PartsOf(p), c, moves, end, i);
    PartAt(p, i, end.cluster);
  }

  lemma PartAt(p: Plan, i: nat, c: Cluster)
    requires Compiles(p) && i < 6 && PartsOf(p)[i].done(c)
    ensures i == 0 ==> VolumesDone(p.ab, c)
    ensures i == 1 ==> ServiceDone(p.ab, c)
    ensures i == 2 ==> DeploymentDone(p.ab, p.deployment, c)
    ensures i == 3 ==> IngressDone(p.ab, c)
    ensures i == 4 ==> ConfigMapDone(p.ab, c)
    ensures i == 5 ==> SecretDone(p.ab, p.secret, c)
  {
    SixAt(VolumesPart(p.ab), ServicePart(p.ab), DeploymentPart(p.ab, p.grow, p.deployment), IngressPart(p.ab),
          ConfigMapPart(p.ab), SecretPart(p.ab, p.secret), i, c);
  }
}
