/**
 When two bundles can be right at once.

 For two bundles that compile there is a cluster that is right for both exactly
 when they are compatible.  Names are what usually stands in the way: ingresses and
 claims are named after a bundle and a key with a dash between them, so that
 different bundles can ask for one object; but a claim that one bundle manages and
 another mounts is enough.
 */
module Collisions {
  import opened Options
  import opened Bundle
  import opened BaseInheritance
  import opened DeepDerivative
  import opened DeploymentCompiler
  import opened ConfigMapCompiler
  import opened ExternalSecretCompiler
  import opened ServiceCompiler
  import opened IngressCompiler
  import opened ClaimCompiler
  import opened Api
  import opened Programs
  import opened SoloRuns
  import opened IngressRuns
  import opened ClaimRuns
  import opened Locality
  import opened Convergence
  import opened Neighbours
  import opened StoredObjects

  /** Bundles of one namespace share an ingress exactly when their wanted route keys make up for their names. */
  lemma SharedIngressIff(a: AppBundle, b: AppBundle)
    requires Apart(a, b)
    ensures !NoSharedIngress(a, b) <==> a.namespace == b.namespace && exists j, k ::
      WantedKey(a, j) && WantedKey(b, k) && (Shifted(a.name, j, b.name, k) || Shifted(b.name, k, a.name, j))
  {
    forall j, k | WantedKey(a, j) && WantedKey(b, k)
      ensures IngressKey(a, j) == IngressKey(b, k) <==>
        a.namespace == b.namespace && (Shifted(a.name, j, b.name, k) || Shifted(b.name, k, a.name, j))
    {
      DashedEqualIff(a.name, j, b.name, k);
    }
  }

  /** The backend of an ingress names its bundle's Service, so one stored ingress is up to date for
      one bundle at most. */
  lemma IngressCollision(ab1: AppBundle, ab2: AppBundle, key1: string, key2: string, c: Cluster)
    requires RoutesReady(ab1) && RoutesReady(ab2) && WantedKey(ab1, key1) && WantedKey(ab2, key2)
    requires ab1.name != ab2.name && ab1.name != "" && ab2.name != ""
    requires IngressKey(ab1, key1) == IngressKey(ab2, key2)
    ensures !(IngressDone(ab1, c) && IngressDone(ab2, c))
  {
    if IngressDone(ab1, c) && IngressDone(ab2, c) {
      assert Current(ab1, c, key1) && Current(ab2, c, key2);
      SameBackend(ab1, ab2, key1, key2, c[IngressKey(ab1, key1)].spec);
    }
  }

  lemma SameBackend(ab1: AppBundle, ab2: AppBundle, key1: string, key2: string, stored: Value)
    requires RoutesReady(ab1) && RoutesReady(ab2) && WantedKey(ab1, key1) && WantedKey(ab2, key2)
    requires Derives(IngressObj(ab1, key1).spec, stored) && Derives(IngressObj(ab2, key2).spec, stored)
    requires ab1.name != "" && ab2.name != ""
    ensures ab1.name == ab2.name
  {
    BackendStored(ExpectedIngress(ab1, IngressName(ab1, key1), Entries(ab1.spec.routes)[key1]), stored);
    BackendStored(ExpectedIngress(ab2, IngressName(ab2, key2), Entries(ab2.spec.routes)[key2]), stored);
  }

  /** A claim's labels name its bundle, so one claim is up to date for one bundle at most. */
  lemma ClaimCollision(ab1: AppBundle, ab2: AppBundle, key1: string, key2: string, c: Cluster)
    requires VolumesReady(ab1) && VolumesReady(ab2)
    requires key1 in Entries(ab1.spec.volumes) && KindOf(VolumeAt(ab1, key1)) == Claimed
    requires key2 in Entries(ab2.spec.volumes) && KindOf(VolumeAt(ab2, key2)) == Claimed
    requires ab1.name != ab2.name && ClaimKey(ab1, key1) == ClaimKey(ab2, key2)
    ensures !(VolumesDone(ab1, c) && VolumesDone(ab2, c))
  {
    if VolumesDone(ab1, c) && VolumesDone(ab2, c) {
      assert VolumeDone(ab1, key1, c) && VolumeDone(ab2, key2, c);
      ClaimLabelsMeaning(ab1, VolumeAt(ab1, key1));
      ClaimLabelsMeaning(ab2, VolumeAt(ab2, key2));
    }
  }

  /** A managed claim has exactly its manager's labels, so who mounts it must not want others. */
  lemma MountedHasLabels(manager: AppBundle, mounter: AppBundle, key: string, c: Cluster)
    requires VolumesReady(manager) && VolumesReady(mounter)
    requires manager.spec.backup == None && mounter.spec.backup == None
    requires key in Entries(manager.spec.volumes) && KindOf(VolumeAt(manager, key)) == Claimed
    requires Mounts(mounter, ClaimKey(manager, key))
    requires VolumesDone(manager, c) && VolumesDone(mounter, c)
    ensures DefaultLabels(mounter).Keys <= DefaultLabels(manager).Keys
  {
    assert VolumeDone(manager, key, c);
    var j :| j in Entries(mounter.spec.volumes) && KindOf(VolumeAt(mounter, j)) == Existing
      && ClaimKey(manager, key) == ExistingKey(mounter, VolumeAt(mounter, j));
    assert VolumeDone(mounter, j, c);
  }

  // ----- A cluster that is right for two compatible bundles -----

  /** What follows the bundle's name and the dash. */
  function KeyPart(ab: AppBundle, name: string): string {
    if |name| > |ab.name| then name[|ab.name| + 1..] else ""
  }

  lemma KeyPartOfDashed(ab: AppBundle, key: string)
    ensures KeyPart(ab, Dashed(ab.name, key)) == key
  {
  }

  function ManagedKeys(ab: AppBundle): set<Key> {
    set key | key in Entries(ab.spec.volumes) && KindOf(VolumeAt(ab, key)) == Claimed :: ClaimKey(ab, key)
  }

  function OwnClaim(ab: AppBundle, key: string): Obj {
    if key in Entries(ab.spec.volumes) && KindOf(VolumeAt(ab, key)) == Claimed
      && ClaimDereferenceable(VolumeAt(ab, key))
    then ClaimObj(ab, VolumeAt(ab, key)) else Obj(map[], ZERO_CLAIM)
  }

  function OwnClaims(ab: AppBundle): Cluster {
    map k | k in ManagedKeys(ab) :: OwnClaim(ab, KeyPart(ab, k.name))
  }

  function WantedIngresses(ab: AppBundle): set<Key> {
    set key | key in Entries(ab.spec.routes) && WantsIngress(Entries(ab.spec.routes)[key]) :: IngressKey(ab, key)
  }

  function OwnIngress(ab: AppBundle, key: string): Obj {
    if RoutesReady(ab) && WantedKey(ab, key) then IngressObj(ab, key) else Obj(map[], ZERO_INGRESS)
  }

  function OwnIngresses(ab: AppBundle): Cluster {
    map k | k in WantedIngresses(ab) :: OwnIngress(ab, KeyPart(ab, k.name))
  }

  ghost function OwnService(ab: AppBundle): Cluster {
    if ab.spec.routes == None then map[] else map[OwnKey(ab, ServiceKind) := ServiceObj(ab, ZERO_SERVICE)]
  }

  function OwnConfigMap(ab: AppBundle): Cluster {
    match ExpectedConfigMap(ab)
    case None => map[]
    case Some(data) => map[OwnKey(ab, ConfigMapKind) := ConfigMapObj(data)]
  }

  function OwnSecret(ab: AppBundle, secret: Option<ExternalSecret>): Cluster {
    match secret
    case None => map[]
    case Some(e) => map[OwnKey(ab, ExternalSecretKind) := SecretObj(e)]
  }

  function OwnDeployment(ab: AppBundle, d: Deployment): Cluster {
    map[OwnKey(ab, DeploymentKind) := DeploymentObj(d)]
  }

  /** Everything the bundle writes, as it should be. */
  ghost function OwnObjects(ab: AppBundle, d: Deployment, secret: Option<ExternalSecret>): Cluster {
    OwnClaims(ab) + OwnIngresses(ab) + OwnService(ab) + OwnDeployment(ab, d) + OwnConfigMap(ab) + OwnSecret(ab, secret)
  }

  /** The claims that are only mounted, with the labels both bundles want. */
  function OnlyMounted(a: AppBundle, b: AppBundle): Cluster {
    map k | k in ExistingKeys(a) + ExistingKeys(b) :: Obj(DefaultLabels(a) + DefaultLabels(b), ZERO_CLAIM)
  }

  predicate Agree(x: Cluster, y: Cluster, k: Key) {
    (k in x <==> k in y) && (k in x ==> x[k] == y[k])
  }

  predicate OfKind(m: Cluster, kind: Kind) {
    forall k :: k in m ==> k.kind == kind
  }

  lemma OwnByKind(ab: AppBundle, d: Deployment, secret: Option<ExternalSecret>, k: Key)
    ensures ByKind(OwnObjects(ab, d, secret), OwnClaims(ab), OwnIngresses(ab), OwnService(ab),
                   OwnDeployment(ab, d), OwnConfigMap(ab), OwnSecret(ab, secret), k)
  {
    OwnKinds(ab, d, secret);
    SumByKind(OwnClaims(ab), OwnIngresses(ab), OwnService(ab), OwnDeployment(ab, d), OwnConfigMap(ab),
              OwnSecret(ab, secret), k);
  }

  lemma OwnKinds(ab: AppBundle, d: Deployment, secret: Option<ExternalSecret>)
    ensures OfKind(OwnClaims(ab), ClaimKind) && OfKind(OwnIngresses(ab), IngressKind)
    ensures OfKind(OwnService(ab), ServiceKind) && OfKind(OwnDeployment(ab, d), DeploymentKind)
    ensures OfKind(OwnConfigMap(ab), ConfigMapKind) && OfKind(OwnSecret(ab, secret), ExternalSecretKind)
  {
  }

  /** At a key of some kind the whole is what the part of that kind is. */
  predicate ByKind(
    all: Cluster, claims: Cluster, ingresses: Cluster, service: Cluster, deployment: Cluster, config: Cluster,
    secret: Cluster, k: Key)
  {
    match k.kind
    case ClaimKind => Agree(all, claims, k)
    case IngressKind => Agree(all, ingresses, k)
    case ServiceKind => Agree(all, service, k)
    case DeploymentKind => Agree(all, deployment, k)
    case ConfigMapKind => Agree(all, config, k)
    case ExternalSecretKind => Agree(all, secret, k)
    case PodKind => k !in all
  }

  lemma SumByKind(
    claims: Cluster, ingresses: Cluster, service: Cluster, deployment: Cluster, config: Cluster, secret: Cluster,
    k: Key)
    requires OfKind(claims, ClaimKind) && OfKind(ingresses, IngressKind) && OfKind(service, ServiceKind)
    requires OfKind(deployment, DeploymentKind) && OfKind(config, ConfigMapKind) && OfKind(secret, ExternalSecretKind)
    ensures ByKind(claims + ingresses + service + deployment + config + secret,
                   claims, ingresses, service, deployment, config, secret, k)
  {
  }

  lemma ClaimRight(a: AppBundle, key: string)
    requires VolumesReady(a) && key in Entries(a.spec.volumes) && KindOf(VolumeAt(a, key)) == Claimed
    ensures ClaimKey(a, key) in OwnClaims(a) && OwnClaims(a)[ClaimKey(a, key)] == ClaimObj(a, VolumeAt(a, key))
  {
    KeyPartOfDashed(a, key);
  }

  lemma OwnClaimLabels(a: AppBundle, k: Key)
    requires VolumesReady(a) && a.spec.backup == None && k in OwnClaims(a)
    ensures OwnClaims(a)[k].labels == DefaultLabels(a) && Managed(a, k)
  {
    var key :| key in Entries(a.spec.volumes) && KindOf(VolumeAt(a, key)) == Claimed && k == ClaimKey(a, key);
    ClaimRight(a, key);
  }

  /** m holds claims, and among them those the bundle mounts, with the label keys it wants. */
  predicate HoldsMounts(m: Cluster, ab: AppBundle) {
    && OfKind(m, ClaimKind)
    && (forall k :: k in ExistingKeys(ab) ==> k in m && DefaultLabels(ab).Keys <= m[k].labels.Keys)
  }

  lemma VolumesRight(a: AppBundle, b: AppBundle, m: Cluster, c: Cluster)
    requires HoldsMounts(m, a)
    requires VolumesReady(a) && VolumesReady(b) && a.spec.backup == None && b.spec.backup == None && ClaimsFree(b, a)
    requires AgreeOn(ClaimKind, c, m + OwnClaims(b) + OwnClaims(a))
    ensures VolumesDone(a, c)
  {
    forall key | key in Entries(a.spec.volumes) ensures VolumeDone(a, key, c) {
      var v := VolumeAt(a, key);
      if KindOf(v) == Existing {
        MountedRight(a, b, key, m, c);
      } else if KindOf(v) == Claimed {
        ClaimRight(a, key);
        DerivesReflexive(ClaimObj(a, v).spec);
        assert Agree(c, m + OwnClaims(b) + OwnClaims(a), ClaimKey(a, key));
      }
    }
  }

  lemma MountedRight(a: AppBundle, b: AppBundle, key: string, m: Cluster, c: Cluster)
    requires HoldsMounts(m, a)
    requires VolumesReady(a) && VolumesReady(b) && a.spec.backup == None && b.spec.backup == None && ClaimsFree(b, a)
    requires key in Entries(a.spec.volumes) && KindOf(VolumeAt(a, key)) == Existing
    requires Agree(c, m + OwnClaims(b) + OwnClaims(a), ExistingKey(a, VolumeAt(a, key)))
    ensures VolumeDone(a, key, c)
  {
    var k := ExistingKey(a, VolumeAt(a, key));
    assert k in ExistingKeys(a) && Mounts(a, k);
    if k in OwnClaims(a) {
      OwnClaimLabels(a, k);
    } else if k in OwnClaims(b) {
      OwnClaimLabels(b, k);
    }
  }

  lemma IngressRight(a: AppBundle, key: string)
    requires RoutesReady(a) && WantedKey(a, key)
    ensures IngressKey(a, key) in OwnIngresses(a) && OwnIngresses(a)[IngressKey(a, key)] == IngressObj(a, key)
  {
    KeyPartOfDashed(a, key);
  }

  lemma IngressesRight(a: AppBundle, b: AppBundle, c: Cluster)
    requires RoutesReady(a) && RoutesReady(b) && Apart(a, b)
    requires AgreeOn(IngressKind, c, OwnIngresses(b) + OwnIngresses(a))
    ensures IngressDone(a, c)
  {
    forall key | WantedKey(a, key) ensures Current(a, c, key) {
      IngressRight(a, key);
      DerivesReflexive(IngressObj(a, key).spec);
      assert Agree(c, OwnIngresses(b) + OwnIngresses(a), IngressKey(a, key));
    }
    forall k | k in Labelled(a, c) ensures Wanted(a, k) {
      assert Agree(c, OwnIngresses(b) + OwnIngresses(a), k);
      if k !in OwnIngresses(a) {
        NotLabelledByOther(a, b, k);
      }
    }
  }

  lemma NotLabelledByOther(a: AppBundle, b: AppBundle, k: Key)
    requires RoutesReady(b) && Apart(a, b) && k in OwnIngresses(b)
    ensures !(k.namespace == a.namespace && HasBundleLabel(OwnIngresses(b)[k], a.name))
  {
    var key :| key in Entries(b.spec.routes) && WantsIngress(Entries(b.spec.routes)[key]) && k == IngressKey(b, key);
    IngressRight(b, key);
    OwnLabelsWin(b);
    assert DefaultLabels(b)[APP_BUNDLE_SELECTOR] == b.name;
  }

  lemma ServiceRight(a: AppBundle, b: AppBundle, c: Cluster)
    requires Apart(a, b)
    requires AgreeOn(ServiceKind, c, OwnService(b) + OwnService(a))
    ensures ServiceDone(a, c)
  {
    var k := OwnKey(a, ServiceKind);
    assert Agree(c, OwnService(b) + OwnService(a), k);
    if a.spec.routes != None {
      var sent := ServiceObj(a, ZERO_SERVICE);
      DerivesReflexive(sent.spec);
      StoredServiceIsFixedPoint(a, GetGeneratedServiceSpecData(ZERO_SERVICE), sent.spec);
    }
  }

  lemma ConfigMapRight(a: AppBundle, b: AppBundle, c: Cluster)
    requires Apart(a, b)
    requires AgreeOn(ConfigMapKind, c, OwnConfigMap(b) + OwnConfigMap(a))
    ensures ConfigMapDone(a, c)
  {
    assert Agree(c, OwnConfigMap(b) + OwnConfigMap(a), OwnKey(a, ConfigMapKind));
    if ExpectedConfigMap(a).Some? {
      DerivesReflexive(ConfigMapObj(ExpectedConfigMap(a).value).spec);
    }
  }

  lemma SecretRight(a: AppBundle, s: Option<ExternalSecret>, b: AppBundle, t: Option<ExternalSecret>, c: Cluster)
    requires Apart(a, b)
    requires AgreeOn(ExternalSecretKind, c, OwnSecret(b, t) + OwnSecret(a, s))
    ensures SecretDone(a, s, c)
  {
    assert Agree(c, OwnSecret(b, t) + OwnSecret(a, s), OwnKey(a, ExternalSecretKind));
    if s.Some? {
      DerivesReflexive(SecretObj(s.value).spec);
    }
  }

  lemma DeploymentRight(a: AppBundle, d: Deployment, b: AppBundle, e: Deployment, c: Cluster)
    requires AgreeOn(DeploymentKind, c, OwnDeployment(b, e) + OwnDeployment(a, d))
    ensures DeploymentDone(a, d, c)
  {
    assert Agree(c, OwnDeployment(b, e) + OwnDeployment(a, d), OwnKey(a, DeploymentKind));
    DerivesReflexive(DeploymentObj(d).spec);
  }

  /** A cluster that holds what both bundles want; where they want one object the last one added prevails. */
  ghost function JointCluster(m: Cluster, p: Plan, q: Plan): Cluster {
    m + OwnObjects(q.ab, q.deployment, q.secret) + OwnObjects(p.ab, p.deployment, p.secret)
  }

  lemma LayersByKind(
    m: Cluster, x: Cluster, x1: Cluster, x2: Cluster, x3: Cluster, x4: Cluster, x5: Cluster, x6: Cluster,
    y: Cluster, y1: Cluster, y2: Cluster, y3: Cluster, y4: Cluster, y5: Cluster, y6: Cluster, k: Key)
    requires OfKind(m, ClaimKind) && ByKind(x, x1, x2, x3, x4, x5, x6, k) && ByKind(y, y1, y2, y3, y4, y5, y6, k)
    ensures ByKind(m + y + x, m + y1 + x1, y2 + x2, y3 + x3, y4 + x4, y5 + x5, y6 + x6, k)
  {
  }

  lemma JointByKind(m: Cluster, p: Plan, q: Plan, k: Key)
    requires OfKind(m, ClaimKind)
    ensures var a, b := p.ab, q.ab;
      ByKind(JointCluster(m, p, q), m + OwnClaims(b) + OwnClaims(a), OwnIngresses(b) + OwnIngresses(a),
             OwnService(b) + OwnService(a), OwnDeployment(b, q.deployment) + OwnDeployment(a, p.deployment),
             OwnConfigMap(b) + OwnConfigMap(a), OwnSecret(b, q.secret) + OwnSecret(a, p.secret), k)
  {
    OwnByKind(p.ab, p.deployment, p.secret, k);
    OwnByKind(q.ab, q.deployment, q.secret, k);
    LayersByKind(m,
      OwnObjects(p.ab, p.deployment, p.secret), OwnClaims(p.ab), OwnIngresses(p.ab), OwnService(p.ab),
      OwnDeployment(p.ab, p.deployment), OwnConfigMap(p.ab), OwnSecret(p.ab, p.secret),
      OwnObjects(q.ab, q.deployment, q.secret), OwnClaims(q.ab), OwnIngresses(q.ab), OwnService(q.ab),
      OwnDeployment(q.ab, q.deployment), OwnConfigMap(q.ab), OwnSecret(q.ab, q.secret), k);
  }

  /** Two clusters agree on all objects of a kind. */
  ghost predicate AgreeOn(kind: Kind, x: Cluster, y: Cluster) {
    forall k: Key :: k.kind == kind ==> Agree(x, y, k)
  }

  lemma SplitByKind(
    all: Cluster, claims: Cluster, ingresses: Cluster, service: Cluster, deployment: Cluster, config: Cluster,
    secret: Cluster)
    requires forall k :: ByKind(all, claims, ingresses, service, deployment, config, secret, k)
    ensures AgreeOn(ClaimKind, all, claims) && AgreeOn(IngressKind, all, ingresses)
    ensures AgreeOn(ServiceKind, all, service) && AgreeOn(DeploymentKind, all, deployment)
    ensures AgreeOn(ConfigMapKind, all, config) && AgreeOn(ExternalSecretKind, all, secret)
  {
    forall k: Key ensures k.kind == ClaimKind ==> Agree(all, claims, k)
      ensures k.kind == IngressKind ==> Agree(all, ingresses, k)
      ensures k.kind == ServiceKind ==> Agree(all, service, k)
      ensures k.kind == DeploymentKind ==> Agree(all, deployment, k)
      ensures k.kind == ConfigMapKind ==> Agree(all, config, k)
      ensures k.kind == ExternalSecretKind ==> Agree(all, secret, k)
    {
      assert ByKind(all, claims, ingresses, service, deployment, config, secret, k);
    }
  }

  lemma JointKinds(m: Cluster, p: Plan, q: Plan)
    requires OfKind(m, ClaimKind)
    ensures var c, a, b := JointCluster(m, p, q), p.ab, q.ab;
      && AgreeOn(ClaimKind, c, m + OwnClaims(b) + OwnClaims(a))
      && AgreeOn(IngressKind, c, OwnIngresses(b) + OwnIngresses(a))
      && AgreeOn(ServiceKind, c, OwnService(b) + OwnService(a))
      && AgreeOn(DeploymentKind, c, OwnDeployment(b, q.deployment) + OwnDeployment(a, p.deployment))
      && AgreeOn(ConfigMapKind, c, OwnConfigMap(b) + OwnConfigMap(a))
      && AgreeOn(ExternalSecretKind, c, OwnSecret(b, q.secret) + OwnSecret(a, p.secret))
  {
    var a, b := p.ab, q.ab;
    forall k { JointByKind(m, p, q, k); }
    SplitByKind(
      JointCluster(m, p, q), m + OwnClaims(b) + OwnClaims(a), OwnIngresses(b) + OwnIngresses(a),
      OwnService(b) + OwnService(a), OwnDeployment(b, q.deployment) + OwnDeployment(a, p.deployment),
      OwnConfigMap(b) + OwnConfigMap(a), OwnSecret(b, q.secret) + OwnSecret(a, p.secret));
  }

  lemma RightForFirst(m: Cluster, p: Plan, q: Plan)
    requires Compiles(p) && Compiles(q) && Apart(p.ab, q.ab) && Compatible(p.ab, q.ab) && HoldsMounts(m, p.ab)
    ensures Converged(p, JointCluster(m, p, q))
  {
    var c := JointCluster(m, p, q);
    JointKinds(m, p, q);
    VolumesRight(p.ab, q.ab, m, c);
    ServiceRight(p.ab, q.ab, c);
    DeploymentRight(p.ab, p.deployment, q.ab, q.deployment, c);
    IngressesRight(p.ab, q.ab, c);
    ConfigMapRight(p.ab, q.ab, c);
    SecretRight(p.ab, p.secret, q.ab, q.secret, c);
  }

  lemma NoCommonClaim(a: AppBundle, b: AppBundle, k: Key)
    requires ClaimsFree(a, b) && k in OwnClaims(a)
    ensures k !in OwnClaims(b)
  {
    var key :| key in Entries(a.spec.volumes) && KindOf(VolumeAt(a, key)) == Claimed && k == ClaimKey(a, key);
    assert !Managed(b, ClaimKey(a, key));
  }

  lemma NoCommonIngress(a: AppBundle, b: AppBundle, k: Key)
    requires NoSharedIngress(a, b) && k in OwnIngresses(a)
    ensures k !in OwnIngresses(b)
  {
    var i :| i in Entries(a.spec.routes) && WantsIngress(Entries(a.spec.routes)[i]) && k == IngressKey(a, i);
    assert WantedKey(a, i);
    forall j | j in Entries(b.spec.routes) && WantsIngress(Entries(b.spec.routes)[j]) ensures k != IngressKey(b, j) {
      assert WantedKey(b, j);
    }
  }

  /** Compatible bundles want no object in common. */
  lemma NoCommonObject(p: Plan, q: Plan, k: Key)
    requires Apart(p.ab, q.ab) && Compatible(p.ab, q.ab)
    requires k in OwnObjects(p.ab, p.deployment, p.secret)
    ensures k !in OwnObjects(q.ab, q.deployment, q.secret)
  {
    OwnByKind(p.ab, p.deployment, p.secret, k);
    OwnByKind(q.ab, q.deployment, q.secret, k);
    if k.kind == ClaimKind {
      NoCommonClaim(p.ab, q.ab, k);
    } else if k.kind == IngressKind {
      NoCommonIngress(p.ab, q.ab, k);
    } else {
      NoCommonSingle(p.ab, p.deployment, p.secret, q.ab, q.deployment, q.secret, k);
    }
  }

  lemma NoCommonSingle(
    a: AppBundle, d: Deployment, s: Option<ExternalSecret>, b: AppBundle, e: Deployment, t: Option<ExternalSecret>,
    k: Key)
    requires Apart(a, b)
    ensures k in OwnService(a) ==> k !in OwnService(b)
    ensures k in OwnDeployment(a, d) ==> k !in OwnDeployment(b, e)
    ensures k in OwnConfigMap(a) ==> k !in OwnConfigMap(b)
    ensures k in OwnSecret(a, s) ==> k !in OwnSecret(b, t)
  {
  }

  lemma JointIsSymmetric(m: Cluster, p: Plan, q: Plan)
    requires Apart(p.ab, q.ab) && Compatible(p.ab, q.ab)
    ensures JointCluster(m, p, q) == JointCluster(m, q, p)
  {
    var a, b := OwnObjects(p.ab, p.deployment, p.secret), OwnObjects(q.ab, q.deployment, q.secret);
    forall k | k in a ensures k !in b {
      NoCommonObject(p, q, k);
    }
    SumsCommute(m, a, b);
  }

  lemma SumsCommute(m: Cluster, a: Cluster, b: Cluster)
    requires forall k :: k in a ==> k !in b
    ensures m + a + b == m + b + a
  {
  }

  lemma JointlyRight(p: Plan, q: Plan) returns (c: Cluster)
    requires Compiles(p) && Compiles(q) && Apart(p.ab, q.ab) && Compatible(p.ab, q.ab)
    ensures Converged(p, c) && Converged(q, c)
  {
    var m := OnlyMounted(p.ab, q.ab);
    RightForFirst(m, p, q);
    RightForFirst(m, q, p);
    JointIsSymmetric(m, p, q);
    c := JointCluster(m, p, q);
  }

  /** Whatever is right for both shows that they are compatible. */
  lemma BothRightIsCompatible(p: Plan, q: Plan, c: Cluster)
    requires Compiles(p) && Compiles(q) && Apart(p.ab, q.ab) && p.ab.name != "" && q.ab.name != ""
    requires Converged(p, c) && Converged(q, c)
    ensures Compatible(p.ab, q.ab)
  {
    IngressesFreeWhenDone(p.ab, q.ab, c);
    ClaimsFreeWhenDone(p.ab, q.ab, c);
    ClaimsFreeWhenDone(q.ab, p.ab, c);
  }

  lemma IngressesFreeWhenDone(a: AppBundle, b: AppBundle, c: Cluster)
    requires RoutesReady(a) && RoutesReady(b) && Apart(a, b) && a.name != "" && b.name != ""
    requires IngressDone(a, c) && IngressDone(b, c)
    ensures NoSharedIngress(a, b)
  {
    forall j, k | WantedKey(a, j) && WantedKey(b, k) ensures IngressKey(a, j) != IngressKey(b, k) {
      if IngressKey(a, j) == IngressKey(b, k) {
        IngressCollision(a, b, j, k, c);
      }
    }
  }

  lemma ClaimsFreeWhenDone(a: AppBundle, b: AppBundle, c: Cluster)
    requires VolumesReady(a) && VolumesReady(b) && a.spec.backup == None && b.spec.backup == None && Apart(a, b)
    requires VolumesDone(a, c) && VolumesDone(b, c)
    ensures ClaimsFree(a, b)
  {
    forall key | key in Entries(a.spec.volumes) && KindOf(VolumeAt(a, key)) == Claimed
      ensures !Managed(b, ClaimKey(a, key))
      ensures Mounts(b, ClaimKey(a, key)) ==> DefaultLabels(b).Keys <= DefaultLabels(a).Keys
    {
      if Managed(b, ClaimKey(a, key)) {
        var other :| other in Entries(b.spec.volumes) && KindOf(VolumeAt(b, other)) == Claimed
          && ClaimKey(a, key) == ClaimKey(b, other);
        ClaimCollision(a, b, key, other, c);
      }
      if Mounts(b, ClaimKey(a, key)) {
        MountedHasLabels(a, b, key, c);
      }
    }
  }

  /**
   Two bundles can be right at once, in some cluster, exactly when they share no
   ingress and no managed claim and each managed claim that the other mounts has the
   label keys the other wants.
   */
  lemma BothRightIff(p: Plan, q: Plan)
    requires Compiles(p) && Compiles(q) && Apart(p.ab, q.ab) && p.ab.name != "" && q.ab.name != ""
    ensures (exists c :: Converged(p, c) && Converged(q, c)) <==> Compatible(p.ab, q.ab)
  {
    if Compatible(p.ab, q.ab) {
      var c := JointlyRight(p, q);
    }
    if c :| Converged(p, c) && Converged(q, c) {
      BothRightIsCompatible(p, q, c);
    }
  }

  // ----- Bundles that are not compatible -----

  const IMAGE_ONLY := EMPTY_SPEC.(image := Some(Image(Some("nginx"), Some("1.27"), None)))

  const PUBLIC := Route(Some(80), None, None, Some(RouteIngress(Some("example.org"), Some(false))))

  const WEB := AppBundle("AppBundle", "web", "apps", None, None, IMAGE_ONLY.(routes := Some(map["a-b" := PUBLIC])))

  const WEB_A := AppBundle("AppBundle", "web-a", "apps", None, None, IMAGE_ONLY.(routes := Some(map["b" := PUBLIC])))

  /** Two bundles whose names continue each other ask for one ingress. */
  lemma SharedIngressBundles()
    ensures Complete(WEB.spec) && Complete(WEB_A.spec) && Compilable(WEB) && Compilable(WEB_A)
    ensures !Compatible(WEB, WEB_A) && forall c :: !(IngressDone(WEB, c) && IngressDone(WEB_A, c))
  {
    assert Dashed("web", "a-b") == "web-a-b" == Dashed("web-a", "b");
    assert WantedKey(WEB, "a-b") && WantedKey(WEB_A, "b");
    assert IngressKey(WEB, "a-b") == IngressKey(WEB_A, "b");
    assert WEB.name != WEB_A.name by { assert |WEB.name| != |WEB_A.name|; }
    forall c ensures !(IngressDone(WEB, c) && IngressDone(WEB_A, c)) {
      IngressCollision(WEB, WEB_A, "a-b", "b", c);
    }
  }

  const STORE := AppBundle("AppBundle", "store", "apps", None, None,
    IMAGE_ONLY.(volumes := Some(map["data" := Volume(None, None, Some("/data"), Some("1Gi"), None, None, None)])))

  const READER := AppBundle("AppBundle", "reader", "apps", Some(map["team" := "search"]), None,
    IMAGE_ONLY.(volumes := Some(map["in" := Volume(None, None, Some("/in"), None, None, Some("store-data"), None)])))

  /** A bundle with a label of its own mounts the claim of another, with nothing wrong about their names. */
  lemma MountedClaimBundles()
    ensures Complete(STORE.spec) && Complete(READER.spec) && Compilable(STORE) && Compilable(READER)
    ensures !Compatible(STORE, READER) && forall c :: !(VolumesDone(STORE, c) && VolumesDone(READER, c))
  {
    ReaderMountsStore();
    TeamLabel();
    forall c ensures !(VolumesDone(STORE, c) && VolumesDone(READER, c)) {
      StoreOrReader(c);
    }
  }

  lemma StoreOrReader(c: Cluster)
    ensures !(VolumesDone(STORE, c) && VolumesDone(READER, c))
  {
    ReaderMountsStore();
    TeamLabel();
    if VolumesDone(STORE, c) && VolumesDone(READER, c) {
      MountedHasLabels(STORE, READER, "data", c);
    }
  }

  lemma ReaderMountsStore()
    ensures "data" in Entries(STORE.spec.volumes) && KindOf(VolumeAt(STORE, "data")) == Claimed
    ensures Mounts(READER, ClaimKey(STORE, "data"))
  {
    assert Dashed("store", "data") == "store-data";
    assert "in" in Entries(READER.spec.volumes) && KindOf(VolumeAt(READER, "in")) == Existing;
  }

  lemma TeamLabel()
    ensures "team" in DefaultLabels(READER) && "team" !in DefaultLabels(STORE)
  {
    assert "team"[1] == 'e' && ARGOCD_INSTANCE[1] == 'r' && APP_BUNDLE_SELECTOR[1] == 'p';
    assert "app.kubernetes.io/instance"[1] == 'p' && "app.kubernetes.io/name"[1] == 'p'
      && "atro.xyz/app-bundle"[1] == 't';
  }
}
