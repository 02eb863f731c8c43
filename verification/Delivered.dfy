/**
 What a cluster holds after a bundle's passes.

 Every object stands where its users look for it: under the bundle's own name, or
 the name and a key, in the bundle's own namespace.  The references between stored
 objects lead to stored objects that have what is referred to: from an ingress to a
 port of the Service and on to the pods, from a pod's volumes to ConfigMaps, secrets
 and claims, from a variable to a template that is filled.  Keys and names are
 written out.
 */
module Delivered {
  import opened Options
  import opened KeyOrder
  import opened Bundle
  import opened DeepDerivative
  import opened ConfigMounts
  import opened DeploymentCompiler
  import opened DeploymentEncoding
  import opened ConfigMapCompiler
  import opened ExternalSecretCompiler
  import opened ServiceCompiler
  import opened IngressCompiler
  import opened ClaimCompiler
  import opened CompiledObjects
  import opened StoredObjects
  import opened Api
  import opened Programs
  import opened SoloRuns
  import opened IngressRuns
  import opened ClaimRuns
  import opened Interleaving
  import opened Progress
  import opened Convergence

  // ----- Where the objects are -----

  predicate DeploymentInPlace(ab: AppBundle, d: Deployment, c: Cluster) {
    var k := Key(DeploymentKind, ab.namespace, ab.name);
    k in c && Derives(EncodeDeployment(d), c[k].spec) && c[k].labels == DefaultLabels(ab)
  }

  ghost predicate ServiceInPlace(ab: AppBundle, c: Cluster) {
    var k := Key(ServiceKind, ab.namespace, ab.name);
    if ab.spec.routes == None then k !in c
    else
      && k in c && c[k].labels == DefaultLabels(ab)
      && Derives(EncodePorts(ServicePorts(ab)), Child(c[k].spec, 0))
      && Says(Child(c[k].spec, 1), if ab.spec.serviceType.Some? then ab.spec.serviceType.value else "ClusterIP")
      && Derives(StringMap(map["appbundle" := ab.name]), Child(c[k].spec, 2))
  }

  predicate ConfigMapInPlace(ab: AppBundle, c: Cluster) {
    var k := Key(ConfigMapKind, ab.namespace, ab.name);
    match ExpectedConfigMap(ab)
    case None => k !in c
    case Some(data) => k in c && Derives(StringMap(data), c[k].spec)
  }

  predicate SecretInPlace(ab: AppBundle, secret: Option<ExternalSecret>, c: Cluster) {
    var k := Key(ExternalSecretKind, ab.namespace, ab.name);
    match secret
    case None => k !in c
    case Some(e) => k in c && Derives(EncodeExternalSecret(e), c[k].spec)
  }

  /** The keys whose routes ask for an ingress. */
  predicate Asked(ab: AppBundle, key: string) {
    key in Entries(ab.spec.routes) && Entries(ab.spec.routes)[key].ingress.Some?
  }

  /** All that were asked for are there, and no other of the namespace carries the bundle's label. */
  ghost predicate IngressesInPlace(ab: AppBundle, c: Cluster)
    requires RoutesReady(ab)
  {
    && (forall key :: Asked(ab, key) ==> IngressInPlace(ab, key, c))
    && (forall k :: k in c && k.kind == IngressKind && k.namespace == ab.namespace && CarriesLabel(c[k], ab.name) ==>
          exists key :: Asked(ab, key) && k.name == ab.name + "-" + key)
  }

  predicate CarriesLabel(obj: Obj, name: string) {
    "appbundle" in obj.labels && obj.labels["appbundle"] == name
  }

  predicate IngressInPlace(ab: AppBundle, key: string, c: Cluster)
    requires RoutesReady(ab) && Asked(ab, key)
  {
    var k := Key(IngressKind, ab.namespace, ab.name + "-" + key);
    k in c && Derives(EncodeIngress(ExpectedIngress(ab, k.name, Entries(ab.spec.routes)[key])), c[k].spec)
  }

  /** An existing claim has gained the label keys; one of the bundle's own has its labels and spec. */
  predicate ClaimInPlace(ab: AppBundle, key: string, c: Cluster)
    requires VolumesReady(ab) && key in Entries(ab.spec.volumes)
  {
    var v := Entries(ab.spec.volumes)[key];
    if v.existingClaim.Some? then
      var k := Key(ClaimKind, ab.namespace, v.existingClaim.value);
      k in c && DefaultLabels(ab).Keys <= c[k].labels.Keys
    else if v.hostPath.Some? || v.emptyDir == Some(true) then true
    else
      var k := Key(ClaimKind, ab.namespace, ab.name + "-" + key);
      k in c && c[k].labels == DefaultLabels(ab) && Derives(EncodeClaim(v), c[k].spec)
  }

  predicate ClaimsInPlace(ab: AppBundle, c: Cluster)
    requires VolumesReady(ab)
  {
    forall key :: key in Entries(ab.spec.volumes) ==> ClaimInPlace(ab, key, c)
  }

  lemma DeploymentDoneInPlace(ab: AppBundle, d: Deployment, c: Cluster, grow: nat -> nat)
    requires Dereferenceable(ab) && ExpectedDeployment(ab, grow) == Ok(d) && DeploymentDone(ab, d, c)
    ensures DeploymentInPlace(ab, d, c)
  {
  }

  lemma ServiceDoneInPlace(ab: AppBundle, c: Cluster)
    requires ServiceDone(ab, c)
    ensures ServiceInPlace(ab, c)
  {
    if ab.spec.routes.Some? {
      var stored := c[OwnKey(ab, ServiceKind)].spec;
      ServiceStored(ServicePorts(ab), ServiceTypeOf(ab), MatchLabels(ab), GetGeneratedServiceSpecData(stored), stored);
    }
  }

  lemma ConfigMapDoneInPlace(ab: AppBundle, c: Cluster)
    requires ConfigMapDone(ab, c)
    ensures ConfigMapInPlace(ab, c)
  {
  }

  lemma SecretDoneInPlace(ab: AppBundle, secret: Option<ExternalSecret>, c: Cluster)
    requires SecretDone(ab, secret, c)
    ensures SecretInPlace(ab, secret, c)
  {
  }

  lemma IngressDoneInPlace(ab: AppBundle, c: Cluster)
    requires RoutesReady(ab) && IngressDone(ab, c)
    ensures IngressesInPlace(ab, c)
  {
    forall key | Asked(ab, key) ensures IngressInPlace(ab, key, c) {
      assert WantedKey(ab, key) && Current(ab, c, key);
    }
    forall k | k in c && k.kind == IngressKind && k.namespace == ab.namespace && CarriesLabel(c[k], ab.name)
      ensures exists key :: Asked(ab, key) && k.name == ab.name + "-" + key
    {
      assert k in Labelled(ab, c);
      var key :| WantedKey(ab, key) && k == IngressKey(ab, key);
      assert Asked(ab, key) && k.name == ab.name + "-" + key;
    }
  }

  lemma VolumesDoneInPlace(ab: AppBundle, c: Cluster)
    requires VolumesReady(ab) && ab.spec.backup == None && VolumesDone(ab, c)
    ensures ClaimsInPlace(ab, c)
  {
    forall key | key in Entries(ab.spec.volumes) ensures ClaimInPlace(ab, key, c) {
      assert VolumeDone(ab, key, c);
    }
  }

  /** In every finished pass, failed or not, what a reconciler returned nil for is in its place, or rightly absent. */
  lemma NilMeansInPlace(p: Plan, c: Cluster, order: seq<string>, moves: seq<Move>, end: PassState, i: nat)
    requires Compiles(p) && FinishedPass(p.ab, p.grow, c, order, moves, end) && ExistingPresent(p.ab, c)
    requires i < 6 && i < |end.procs| && end.procs[i] == Ret(None)
    ensures i == 0 ==> ClaimsInPlace(p.ab, end.cluster)
    ensures i == 1 ==> ServiceInPlace(p.ab, end.cluster)
    ensures i == 2 ==> DeploymentInPlace(p.ab, p.deployment, end.cluster)
    ensures i == 3 ==> IngressesInPlace(p.ab, end.cluster)
    ensures i == 4 ==> ConfigMapInPlace(p.ab, end.cluster)
    ensures i == 5 ==> SecretInPlace(p.ab, p.secret, end.cluster)
  {
    NilReturnsAreDone(p, c, order, moves, end, i);
    match i {
      case 0 => VolumesDoneInPlace(p.ab, end.cluster);
      case 1 => ServiceDoneInPlace(p.ab, end.cluster);
      case 2 => DeploymentDoneInPlace(p.ab, p.deployment, end.cluster, p.grow);
      case 3 => IngressDoneInPlace(p.ab, end.cluster);
      case 4 => ConfigMapDoneInPlace(p.ab, end.cluster);
      case 5 => SecretDoneInPlace(p.ab, p.secret, end.cluster);
    }
  }

  /** All six. */
  ghost predicate AllInPlace(p: Plan, c: Cluster)
    requires Compiles(p)
  {
    && ClaimsInPlace(p.ab, c) && ServiceInPlace(p.ab, c) && DeploymentInPlace(p.ab, p.deployment, c)
    && IngressesInPlace(p.ab, c) && ConfigMapInPlace(p.ab, c) && SecretInPlace(p.ab, p.secret, c)
  }

  lemma ConvergedInPlace(p: Plan, c: Cluster)
    requires Compiles(p) && Converged(p, c)
    ensures AllInPlace(p, c)
  {
    VolumesDoneInPlace(p.ab, c);
    ServiceDoneInPlace(p.ab, c);
    DeploymentDoneInPlace(p.ab, p.deployment, c, p.grow);
    IngressDoneInPlace(p.ab, c);
    ConfigMapDoneInPlace(p.ab, c);
    SecretDoneInPlace(p.ab, p.secret, c);
  }

  /** From the fourth pass on at the latest everything is in its place and stays as it is. */
  lemma FourPassesDeliver(p: Plan, clusters: seq<Cluster>, outcomes: seq<Outcome>, i: nat)
    requires Compiles(p) && BundleHistory(p.ab, p.grow, clusters, outcomes) && ExistingPresent(p.ab, clusters[0])
    requires 4 <= i < |clusters|
    ensures AllInPlace(p, clusters[i]) && clusters[i] == clusters[4]
  {
    FewFailures(p, clusters, outcomes);
    AfterSuccess(p, clusters, outcomes, 3, i - 1);
    ConvergedInPlace(p, clusters[i]);
  }

  // ----- From an ingress to the pods -----

  /** Traffic for a stored ingress goes to a port of a Service of its namespace, and on to the bundle's pods. */
  lemma IngressReachesPods(p: Plan, c: Cluster, key: string)
    requires Compiles(p) && AllInPlace(p, c) && Asked(p.ab, key) && p.ab.name != ""
    ensures var ns, route := p.ab.namespace, Entries(p.ab.spec.routes)[key];
      var at, pods := Key(IngressKind, ns, p.ab.name + "-" + key), Key(DeploymentKind, ns, p.ab.name);
      && at in c && pods in c
      && Says(Child(FirstRule(c[at].spec), 0), route.ingress.value.domain.value)
      && Child(FirstPath(c[at].spec), 0) == Str("/")
      && BackendName(c[at].spec).Str?
      && var service := Key(ServiceKind, ns, BackendName(c[at].spec).s);
      && service in c
      && ServesRoute(Child(c[service].spec, 0), key, BackendPort(c[at].spec), route)
      && SelectsBy(Child(c[service].spec, 2), "appbundle", p.ab.name)
      && SelectsBy(PodLabels(c[pods].spec), "appbundle", p.ab.name)
  {
    var ab, ns, route := p.ab, p.ab.namespace, Entries(p.ab.spec.routes)[key];
    var at, service := Key(IngressKind, ns, ab.name + "-" + key), Key(ServiceKind, ns, ab.name);
    assert IngressInPlace(ab, key, c);
    var ingress := ExpectedIngress(ab, at.name, route);
    PathStored(ingress, c[at].spec);
    BackendStored(ingress, c[at].spec);
    RouteServed(ab, key, Child(c[service].spec, 0));
    StoredEntry(map["appbundle" := ab.name], Child(c[service].spec, 2), "appbundle");
    PodsLabelled(p, c);
  }

  /** Its TLS section is for the same host, with a secret no other ingress of the namespace has. */
  lemma IngressTlsDelivered(p: Plan, c: Cluster, key: string)
    requires Compiles(p) && AllInPlace(p, c) && Asked(p.ab, key)
    ensures var ns, name := p.ab.namespace, p.ab.name + "-" + key;
      var at, domain := Key(IngressKind, ns, name), Entries(p.ab.spec.routes)[key].ingress.value.domain.value;
      && at in c
      && var tls := Child(Child(c[at].spec, 1), 0);
      Says(Child(Child(tls, 0), 0), domain) && Child(tls, 1) == Str(name + "-" + ns + "-ingress-tls")
  {
    var at := Key(IngressKind, p.ab.namespace, p.ab.name + "-" + key);
    assert IngressInPlace(p.ab, key, c);
    var ingress := ExpectedIngress(p.ab, at.name, Entries(p.ab.spec.routes)[key]);
    TlsStored(ingress, c[at].spec);
    assert |ingress.tlsSecret| > 0;
  }

  /** The stored container declares the port of each route. */
  lemma PortDelivered(p: Plan, c: Cluster, key: string) returns (i: nat)
    requires Compiles(p) && DeploymentInPlace(p.ab, p.deployment, c) && key in Entries(p.ab.spec.routes)
    ensures var ports := Child(MainContainer(c[Key(DeploymentKind, p.ab.namespace, p.ab.name)].spec), 4);
      && ports.Slice? && i < |ports.elems|
      && Says(Child(ports.elems[i], 0), key)
      && Child(ports.elems[i], 1) == Num(ToInt32(Entries(p.ab.spec.routes)[key].port.value))
  {
    var d, spec := p.deployment, c[Key(DeploymentKind, p.ab.namespace, p.ab.name)].spec;
    var port := ContainerPort(key, ToInt32(Entries(p.ab.spec.routes)[key].port.value), "TCP");
    ContainerPortsMeaning(p.ab, port);
    PodStored(d, spec);
    ContainerListsStored(d.container, MainContainer(spec));
    assert d.container == ExpectedContainer(p.ab);
    var ports := Child(MainContainer(spec), 4);
    ContainerPortsStored(d.container.ports, ports, port);
    i :| 0 <= i < |ports.elems| && ContainerPortStored(port, ports.elems[i]);
  }

  predicate SelectsBy(labels: Value, k: string, v: string) {
    labels.Map? && k in labels.entries && labels.entries[k] == Str(v)
  }

  /** A stored port with the route's name and the given number that leads to the route's target. */
  predicate LeadsToTarget(port: Value, key: string, number: Value, route: Route)
    requires route.port.Some?
  {
    && Says(Child(port, 0), key) && Child(port, 2) == number
    && Child(port, 3) == Num(ToInt32(if route.targetPort.Some? then route.targetPort.value else route.port.value))
  }

  ghost predicate ServesRoute(ports: Value, key: string, number: Value, route: Route)
    requires route.port.Some?
  {
    ports.Slice? && exists i :: 0 <= i < |ports.elems| && LeadsToTarget(ports.elems[i], key, number, route)
  }

  lemma RouteServed(ab: AppBundle, key: string, ports: Value)
    requires PortsSet(ab) && key in Entries(ab.spec.routes) && Derives(EncodePorts(ServicePorts(ab)), ports)
    ensures var route := Entries(ab.spec.routes)[key];
      ServesRoute(ports, key, Num(ToInt32(route.port.value)), route)
  {
    var port := PortOfRoute(ab, key);
    PortsStored(ServicePorts(ab), ports, port);
    var i :| 0 <= i < |ports.elems| && PortStored(port, ports.elems[i]);
    assert LeadsToTarget(ports.elems[i], key, Num(port.port), Entries(ab.spec.routes)[key]);
  }

  /** The pods carry the label that the Service and the Deployment itself select by. */
  lemma PodsLabelled(p: Plan, c: Cluster)
    requires Compiles(p) && DeploymentInPlace(p.ab, p.deployment, c) && p.ab.name != ""
    ensures var spec := c[Key(DeploymentKind, p.ab.namespace, p.ab.name)].spec;
      SelectsBy(PodLabels(spec), "appbundle", p.ab.name) && SelectsBy(SelectorOf(spec), "appbundle", p.ab.name)
  {
    var d, spec := p.deployment, c[Key(DeploymentKind, p.ab.namespace, p.ab.name)].spec;
    TemplateStored(d, spec);
    ReplicasStored(d, spec);
    assert d.matchLabels == MatchLabels(p.ab);
    StoredEntry(d.matchLabels, PodLabels(spec), "appbundle");
    StoredEntry(d.matchLabels, SelectorOf(spec), "appbundle");
  }

  // ----- From a pod's volumes to what they hold -----

  lemma VolumeHeld(p: Plan, c: Cluster, pv: PodVolume) returns (i: nat)
    requires Compiles(p) && DeploymentInPlace(p.ab, p.deployment, c) && pv in PodVolumes(p.ab)
    ensures var volumes := VolumesOf(c[Key(DeploymentKind, p.ab.namespace, p.ab.name)].spec);
      volumes.Slice? && i < |volumes.elems| && Derives(EncodePod(pv), volumes.elems[i])
  {
    var d, spec := p.deployment, c[Key(DeploymentKind, p.ab.namespace, p.ab.name)].spec;
    PodStored(d, spec);
    assert d.volumes == PodVolumes(p.ab);
    HasEach(d.volumes, EncodePod, VolumesOf(spec));
    assert Has(VolumesOf(spec), EncodePod(pv));
    i :| 0 <= i < |VolumesOf(spec).elems| && Derives(EncodePod(pv), VolumesOf(spec).elems[i]);
  }

  /** The volume of a generated config leads to the ConfigMap of the pod's namespace that holds its content. */
  lemma ConfigIsMounted(p: Plan, c: Cluster, key: string) returns (i: nat)
    requires Compiles(p) && AllInPlace(p, c) && p.ab.name != "" && key != "" && key in Entries(p.ab.spec.configs)
    requires Entries(p.ab.spec.configs)[key].existing == None && Entries(p.ab.spec.configs)[key].secrets == map[]
    ensures var ns, config := p.ab.namespace, Entries(p.ab.spec.configs)[key];
      var pods := Key(DeploymentKind, ns, p.ab.name);
      && pods in c && VolumesOf(c[pods].spec).Slice? && i < |VolumesOf(c[pods].spec).elems|
      && var volume := VolumesOf(c[pods].spec).elems[i];
      && Child(volume, 0) == Str("cm-" + key)
      && VolumeRef(volume, CONFIG_MAP_REF).Str? && Child(ItemOf(volume, CONFIG_MAP_REF), 0).Str?
      && var cm := Key(ConfigMapKind, ns, VolumeRef(volume, CONFIG_MAP_REF).s);
      var item := Child(ItemOf(volume, CONFIG_MAP_REF), 0).s;
      && cm in c && c[cm].spec.Map? && item in c[cm].spec.entries && Says(c[cm].spec.entries[item], config.content)
      && Says(Child(ItemOf(volume, CONFIG_MAP_REF), 1), config.fileName)
  {
    var ab, config := p.ab, Entries(p.ab.spec.configs)[key];
    var pv := ConfigVolume(ab, key);
    i := VolumeHeld(p, c, pv);
    var volume := VolumesOf(c[Key(DeploymentKind, ab.namespace, ab.name)].spec).elems[i];
    ConfigMapVolumeStored("cm-" + key, ab.name, key, config.fileName, volume);
    ConfigMapMeaning(ab, key);
    StoredEntry(ExpectedConfigMap(ab).value, c[Key(ConfigMapKind, ab.namespace, ab.name)].spec, key);
  }

  /** The volume of a config with secrets leads to a secret that an ExternalSecret of the pod's namespace writes. */
  lemma SecretConfigIsMounted(p: Plan, c: Cluster, key: string) returns (i: nat)
    requires Compiles(p) && AllInPlace(p, c) && p.ab.name != "" && key in Entries(p.ab.spec.configs)
    requires Entries(p.ab.spec.configs)[key].existing == None && Entries(p.ab.spec.configs)[key].secrets != map[]
    ensures var ns, config := p.ab.namespace, Entries(p.ab.spec.configs)[key];
      var pods, es := Key(DeploymentKind, ns, p.ab.name), Key(ExternalSecretKind, ns, p.ab.name);
      && pods in c && es in c && VolumesOf(c[pods].spec).Slice? && i < |VolumesOf(c[pods].spec).elems|
      && var volume := VolumesOf(c[pods].spec).elems[i];
      && Child(volume, 0) == Str("sec-" + key)
      && VolumeRef(volume, SECRET_REF) == TargetName(c[es].spec) == Str(p.ab.name)
      && HoldsTemplate(c[es].spec, Child(ItemOf(volume, SECRET_REF), 0), config.content)
      && Says(Child(ItemOf(volume, SECRET_REF), 1), config.fileName)
  {
    var ab, config := p.ab, Entries(p.ab.spec.configs)[key];
    var pv := ConfigVolume(ab, key);
    i := VolumeHeld(p, c, pv);
    var volume := VolumesOf(c[Key(DeploymentKind, ab.namespace, ab.name)].spec).elems[i];
    SecretVolumeStored("sec-" + key, ab.name, "cfg" + key, config.fileName, volume);
    var order := SortedKeys(Entries(ab.spec.configs).Keys);
    var e := FetchedSecret(p, order, key);
    ConfigTemplateIsContent(ab, order, e, key);
    SecretStored(e, c[Key(ExternalSecretKind, ab.namespace, ab.name)].spec);
    StoredEntry(e.templates, TemplatesOf(c[Key(ExternalSecretKind, ab.namespace, ab.name)].spec), "cfg" + key);
  }

  /** The secret key has a template with the given text. */
  predicate HoldsTemplate(spec: Value, key: Value, text: string) {
    key.Str? && TemplatesOf(spec).Map? && key.s in TemplatesOf(spec).entries
    && Says(TemplatesOf(spec).entries[key.s], text)
  }

  lemma FetchedSecret(p: Plan, order: seq<string>, key: string) returns (e: ExternalSecret)
    requires Compiles(p) && order == SortedKeys(Entries(p.ab.spec.configs).Keys) && TemplatedConfig(p.ab, key)
    ensures p.secret == Some(e) && SecretFor(p.ab, order) == Ok(Some(e)) && e.target == p.ab.name
  {
    var configs := Entries(p.ab.spec.configs);
    var s :| s in configs[key].secrets;
    ConfigBeatsEnv(p.ab, order, key, s);
    e := p.secret.value;
  }

  /** The volume of a claim leads to a claim of the pod's namespace, the bundle's own or the existing one. */
  lemma ClaimIsMounted(p: Plan, c: Cluster, key: string) returns (i: nat)
    requires Compiles(p) && AllInPlace(p, c) && key in Entries(p.ab.spec.volumes)
    requires var v := Entries(p.ab.spec.volumes)[key];
      v.hostPath == None && v.emptyDir != Some(true) && v.existingClaim != Some("")
    ensures var ns, v := p.ab.namespace, Entries(p.ab.spec.volumes)[key];
      var pods := Key(DeploymentKind, ns, p.ab.name);
      && pods in c && VolumesOf(c[pods].spec).Slice? && i < |VolumesOf(c[pods].spec).elems|
      && var volume := VolumesOf(c[pods].spec).elems[i];
      && VolumeRef(volume, CLAIM_REF).Str?
      && var claim := Key(ClaimKind, ns, VolumeRef(volume, CLAIM_REF).s);
      && claim in c && DefaultLabels(p.ab).Keys <= c[claim].labels.Keys
      && (v.existingClaim == None ==> HoldsStorage(c[claim].spec, v.size.value))
  {
    var ab, v := p.ab, Entries(p.ab.spec.volumes)[key];
    var m, pv := VolumeMounted(ab, key);
    i := VolumeHeld(p, c, pv);
    var volume := VolumesOf(c[Key(DeploymentKind, ab.namespace, ab.name)].spec).elems[i];
    ClaimVolumeStored(pv.name, pv.source.claimName, volume);
    assert ClaimInPlace(ab, key, c);
    if v.existingClaim == None {
      ClaimStored(v, c[Key(ClaimKind, ab.namespace, ab.name + "-" + key)].spec);
    }
  }

  /** A host path or an empty directory is what the stored pod volume of its name is. */
  lemma LocalVolumeDelivered(p: Plan, c: Cluster, key: string) returns (i: nat)
    requires Compiles(p) && DeploymentInPlace(p.ab, p.deployment, c) && key in Entries(p.ab.spec.volumes)
    requires var v := Entries(p.ab.spec.volumes)[key]; v.hostPath.Some? || v.emptyDir == Some(true)
    ensures var volumes := VolumesOf(c[Key(DeploymentKind, p.ab.namespace, p.ab.name)].spec);
      var v := Entries(p.ab.spec.volumes)[key];
      && volumes.Slice? && i < |volumes.elems|
      && Says(Child(volumes.elems[i], 0), if v.existingClaim.Some? then v.existingClaim.value else key)
      && if v.hostPath.Some? then Says(VolumeRef(volumes.elems[i], HOST_PATH_REF), v.hostPath.value)
         else Child(Child(volumes.elems[i], 1), 1) != Ptr(None)
  {
    var m, pv := VolumeMounted(p.ab, key);
    i := VolumeHeld(p, c, pv);
    var v := Entries(p.ab.spec.volumes)[key];
    var volume := VolumesOf(c[Key(DeploymentKind, p.ab.namespace, p.ab.name)].spec).elems[i];
    if v.hostPath.Some? {
      HostPathStored(pv.name, v.hostPath.value, volume);
    } else {
      EmptyDirStored(pv.name, volume);
    }
  }

  predicate HoldsStorage(spec: Value, size: string) {
    var requests := Child(Child(spec, 2), 0);
    && Child(spec, 0).Slice? && Child(Child(spec, 0), 0) == Str("ReadWriteOnce")
    && requests.Map? && "storage" in requests.entries && Says(requests.entries["storage"], size)
  }

  // ----- The container -----

  /** The stored main container runs what the bundle asks for. */
  lemma ContainerDelivered(p: Plan, c: Cluster)
    requires Compiles(p) && DeploymentInPlace(p.ab, p.deployment, c) && p.ab.name != ""
    ensures var spec, image := c[Key(DeploymentKind, p.ab.namespace, p.ab.name)].spec, p.ab.spec.image.value;
      var main := MainContainer(spec);
      && Child(main, 0) == Str(p.ab.name)
      && Child(main, 1) == Str(image.repository.value + ":" + image.tag.value)
      && Says(Child(main, 2), if image.pullPolicy.Some? then image.pullPolicy.value else "Always")
      && Derives(EncodeAll(p.ab.spec.command, EncodeString), Child(main, 10))
      && Derives(EncodeAll(p.ab.spec.args, EncodeString), Child(main, 11))
  {
    var spec, d := c[Key(DeploymentKind, p.ab.namespace, p.ab.name)].spec, p.deployment;
    PodStored(d, spec);
    ContainerStored(d.container, MainContainer(spec));
    assert d.container == ExpectedContainer(p.ab);
    assert |d.container.image| > 0;
  }

  /** So it has the resources and probes, and the pod its replicas, node selector and GPU. */
  lemma PodDelivered(p: Plan, c: Cluster)
    requires Compiles(p) && DeploymentInPlace(p.ab, p.deployment, c)
    ensures var spec, s := c[Key(DeploymentKind, p.ab.namespace, p.ab.name)].spec, p.ab.spec;
      var main := MainContainer(spec);
      && (s.replicas.Some? ==> Child(spec, 0) == Ptr(Some(Num(s.replicas.value))))
      && (s.resources.Some? ==> Child(main, 3) == Ptr(Some(Num(s.resources.value))))
      && (s.livenessProbe.Some? ==> Child(main, 7) == Ptr(Some(Num(s.livenessProbe.value))))
      && (s.readinessProbe.Some? ==> Child(main, 8) == Ptr(Some(Num(s.readinessProbe.value))))
      && (s.startupProbe.Some? ==> Child(main, 9) == Ptr(Some(Num(s.startupProbe.value))))
      && Derives(StringMap(Entries(s.nodeSelector)), Child(PodSpec(spec), 5))
      && FixedParts(spec) && (s.useNvidia == Some(true) ==> AsksForNvidia(spec))
  {
    var spec, d := c[Key(DeploymentKind, p.ab.namespace, p.ab.name)].spec, p.deployment;
    ReplicasStored(d, spec);
    PodStored(d, spec);
    PodSettingsStored(d, spec);
    OpaquesStored(d.container, MainContainer(spec));
    assert d.container == ExpectedContainer(p.ab);
    if d.nvidia {
      NvidiaStored(d, spec);
    }
  }

  /** A variable that no sourced one hides is in the stored environment with its value. */
  lemma PlainEnvDelivered(p: Plan, c: Cluster, name: string) returns (i: nat)
    requires Compiles(p) && DeploymentInPlace(p.ab, p.deployment, c)
    requires name in Entries(p.ab.spec.envs) && name !in Entries(p.ab.spec.sourcedEnvs)
    ensures var env := EnvOf(c[Key(DeploymentKind, p.ab.namespace, p.ab.name)].spec);
      && env.Slice? && i < |env.elems|
      && Says(Child(env.elems[i], 0), name) && Says(Child(env.elems[i], 1), Entries(p.ab.spec.envs)[name])
  {
    EffectiveEnv(p.ab, name);
    i := EnvHeld(p, c, name, PlainEnv(name, Entries(p.ab.spec.envs)[name]));
    PlainEnvStored(name, Entries(p.ab.spec.envs)[name],
                   EnvOf(c[Key(DeploymentKind, p.ab.namespace, p.ab.name)].spec).elems[i]);
  }

  lemma EnvHeld(p: Plan, c: Cluster, name: string, v: EnvVar) returns (i: nat)
    requires Compiles(p) && DeploymentInPlace(p.ab, p.deployment, c)
    requires LastNamed(ExpectedContainer(p.ab).env, name) == Some(v)
    ensures var env := EnvOf(c[Key(DeploymentKind, p.ab.namespace, p.ab.name)].spec);
      env.Slice? && i < |env.elems| && Derives(EncodeEnv(v), env.elems[i])
  {
    var d, spec := p.deployment, c[Key(DeploymentKind, p.ab.namespace, p.ab.name)].spec;
    PodStored(d, spec);
    ContainerListsStored(d.container, MainContainer(spec));
    LastNamedIs(d.container.env, name);
    HasEach(d.container.env, EncodeEnv, EnvOf(spec));
    assert Has(EnvOf(spec), EncodeEnv(v));
    i :| 0 <= i < |EnvOf(spec).elems| && Derives(EncodeEnv(v), EnvOf(spec).elems[i]);
  }

  /**
   A variable from an external secret, in the cluster: the stored container refers to
   the secret that a stored ExternalSecret of its namespace writes, at a key whose
   template mentions what the data section fetches from the remote key bound to it.
   */
  lemma SecretEnvDelivered(p: Plan, c: Cluster, name: string) returns (i: nat, d: SecretData)
    requires Compiles(p) && AllInPlace(p, c) && p.ab.name != "" && p.ab.spec.secretStoreRef.Some?
    requires Templated(p.ab, name)
    requires var s := Entries(p.ab.spec.sourcedEnvs)[name]; s.secret == "" && s.configMap == ""
    ensures var ns := p.ab.namespace;
      var pods, es := Key(DeploymentKind, ns, p.ab.name), Key(ExternalSecretKind, ns, p.ab.name);
      && pods in c && es in c && EnvOf(c[pods].spec).Slice? && i < |EnvOf(c[pods].spec).elems|
      && var v := EnvOf(c[pods].spec).elems[i];
      && Says(Child(v, 0), name)
      && Child(SecretKeyRef(v), 0) == TargetName(c[es].spec) == Str(p.ab.name)
      && HoldsTemplate(c[es].spec, Child(SecretKeyRef(v), 1), "{{ ." + d.secretKey + " }}")
      && Fetches(p.ab, SortedKeys(Entries(p.ab.spec.configs).Keys), d.secretKey, d.remoteKey)
      && Child(c[es].spec, 2).Slice?
      && exists j :: 0 <= j < |Child(c[es].spec, 2).elems| && DataStored(d, Child(c[es].spec, 2).elems[j])
  {
    var ab, order := p.ab, SortedKeys(Entries(p.ab.spec.configs).Keys);
    var e;
    e, d := SourcedEnvIsServed(ab, order, name);
    EffectiveEnv(ab, name);
    var key := "env" + name;
    i := EnvHeld(p, c, name, SecretEnv(name, ab.name, key));
    SecretEnvStored(name, ab.name, key, EnvOf(c[Key(DeploymentKind, ab.namespace, ab.name)].spec).elems[i]);
    var spec := c[Key(ExternalSecretKind, ab.namespace, ab.name)].spec;
    DataMeaning(ab, order, e);
    SecretStored(e, spec);
    StoredEntry(e.templates, TemplatesOf(spec), key);
    SecretDataStored(e, spec, d);
  }

  /** A variable from a Secret or ConfigMap of the user's refers to the named key of it. */
  lemma ForeignEnvDelivered(p: Plan, c: Cluster, name: string) returns (i: nat)
    requires Compiles(p) && DeploymentInPlace(p.ab, p.deployment, c) && name in Entries(p.ab.spec.sourcedEnvs)
    requires var s := Entries(p.ab.spec.sourcedEnvs)[name]; s.secret != "" || s.configMap != ""
    ensures var env := EnvOf(c[Key(DeploymentKind, p.ab.namespace, p.ab.name)].spec);
      var s := Entries(p.ab.spec.sourcedEnvs)[name];
      && env.Slice? && i < |env.elems| && Says(Child(env.elems[i], 0), name)
      && if s.secret != ""
         then Child(SecretKeyRef(env.elems[i]), 0) == Str(s.secret) && Says(Child(SecretKeyRef(env.elems[i]), 1), s.key)
         else Child(ConfigMapKeyRef(env.elems[i]), 0) == Str(s.configMap)
              && Says(Child(ConfigMapKeyRef(env.elems[i]), 1), s.key)
  {
    var s := Entries(p.ab.spec.sourcedEnvs)[name];
    EffectiveEnv(p.ab, name);
    i := EnvHeld(p, c, name, SourceOf(p.ab, name, s));
    var stored := EnvOf(c[Key(DeploymentKind, p.ab.namespace, p.ab.name)].spec).elems[i];
    if s.secret != "" {
      SecretEnvStored(name, s.secret, s.key, stored);
    } else {
      ConfigMapEnvStored(name, s.configMap, s.key, stored);
    }
  }

  /** A file that is copied over is copied by a stored init container. */
  lemma CopyDelivered(p: Plan, c: Cluster, key: string) returns (i: nat)
    requires Compiles(p) && DeploymentInPlace(p.ab, p.deployment, c) && key in Entries(p.ab.spec.configs)
    requires Entries(p.ab.spec.configs)[key].copyOver == Some(true)
    ensures var inits := InitsOf(c[Key(DeploymentKind, p.ab.namespace, p.ab.name)].spec);
      && inits.Slice? && i < |inits.elems|
      && Child(inits.elems[i], 0) == Str("copy-over-" + key) && Child(inits.elems[i], 1) == Str("busybox:stable")
      && RunsShell(Child(inits.elems[i], 2), CopyCommand(Entries(p.ab.spec.configs)[key]))
  {
    var step, t := ConfigCopied(p.ab, p.grow, key);
    i := InitHeld(p, c, t);
    var init := InitContainers(p.ab, p.grow)[t];
    assert init.command == ["sh", "-c", CopyCommand(Entries(p.ab.spec.configs)[key])];
    var inits := InitsOf(c[Key(DeploymentKind, p.ab.namespace, p.ab.name)].spec);
    CopyStored(init, key, CopyCommand(Entries(p.ab.spec.configs)[key]), inits.elems[i]);
  }

  lemma InitHeld(p: Plan, c: Cluster, t: nat) returns (i: nat)
    requires Compiles(p) && DeploymentInPlace(p.ab, p.deployment, c) && t < |InitContainers(p.ab, p.grow)|
    ensures var inits := InitsOf(c[Key(DeploymentKind, p.ab.namespace, p.ab.name)].spec);
      inits.Slice? && i < |inits.elems| && Derives(EncodeInit(InitContainers(p.ab, p.grow)[t]), inits.elems[i])
  {
    var d, inits := p.deployment, InitsOf(c[Key(DeploymentKind, p.ab.namespace, p.ab.name)].spec);
    PodStored(d, c[Key(DeploymentKind, p.ab.namespace, p.ab.name)].spec);
    assert d.initContainers == InitContainers(p.ab, p.grow);
    HasEach(d.initContainers, EncodeInit, inits);
    assert Has(inits, EncodeInit(d.initContainers[t]));
    i :| 0 <= i < |inits.elems| && Derives(EncodeInit(d.initContainers[t]), inits.elems[i]);
  }

  lemma CopyStored(init: InitContainer, key: string, script: string, stored: Value)
    requires Derives(EncodeInit(init), stored) && script != ""
    requires init.name == "copy-over-" + key && init.image == "busybox:stable" && init.command == ["sh", "-c", script]
    ensures Child(stored, 0) == Str("copy-over-" + key) && Child(stored, 1) == Str("busybox:stable")
    ensures RunsShell(Child(stored, 2), script)
  {
    InitStored(init, stored);
    TextsStored(init.command, Child(stored, 2));
  }

  function CopyCommand(config: Config): string {
    var path := config.dirPath + "/" + config.fileName;
    "cp /atrok" + path + " " + path + " && chmod 777 " + path
  }

  predicate RunsShell(command: Value, script: string) {
    command.Slice? && |command.elems| >= 3
    && command.elems[0] == Str("sh") && command.elems[1] == Str("-c") && command.elems[2] == Str(script)
  }

  /** A file that is not copied over is mounted read-only at its path in the stored container. */
  lemma ConfigMountDelivered(p: Plan, c: Cluster, key: string) returns (i: nat)
    requires Compiles(p) && DeploymentInPlace(p.ab, p.deployment, c) && key in Entries(p.ab.spec.configs)
    requires Entries(p.ab.spec.configs)[key].copyOver != Some(true)
    ensures var mounts := MountsOf(c[Key(DeploymentKind, p.ab.namespace, p.ab.name)].spec);
      var config := Entries(p.ab.spec.configs)[key];
      && mounts.Slice? && i < |mounts.elems|
      && Child(mounts.elems[i], 1) == Flag(true)
      && Child(mounts.elems[i], 2) == Str(config.dirPath + "/" + config.fileName)
      && Says(Child(mounts.elems[i], 3), config.fileName)
  {
    var config := Entries(p.ab.spec.configs)[key];
    var pv := ConfigMounted(p.ab, key);
    var m := VolumeMount(pv.name, FilePath(config), config.fileName, true);
    assert |FilePath(config)| > 0;
    i := MountHeld(p, c, m);
  }

  lemma MountHeld(p: Plan, c: Cluster, m: VolumeMount) returns (i: nat)
    requires Compiles(p) && DeploymentInPlace(p.ab, p.deployment, c) && m in ExpectedContainer(p.ab).mounts
    ensures var mounts := MountsOf(c[Key(DeploymentKind, p.ab.namespace, p.ab.name)].spec);
      mounts.Slice? && i < |mounts.elems| && MountStored(m, mounts.elems[i])
  {
    var d, spec := p.deployment, c[Key(DeploymentKind, p.ab.namespace, p.ab.name)].spec;
    PodStored(d, spec);
    ContainerListsStored(d.container, MainContainer(spec));
    assert d.container == ExpectedContainer(p.ab);
    MountsStored(d.container.mounts, MountsOf(spec), m);
    i :| 0 <= i < |MountsOf(spec).elems| && MountStored(m, MountsOf(spec).elems[i]);
  }

  /** The stored pods keep off each other's hosts: the term repels the label they carry. */
  lemma PodsKeepApart(p: Plan, c: Cluster)
    requires Compiles(p) && DeploymentInPlace(p.ab, p.deployment, c) && p.ab.name != ""
    ensures var spec := c[Key(DeploymentKind, p.ab.namespace, p.ab.name)].spec;
      var x := RepelExpression(spec);
      && Child(RepelTerm(spec), 0) == Str("kubernetes.io/hostname")
      && Child(x, 0) == Str("appbundle") && Child(x, 1) == Str("In")
      && Child(x, 2).Slice? && Child(x, 2) != Slice([]) && Child(x, 2).elems[0] == Str(p.ab.name)
      && SelectsBy(PodLabels(spec), "appbundle", p.ab.name)
  {
    var spec := c[Key(DeploymentKind, p.ab.namespace, p.ab.name)].spec;
    AntiAffinityStored(p.deployment, spec);
    PodsLabelled(p, c);
    assert p.deployment.antiAffinity == AntiAffinityOf(p.ab);
    TextsStored([p.ab.name], Child(RepelExpression(spec), 2));
  }

  /** What a claim of the bundle's own is created with, backup labels included. */
  lemma OwnClaimSays(ab: AppBundle, v: Volume, k: string)
    requires KindOf(v) == Claimed && ClaimDereferenceable(v)
    ensures var labels := ClaimObj(ab, v).labels;
      if k in BackupKeys(ab) && BackedUp(ab, v) then k in labels && labels[k] == "enabled"
      else if k in OWN_LABELS then k in labels && labels[k] == ab.name
      else
        && (k in labels <==> k in Entries(ab.labels) && k != "argocd.argoproj.io/instance")
        && (k in labels ==> labels[k] == Entries(ab.labels)[k])
  {
    ClaimLabelsMeaning(ab, v);
    LabelsMeaning(ab, k);
  }

  // ----- Pods after a restart -----

  /** After a ConfigMap write that returned nil no pod of the bundle runs on, in whatever namespace. */
  lemma NoPodRunsOn(
    ab: AppBundle, c: Cluster, mode: Mode, trace: seq<Event>, after: Cluster, k: Key)
    requires Runs(ConfigMapProg(ab), c, mode, trace, after, None) && !mode.Faulty?
    requires ExpectedConfigMap(ab).Some? && !ConfigMapInPlace(ab, c)
    requires k in after && k.kind == PodKind
    ensures ConfigMapInPlace(ab, after)
    ensures !CarriesLabel(after[k], ab.name)
  {
    ConfigMapRun(ab, c, mode, trace, after, None);
    ConfigMapDoneInPlace(ab, after);
    assert !ConfigMapDone(ab, c);
    assert CarriesLabel(after[k], ab.name) ==> k in PodsOf(ab, after);
  }
}
