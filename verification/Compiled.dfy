/**
 What the compiled objects say, read against the bundle's spec.

 The compilers are proved equal to specification functions, one item per key.
 Here those items are characterised by what they mean: which value a variable has
 in the container, what a secret template is filled with, where traffic to a port
 goes, what is mounted at a path.  Names and texts are written out.
 */
module CompiledObjects {
  import opened Options
  import opened KeyOrder
  import opened KeyLoops
  import opened Bundle
  import opened ConfigMounts
  import opened DeploymentCompiler
  import opened ConfigMapCompiler
  import opened ExternalSecretCompiler
  import opened ServiceCompiler
  import opened IngressCompiler
  import opened CrossObject

  // ----- Labels -----

  const OWN_LABELS := {"app.kubernetes.io/instance", "app.kubernetes.io/name", "atro.xyz/app-bundle", "appbundle"}

  /** The operator's four labels carry the bundle's name; all others are the user's, without ArgoCD's. */
  lemma LabelsMeaning(ab: AppBundle, k: string)
    ensures k in OWN_LABELS ==> k in DefaultLabels(ab) && DefaultLabels(ab)[k] == ab.name
    ensures k !in OWN_LABELS ==>
      && (k in DefaultLabels(ab) <==> k in Entries(ab.labels) && k != "argocd.argoproj.io/instance")
      && (k in DefaultLabels(ab) ==> DefaultLabels(ab)[k] == Entries(ab.labels)[k])
  {
    assert k in OWN_LABELS <==> k in OwnLabels(ab);
    assert k in OwnLabels(ab) ==> OwnLabels(ab)[k] == ab.name;
  }

  // ----- Environment -----

  /** What a container finds under a name: of several entries the last one wins. */
  function LastNamed(env: seq<EnvVar>, name: string): Option<EnvVar> {
    if env == [] then None
    else if env[|env| - 1].name == name then Some(env[|env| - 1])
    else LastNamed(env[..|env| - 1], name)
  }

  lemma {:induction false} LastNamedIs(env: seq<EnvVar>, name: string)
    ensures LastNamed(env, name) == None ==> forall e :: e in env ==> e.name != name
    ensures LastNamed(env, name).Some? ==> LastNamed(env, name).value in env && LastNamed(env, name).value.name == name
    decreases |env|
  {
    if env != [] {
      LastNamedIs(env[..|env| - 1], name);
      assert env == env[..|env| - 1] + [env[|env| - 1]];
    }
  }

  lemma {:induction false} LastNamedConcat(a: seq<EnvVar>, b: seq<EnvVar>, name: string)
    ensures LastNamed(a + b, name) == if LastNamed(b, name).Some? then LastNamed(b, name) else LastNamed(a, name)
    decreases |b|
  {
    if b == [] {
      assert a + b == a;
    } else {
      LastNamedConcat(a, b[..|b| - 1], name);
      assert (a + b)[..|a + b| - 1] == a + b[..|b| - 1];
    }
  }

  lemma LastNamedOfKeys<V>(m: map<string, V>, item: (string, V) -> EnvVar, name: string)
    requires forall k :: k in m ==> item(k, m[k]).name == k
    ensures LastNamed(MapSorted(m, item), name) == if name in m then Some(item(name, m[name])) else None
  {
    LastNamedIs(MapSorted(m, item), name);
    if name in m {
      MapSortedAt(m, item, item(name, m[name]));
    }
    if LastNamed(MapSorted(m, item), name).Some? {
      MapSortedAt(m, item, LastNamed(MapSorted(m, item), name).value);
    }
  }

  /** A source by precedence: a Secret, else a ConfigMap, else the bundle's own secret. */
  function SourceOf(ab: AppBundle, name: string, s: SourcedEnv): EnvVar {
    if s.secret != "" then SecretEnv(name, s.secret, s.key)
    else if s.configMap != "" then ConfigMapEnv(name, s.configMap, s.key)
    else SecretEnv(name, ab.name, "env" + name)
  }

  lemma EnvsMeaning(ab: AppBundle, name: string)
    ensures LastNamed(Envs(ab), name)
         == if name in Entries(ab.spec.sourcedEnvs)
            then Some(SourceOf(ab, name, Entries(ab.spec.sourcedEnvs)[name]))
            else if name in Entries(ab.spec.envs) then Some(PlainEnv(name, Entries(ab.spec.envs)[name]))
            else None
  {
    var plain, sourced := Entries(ab.spec.envs), Entries(ab.spec.sourcedEnvs);
    var item := (k, e) => SourcedEnvOf(ab.name, k, e);
    LastNamedConcat(MapSorted(plain, PlainEnvOf), MapSorted(sourced, item), name);
    LastNamedOfKeys(plain, PlainEnvOf, name);
    LastNamedOfKeys(sourced, item, name);
  }

  /**
   The environment of the container: a sourced variable beats a plain one of its
   name, and the NVIDIA variable is there exactly when asked for, unless the user
   has set it.
   */
  lemma EffectiveEnv(ab: AppBundle, name: string)
    requires Dereferenceable(ab)
    ensures LastNamed(ExpectedContainer(ab).env, name)
         == if name in Entries(ab.spec.sourcedEnvs)
            then Some(SourceOf(ab, name, Entries(ab.spec.sourcedEnvs)[name]))
            else if name in Entries(ab.spec.envs) then Some(PlainEnv(name, Entries(ab.spec.envs)[name]))
            else if ab.spec.useNvidia == Some(true) && name == "NVIDIA_VISIBLE_DEVICES"
            then Some(PlainEnv(name, "all"))
            else None
  {
    EnvsMeaning(ab, name);
    LastNamedIs(Envs(ab), name);
    var nvidia := PlainEnv("NVIDIA_VISIBLE_DEVICES", "all");
    LastNamedConcat(Envs(ab), [nvidia], name);
    assert [nvidia][..0] == [];
    if name == nvidia.name && LastNamed(Envs(ab), name).Some? {
      var i :| 0 <= i < |Envs(ab)| && Envs(ab)[i] == LastNamed(Envs(ab), name).value;
      assert WithNvidia(Envs(ab)) == Envs(ab);
    }
  }

  // ----- Secrets -----

  /** Key k is fetched from remote: the last config in range order that binds it decides, else the variable. */
  predicate Fetches(ab: AppBundle, order: seq<string>, k: string, remote: string)
    requires forall c :: c in order ==> c in Entries(ab.spec.configs)
  {
    var configs, envs := Entries(ab.spec.configs), Entries(ab.spec.sourcedEnvs);
    || (exists i :: 0 <= i < |order| && k in configs[order[i]].secrets && remote == configs[order[i]].secrets[k]
          && forall j :: i < j < |order| ==> k !in configs[order[j]].secrets)
    || ((forall i :: 0 <= i < |order| ==> k !in configs[order[i]].secrets)
        && k in envs && envs[k].externalSecret == remote && remote != "")
  }

  lemma FetchesIff(ab: AppBundle, order: seq<string>, k: string, remote: string)
    requires forall c :: c in order ==> c in Entries(ab.spec.configs)
    ensures Fetches(ab, order, k, remote) <==> k in SecretsToGet(ab, order) && SecretsToGet(ab, order)[k] == remote
  {
    var configs := Entries(ab.spec.configs);
    BindMeaning(configs, order, k);
    if k in Bind(configs, order) {
      var i := LastConfigDecides(configs, order, k);
      assert SecretsToGet(ab, order)[k] == configs[order[i]].secrets[k];
    } else {
      assert forall i :: 0 <= i < |order| ==> order[i] in order;
    }
  }

  lemma DataOf(ab: AppBundle, order: seq<string>, e: ExternalSecret, d: SecretData)
    requires Enumerates(order, Entries(ab.spec.configs).Keys) && SecretFor(ab, order) == Ok(Some(e))
    ensures d in e.data <==> Fetches(ab, order, d.secretKey, d.remoteKey)
  {
    var secrets := SecretsToGet(ab, order);
    MapSortedAt(secrets, SecretDataOf, d);
    FetchesIff(ab, order, d.secretKey, d.remoteKey);
  }

  /** The data section fetches each bound key once, from where the bundle binds it, and nothing else. */
  lemma DataMeaning(ab: AppBundle, order: seq<string>, e: ExternalSecret)
    requires Enumerates(order, Entries(ab.spec.configs).Keys) && SecretFor(ab, order) == Ok(Some(e))
    ensures forall d :: d in e.data <==> Fetches(ab, order, d.secretKey, d.remoteKey)
    ensures forall i, j :: 0 <= i < j < |e.data| ==> e.data[i].secretKey != e.data[j].secretKey
    ensures ab.spec.secretStoreRef == Some(e.store) && e.target == ab.name
  {
    forall d ensures d in e.data <==> Fetches(ab, order, d.secretKey, d.remoteKey) {
      DataOf(ab, order, e, d);
    }
    var secrets := SecretsToGet(ab, order);
    forall i, j | 0 <= i < j < |e.data| ensures e.data[i].secretKey != e.data[j].secretKey {
      MapSortedItem(secrets, SecretDataOf, i);
      MapSortedItem(secrets, SecretDataOf, j);
    }
  }

  predicate Templated(ab: AppBundle, name: string) {
    name in Entries(ab.spec.sourcedEnvs) && Entries(ab.spec.sourcedEnvs)[name].externalSecret != ""
  }

  predicate TemplatedConfig(ab: AppBundle, k: string) {
    k in Entries(ab.spec.configs) && Entries(ab.spec.configs)[k].secrets != map[]
  }

  /** There is a template for each variable from an external secret and each config with secrets, and no other. */
  lemma TemplateKeysMeaning(ab: AppBundle, order: seq<string>, e: ExternalSecret, t: string)
    requires Enumerates(order, Entries(ab.spec.configs).Keys) && SecretFor(ab, order) == Ok(Some(e))
    ensures t in e.templates <==>
      || (exists name :: t == "env" + name && Templated(ab, name))
      || (exists k :: t == "cfg" + k && TemplatedConfig(ab, k))
  {
    if name :| t == "env" + name && Templated(ab, name) {
      SuffixedMember("env", TemplatedEnvs(ab), name);
    }
    if k :| t == "cfg" + k && TemplatedConfig(ab, k) {
      SuffixedMember("cfg", TemplatedConfigs(ab), k);
    }
    if t in Suffixed("env", TemplatedEnvs(ab)) {
      var name :| name in TemplatedEnvs(ab) && t == "env" + name;
      assert Templated(ab, name);
    }
    if t in Suffixed("cfg", TemplatedConfigs(ab)) {
      var k :| k in TemplatedConfigs(ab) && t == "cfg" + k;
      assert TemplatedConfig(ab, k);
    }
  }

  /** A variable's template mentions a key that the data section fetches from where the bundle binds it. */
  lemma EnvTemplateIsFilled(ab: AppBundle, order: seq<string>, e: ExternalSecret, name: string)
    returns (d: SecretData)
    requires Enumerates(order, Entries(ab.spec.configs).Keys) && SecretFor(ab, order) == Ok(Some(e))
    requires Templated(ab, name)
    ensures "env" + name in e.templates && d in e.data
    ensures e.templates["env" + name] == "{{ ." + d.secretKey + " }}"
    ensures d.secretKey == name && Fetches(ab, order, name, d.remoteKey)
  {
    SuffixedMember("env", TemplatedEnvs(ab), name);
    PrefixesApart(ab, "env" + name);
    assert ("env" + name)[..3] == "env" && ("env" + name)[3..] == name;
    assert name in SecretsToGet(ab, order);
    d := SecretData(name, SecretsToGet(ab, order)[name]);
    FetchesIff(ab, order, name, d.remoteKey);
    DataOf(ab, order, e, d);
  }

  /** A config's template is its content. */
  lemma ConfigTemplateIsContent(ab: AppBundle, order: seq<string>, e: ExternalSecret, k: string)
    requires Enumerates(order, Entries(ab.spec.configs).Keys) && SecretFor(ab, order) == Ok(Some(e))
    requires TemplatedConfig(ab, k)
    ensures "cfg" + k in e.templates && e.templates["cfg" + k] == Entries(ab.spec.configs)[k].content
  {
    SuffixedMember("cfg", TemplatedConfigs(ab), k);
    PrefixesApart(ab, "cfg" + k);
    assert ("cfg" + k)[..3] == "cfg" && ("cfg" + k)[3..] == k;
    assert "cfg"[0] != "env"[0];
  }

  /**
   A variable from an external secret works from end to end: the container refers to
   a key of the secret that the ExternalSecret writes, whose template mentions a key
   that is fetched from where the bundle says.
   */
  lemma SourcedEnvIsServed(ab: AppBundle, order: seq<string>, name: string)
    returns (e: ExternalSecret, d: SecretData)
    requires Dereferenceable(ab) && Enumerates(order, Entries(ab.spec.configs).Keys) && ab.spec.secretStoreRef.Some?
    requires Templated(ab, name)
    requires var s := Entries(ab.spec.sourcedEnvs)[name]; s.secret == "" && s.configMap == ""
    ensures SecretFor(ab, order) == Ok(Some(e)) && d in e.data && Fetches(ab, order, d.secretKey, d.remoteKey)
    ensures var v := LastNamed(ExpectedContainer(ab).env, name);
      && v.Some? && v.value.SecretEnv? && v.value.secretName == e.target
      && v.value.key in e.templates && e.templates[v.value.key] == "{{ ." + d.secretKey + " }}"
  {
    assert name in SecretsToGet(ab, order);
    assert SecretsToGet(ab, order) != map[];
    e := SecretFor(ab, order).value.value;
    d := EnvTemplateIsFilled(ab, order, e, name);
    EffectiveEnv(ab, name);
  }

  // ----- Ports -----

  predicate PortsSet(ab: AppBundle) {
    forall k :: k in Entries(ab.spec.routes) ==> Entries(ab.spec.routes)[k].port.Some?
  }

  /** The one port of the Service for a route. */
  lemma PortOfRoute(ab: AppBundle, k: string) returns (p: ServicePort)
    requires PortsSet(ab) && k in Entries(ab.spec.routes)
    ensures p in ServicePorts(ab) && forall q :: q in ServicePorts(ab) && q.name == k ==> q == p
    ensures var r := Entries(ab.spec.routes)[k];
      && p.name == k && p.port == ToInt32(r.port.value)
      && p.targetPort == ToInt32(if r.targetPort.Some? then r.targetPort.value else r.port.value)
      && p.protocol == if r.protocol.Some? then r.protocol.value else "TCP"
  {
    var routes := Entries(ab.spec.routes);
    p := ServicePortOf(k, routes[k]);
    MapSortedAt(routes, ServicePortOf, p);
    forall q | q in ServicePorts(ab) && q.name == k ensures q == p {
      MapSortedAt(routes, ServicePortOf, q);
    }
  }

  /** The Service has one port for each route and no other. */
  lemma OnePortPerRoute(ab: AppBundle)
    requires PortsSet(ab)
    ensures forall i, j :: 0 <= i < j < |ServicePorts(ab)| ==> ServicePorts(ab)[i].name != ServicePorts(ab)[j].name
    ensures forall k :: k in Entries(ab.spec.routes) <==> exists p :: p in ServicePorts(ab) && p.name == k
  {
    var routes := Entries(ab.spec.routes);
    forall i, j | 0 <= i < j < |ServicePorts(ab)| ensures ServicePorts(ab)[i].name != ServicePorts(ab)[j].name {
      MapSortedItem(routes, ServicePortOf, i);
      MapSortedItem(routes, ServicePortOf, j);
    }
    forall k ensures k in routes <==> exists p :: p in ServicePorts(ab) && p.name == k {
      if k in routes {
        var p := PortOfRoute(ab, k);
      }
      if p :| p in ServicePorts(ab) && p.name == k {
        MapSortedAt(routes, ServicePortOf, p);
      }
    }
  }

  /** The container declares the truncated port of each route, over TCP, and no other. */
  lemma ContainerPortsMeaning(ab: AppBundle, cp: ContainerPort)
    requires Dereferenceable(ab)
    ensures cp in ExpectedContainer(ab).ports <==>
      && cp.name in Entries(ab.spec.routes)
      && cp.containerPort == ToInt32(Entries(ab.spec.routes)[cp.name].port.value) && cp.protocol == "TCP"
  {
    MapSortedAt(Entries(ab.spec.routes), PortOf, cp);
  }

  /**
   Traffic for a route reaches a declared container port if the route has no target
   port of its own, and otherwise exactly if the target port is the port of some route.
   */
  lemma TargetIsDeclaredIff(ab: AppBundle, k: string)
    requires Dereferenceable(ab) && k in Entries(ab.spec.routes)
    ensures var routes := Entries(ab.spec.routes);
      (exists p, cp :: p in ServicePorts(ab) && p.name == k
                       && cp in ExpectedContainer(ab).ports && cp.containerPort == p.targetPort)
      <==> routes[k].targetPort == None
           || exists j :: j in routes && ToInt32(routes[j].port.value) == ToInt32(routes[k].targetPort.value)
  {
    var routes := Entries(ab.spec.routes);
    var p := PortOfRoute(ab, k);
    if routes[k].targetPort == None {
      var cp := ContainerPort(k, p.targetPort, "TCP");
      ContainerPortsMeaning(ab, cp);
      assert p in ServicePorts(ab) && p.name == k;
      assert cp in ExpectedContainer(ab).ports && cp.containerPort == p.targetPort;
    } else if j :| j in routes && ToInt32(routes[j].port.value) == ToInt32(routes[k].targetPort.value) {
      var cp := ContainerPort(j, p.targetPort, "TCP");
      ContainerPortsMeaning(ab, cp);
      assert p in ServicePorts(ab) && p.name == k;
      assert cp in ExpectedContainer(ab).ports && cp.containerPort == p.targetPort;
    }
    if q, cp :| q in ServicePorts(ab) && q.name == k
                && cp in ExpectedContainer(ab).ports && cp.containerPort == q.targetPort {
      ContainerPortsMeaning(ab, cp);
    }
  }

  // ----- Ingresses -----

  /** The TLS section is about the rule's own host. */
  lemma IngressMeaning(ab: AppBundle, key: string, route: Route)
    requires WantsIngress(route) && IngressDereferenceable(route)
    ensures var i := ExpectedIngress(ab, IngressName(ab, key), route);
      && Some(i.host) == route.ingress.value.domain && i.tlsHost == i.host
      && i.tlsSecret == ab.name + "-" + key + "-" + ab.namespace + "-ingress-tls"
  {
    assert IngressName(ab, key) == ab.name + "-" + key;
  }

  /** In one namespace ingresses of different names have different TLS secrets, whosever they are. */
  lemma TlsSecretsDiffer(a: AppBundle, n1: string, r1: Route, b: AppBundle, n2: string, r2: Route)
    requires WantsIngress(r1) && IngressDereferenceable(r1) && WantsIngress(r2) && IngressDereferenceable(r2)
    requires a.namespace == b.namespace
    ensures ExpectedIngress(a, n1, r1).tlsSecret == ExpectedIngress(b, n2, r2).tlsSecret <==> n1 == n2
  {
    var s1, s2 := ExpectedIngress(a, n1, r1).tlsSecret, ExpectedIngress(b, n2, r2).tlsSecret;
    var suffix := "-" + a.namespace + "-ingress-tls";
    assert s1 == n1 + suffix && s2 == n2 + suffix;
    if s1 == s2 {
      assert |n1| == |n2|;
      assert s1[..|n1|] == n1 && s2[..|n2|] == n2;
    }
  }

  // ----- Volumes and configs in the pod -----

  /** What a volume of the bundle is in the pod: a host path, else an empty directory, else a claim. */
  lemma VolumeMounted(ab: AppBundle, key: string) returns (m: VolumeMount, pv: PodVolume)
    requires Dereferenceable(ab) && key in Entries(ab.spec.volumes)
    ensures m in ExpectedContainer(ab).mounts && pv in PodVolumes(ab) && m.name == pv.name
    ensures var v := Entries(ab.spec.volumes)[key];
      && (v.path.Some? ==> m.mountPath == v.path.value) && m.subPath == "" && !m.readOnly
      && pv.name == (if v.existingClaim.Some? then v.existingClaim.value else key)
      && pv.source == if v.hostPath.Some? then HostPathSource(v.hostPath.value)
                      else if v.emptyDir == Some(true) then EmptyDirSource
                      else if v.existingClaim.Some? then ClaimSource(v.existingClaim.value)
                      else ClaimSource(ab.name + "-" + key)
  {
    var volumes := Entries(ab.spec.volumes);
    m, pv := MountOf(key, volumes[key]), VolumeOf(ab.name, key, volumes[key]);
    MapSortedAt(volumes, MountOf, m);
    MapSortedAt(volumes, (k, v) => VolumeOf(ab.name, k, v), pv);
    BaseMountsStay(BaseMounts(ab), Steps(ab), |Steps(ab)|, m);
    assert Dashed(ab.name, key) == ab.name + "-" + key;
  }

  lemma {:induction false} BaseMountsStay(base: seq<VolumeMount>, steps: seq<Step>, n: nat, m: VolumeMount)
    requires n <= |steps| && m in base
    ensures m in MainMounts(base, steps, n)
  {
    if n > 0 {
      BaseMountsStay(base, steps, n - 1, m);
    }
  }

  lemma {:induction false} DirectMountsStay(base: seq<VolumeMount>, steps: seq<Step>, n: nat, i: nat)
    requires i < n <= |steps| && !steps[i].copyOver
    ensures steps[i].mount in MainMounts(base, steps, n)
    decreases n
  {
    if i < n - 1 {
      DirectMountsStay(base, steps, n - 1, i);
    }
  }

  function FilePath(c: Config): string {
    c.dirPath + "/" + c.fileName
  }

  /** What a config is in the pod: one key of an existing ConfigMap, of the bundle's own, or of its secret. */
  lemma ConfigVolume(ab: AppBundle, key: string) returns (pv: PodVolume)
    requires key in Entries(ab.spec.configs)
    ensures var c := Entries(ab.spec.configs)[key];
      && pv in PodVolumes(ab)
      && pv == if c.existing.Some? then PodVolume("cm-" + key, ConfigMapSource(c.existing.value, key, c.fileName))
               else if c.secrets == map[] then PodVolume("cm-" + key, ConfigMapSource(ab.name, key, c.fileName))
               else PodVolume("sec-" + key, SecretSource(ab.name, "cfg" + key, c.fileName))
  {
    var configs := Entries(ab.spec.configs);
    pv := ConfigVolumeOf(ab.name, key, configs[key]);
    MapSortedAt(configs, (k, c) => ConfigVolumeOf(ab.name, k, c), pv);
  }

  lemma StepAt(ab: AppBundle, key: string) returns (i: nat)
    requires key in Entries(ab.spec.configs)
    ensures i < |Steps(ab)| && Steps(ab)[i] == StepOf(key, Entries(ab.spec.configs)[key])
  {
    i := IndexOf(key, Entries(ab.spec.configs).Keys);
    MapSortedItem(Entries(ab.spec.configs), StepOf, i);
  }

  /** A config that is not copied over is mounted as its file, read-only, in the main container. */
  lemma ConfigMounted(ab: AppBundle, key: string) returns (pv: PodVolume)
    requires Dereferenceable(ab) && key in Entries(ab.spec.configs)
    requires Entries(ab.spec.configs)[key].copyOver != Some(true)
    ensures var c := Entries(ab.spec.configs)[key];
      && pv in PodVolumes(ab)
      && pv.name == (if c.existing == None && c.secrets != map[] then "sec-" else "cm-") + key
      && VolumeMount(pv.name, FilePath(c), c.fileName, true) in ExpectedContainer(ab).mounts
  {
    pv := ConfigVolume(ab, key);
    var i := StepAt(ab, key);
    DirectMountsStay(BaseMounts(ab), Steps(ab), |Steps(ab)|, i);
  }

  lemma CopyContainerMeaning(init: Init, c: Config)
    ensures var r := CopyContainer(init, c);
      && r.name == "copy-over-" + init.key && r.image == "busybox:stable" && r.mounts == init.mounts
      && r.command == ["sh", "-c", "cp /atrok" + FilePath(c) + " " + FilePath(c) + " && chmod 777 " + FilePath(c)]
  {
    assert TempMountPath(c) == "/atrok" + FilePath(c) && MountPath(c) == FilePath(c);
    assert "cp " + TempMountPath(c) + " " == "cp /atrok" + FilePath(c) + " ";
  }

  /** The mount an init container copies from. */
  lemma TempMountMeaning(key: string, c: Config)
    requires c.copyOver == Some(true)
    ensures StepOf(key, c).copyOver && StepOf(key, c).key == key
    ensures StepOf(key, c).mount
         == VolumeMount((if c.existing == None && c.secrets != map[] then "sec-" else "cm-") + key,
                        "/atrok" + FilePath(c), c.fileName, true)
  {
    assert TempMountPath(c) == "/atrok" + FilePath(c);
  }

  /**
   A config that is copied over has an init container that copies it to its place;
   its last mount is the file it copies from, unless the slot was overwritten.
   */
  lemma ConfigCopied(ab: AppBundle, grow: nat -> nat, key: string) returns (i: nat, t: nat)
    requires key in Entries(ab.spec.configs) && Entries(ab.spec.configs)[key].copyOver == Some(true)
    ensures i < |Steps(ab)| && Steps(ab)[i].key == key && t < |InitContainers(ab, grow)|
    ensures var c, init := Entries(ab.spec.configs)[key], InitContainers(ab, grow)[t];
      && init.name == "copy-over-" + key && init.image == "busybox:stable" && init.mounts != []
      && init.command == ["sh", "-c", "cp /atrok" + FilePath(c) + " " + FilePath(c) + " && chmod 777 " + FilePath(c)]
      && (init.mounts[|init.mounts| - 1]
            == VolumeMount((if c.existing == None && c.secrets != map[] then "sec-" else "cm-") + key,
                           "/atrok" + FilePath(c), c.fileName, true)
          <==> AtCapacity(BaseMounts(ab), Steps(ab), i, grow) || i == |Steps(ab)| - 1)
  {
    i := StepAt(ab, key);
    TempMountMeaning(key, Entries(ab.spec.configs)[key]);
    t := CopyIndex(Steps(ab), |Steps(ab)|, i);
    ContainerAt(ab, grow, t, i);
    CopyContainerMeaning(Inits(BaseMounts(ab), Steps(ab), grow)[t], Entries(ab.spec.configs)[key]);
    CopyOverKeepsMountIff(ab, grow, i);
  }

  lemma ContainerAt(ab: AppBundle, grow: nat -> nat, t: nat, i: nat)
    requires t < |CopyOverSteps(Steps(ab), |Steps(ab)|)| && CopyOverSteps(Steps(ab), |Steps(ab)|)[t] == i
    ensures var inits := Inits(BaseMounts(ab), Steps(ab), grow);
      && t < |inits| && inits[t] == Init(Steps(ab)[i].key, InitMounts(BaseMounts(ab), Steps(ab), i, |Steps(ab)|, grow))
      && t < |InitContainers(ab, grow)|
      && InitContainers(ab, grow)[t] == CopyContainer(inits[t], ConfigAt(Entries(ab.spec.configs), inits[t].key))
  {
  }

  lemma {:induction false} CopyIndex(steps: seq<Step>, n: nat, i: nat) returns (t: nat)
    requires i < n <= |steps| && steps[i].copyOver
    ensures t < |CopyOverSteps(steps, n)| && CopyOverSteps(steps, n)[t] == i
    decreases n
  {
    if i == n - 1 {
      t := |CopyOverSteps(steps, n)| - 1;
    } else {
      t := CopyIndex(steps, n - 1, i);
    }
  }

  // ----- The ConfigMap -----

  /** Its keys are the configs that neither exist elsewhere nor hold secrets, and each holds its content. */
  lemma ConfigMapMeaning(ab: AppBundle, k: string)
    ensures k in OwnKeys(ab) <==>
      && k in Entries(ab.spec.configs)
      && Entries(ab.spec.configs)[k].existing == None && Entries(ab.spec.configs)[k].secrets == map[]
    ensures k in OwnKeys(ab) ==> ExpectedConfigMap(ab).value[k] == Entries(ab.spec.configs)[k].content
  {
    GeneratedKeysAgree(ab);
    if k in Entries(ab.spec.configs) && Generated(Entries(ab.spec.configs)[k]) {
      assert k in ConfigMapData(Entries(ab.spec.configs));
    }
  }
}
