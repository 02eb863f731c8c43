/**
 What the server holds for an object it was sent.

 A stored object derives from the sent one: it may have more, but what was sent and
 is not empty is there.  Readers pick parts out of a stored spec by their place; the
 lemmas say what they find.  The encodings lose nothing: objects that differ are
 sent as different values.
 */
module StoredObjects {
  import opened Options
  import opened Bundle
  import opened DeepDerivative
  import opened ConfigMounts
  import opened DeploymentCompiler
  import opened DeploymentEncoding
  import opened ExternalSecretCompiler
  import opened ServiceCompiler
  import opened IngressCompiler
  import opened ClaimCompiler

  /** The stored text is s, unless s is empty and leaves it open. */
  predicate Says(stored: Value, s: string) {
    stored.Str? && (s != "" ==> stored.s == s)
  }

  /** Some element of a stored list derives from x. */
  ghost predicate Has(list: Value, x: Value) {
    list.Slice? && exists i :: 0 <= i < |list.elems| && Derives(x, list.elems[i])
  }

  lemma HasEach<T>(items: seq<T>, encode: T -> Value, stored: Value)
    requires Derives(EncodeAll(items, encode), stored)
    ensures forall x :: x in items ==> Has(stored, encode(x))
  {
    forall x | x in items ensures Has(stored, encode(x)) {
      var i :| 0 <= i < |items| && items[i] == x;
      assert EncodeAll(items, encode).elems[i] == encode(items[i]);
    }
  }

  lemma StoredEntry(m: map<string, string>, stored: Value, k: string)
    requires Derives(StringMap(m), stored) && k in m
    ensures stored.Map? && k in stored.entries && Says(stored.entries[k], m[k])
  {
    assert StringMap(m).entries[k] == Str(m[k]);
  }

  // ----- Deployment -----

  function PodLabels(spec: Value): Value {
    Child(Child(spec, 4), 0)
  }

  /** The labels a Deployment counts as its pods. */
  function SelectorOf(spec: Value): Value {
    Child(Child(Child(spec, SELECTOR_FIELD), 0), 0)
  }

  function PodSpec(spec: Value): Value {
    Child(Child(spec, 4), 1)
  }

  function VolumesOf(spec: Value): Value {
    Child(PodSpec(spec), 0)
  }

  function InitsOf(spec: Value): Value {
    Child(PodSpec(spec), 2)
  }

  function MainContainer(spec: Value): Value {
    Child(Child(PodSpec(spec), 4), 0)
  }

  function EnvOf(spec: Value): Value {
    Child(MainContainer(spec), 5)
  }

  function MountsOf(spec: Value): Value {
    Child(MainContainer(spec), 6)
  }

  /** The parts that are the same for every bundle. */
  predicate FixedParts(spec: Value) {
    && Child(spec, 1) == Ptr(Some(Num(3)))
    && Child(spec, 2) == Str("Recreate")
    && Child(PodSpec(spec), 1).Slice? && Child(PodSpec(spec), 1) != Slice([])
    && Child(Child(PodSpec(spec), 1), 0) == Str("regcred")
  }

  /** The three places where the GPU shows. */
  predicate AsksForNvidia(spec: Value) {
    var tolerations := Child(PodSpec(spec), 6);
    && tolerations.Slice? && tolerations != Slice([])
    && Child(Child(tolerations, 0), 0) == Str("nvidia.com/gpu")
    && Child(Child(tolerations, 0), 1) == Str("Exists")
    && Child(Child(tolerations, 0), 2) == Str("NoSchedule")
    && Child(PodSpec(spec), 7) == Ptr(Some(Str("nvidia")))
  }

  lemma TemplateStored(d: Deployment, spec: Value)
    requires Derives(EncodeDeployment(d), spec)
    ensures Derives(PodSpec(EncodeDeployment(d)), PodSpec(spec))
    ensures Derives(StringMap(d.matchLabels), PodLabels(spec))
    ensures Child(spec, 1) == Ptr(Some(Num(3))) && Child(spec, 2) == Str("Recreate")
  {
    var fields := EncodeDeployment(d).fields;
    FieldStored(fields, spec, 1);
    FieldStored(fields, spec, 2);
    FieldStored(fields, spec, 4);
    FieldStored(fields[4].fields, Child(spec, 4), 0);
    FieldStored(fields[4].fields, Child(spec, 4), 1);
  }

  lemma ReplicasStored(d: Deployment, spec: Value)
    requires Derives(EncodeDeployment(d), spec)
    ensures d.replicas.Some? ==> Child(spec, 0) == Ptr(Some(Num(d.replicas.value)))
    ensures Derives(StringMap(d.matchLabels), SelectorOf(spec))
  {
    var fields := EncodeDeployment(d).fields;
    FieldStored(fields, spec, 0);
    FieldStored(fields, spec, SELECTOR_FIELD);
    assert fields[SELECTOR_FIELD] == Ptr(Some(Struct([StringMap(d.matchLabels)])));
    FieldStored([StringMap(d.matchLabels)], Child(Child(spec, SELECTOR_FIELD), 0), 0);
  }

  /** One field of a struct. */
  lemma FieldStored(fields: seq<Value>, stored: Value, i: nat)
    requires Derives(Struct(fields), stored) && i < |fields|
    ensures Derives(fields[i], Child(stored, i))
  {
  }

  lemma PodStored(d: Deployment, spec: Value)
    requires Derives(EncodeDeployment(d), spec)
    ensures Derives(EncodeAll(d.volumes, EncodePod), VolumesOf(spec))
    ensures Derives(EncodeAll(d.initContainers, EncodeInit), InitsOf(spec))
    ensures Derives(EncodeContainer(d.container), MainContainer(spec))
  {
    TemplateStored(d, spec);
    var fields := PodSpec(EncodeDeployment(d)).fields;
    FieldStored(fields, PodSpec(spec), 0);
    FieldStored(fields, PodSpec(spec), 2);
    FieldStored(fields, PodSpec(spec), 4);
    assert fields[4] == Slice([EncodeContainer(d.container)]);
    DerivesChild(fields[4], Child(PodSpec(spec), 4), 0);
  }

  lemma PodSettingsStored(d: Deployment, spec: Value)
    requires Derives(EncodeDeployment(d), spec)
    ensures FixedParts(spec)
    ensures Derives(StringMap(d.nodeSelector), Child(PodSpec(spec), 5))
  {
    TemplateStored(d, spec);
    var fields := PodSpec(EncodeDeployment(d)).fields;
    FieldStored(fields, PodSpec(spec), 1);
    PullSecretStored(Child(PodSpec(spec), 1));
    FieldStored(fields, PodSpec(spec), 5);
  }

  lemma PullSecretStored(stored: Value)
    requires Derives(Slice([Str("regcred")]), stored)
    ensures stored.Slice? && stored != Slice([]) && Child(stored, 0) == Str("regcred")
  {
    DerivesChild(Slice([Str("regcred")]), stored, 0);
  }

  /** The one required term of the stored anti-affinity, and its one expression. */
  function RepelTerm(spec: Value): Value {
    Child(Child(Child(Child(Child(Child(PodSpec(spec), 3), 0), 0), 0), 0), 0)
  }

  function RepelExpression(spec: Value): Value {
    Child(Child(Child(Child(RepelTerm(spec), 1), 0), 1), 0)
  }

  lemma AntiAffinityStored(d: Deployment, spec: Value)
    requires Derives(EncodeDeployment(d), spec)
    ensures var a, x := d.antiAffinity, RepelExpression(spec);
      && Says(Child(RepelTerm(spec), 0), a.topologyKey)
      && Says(Child(x, 0), a.key) && Says(Child(x, 1), a.operator)
      && Derives(EncodeAll(a.values, EncodeString), Child(x, 2))
  {
    TemplateStored(d, spec);
    FieldStored(PodSpec(EncodeDeployment(d)).fields, PodSpec(spec), 3);
    TermStored(d.antiAffinity, Child(PodSpec(spec), 3));
  }

  lemma TermStored(a: AntiAffinity, stored: Value)
    requires Derives(EncodeAntiAffinity(a), stored)
    ensures var term := Child(Child(Child(Child(Child(stored, 0), 0), 0), 0), 0);
      var x := Child(Child(Child(Child(term, 1), 0), 1), 0);
      && Says(Child(term, 0), a.topologyKey) && Says(Child(x, 0), a.key) && Says(Child(x, 1), a.operator)
      && Derives(EncodeAll(a.values, EncodeString), Child(x, 2))
  {
    var v, w := EncodeAntiAffinity(a), stored;
    DerivesChild(v, w, 0);
    v, w := Child(v, 0), Child(w, 0);
    DerivesChild(v, w, 0);
    v, w := Child(v, 0), Child(w, 0);
    DerivesChild(v, w, 0);
    v, w := Child(v, 0), Child(w, 0);
    DerivesChild(v, w, 0);
    v, w := Child(v, 0), Child(w, 0);
    DerivesChild(v, w, 0);
    v, w := Child(v, 0), Child(w, 0);
    var expression := [Str(a.key), Str(a.operator), EncodeAll(a.values, EncodeString)];
    var selector := [Map(map[]), Slice([Struct(expression)])];
    assert v == Struct([Str(a.topologyKey), Ptr(Some(Struct(selector)))]);
    FieldStored([Str(a.topologyKey), Ptr(Some(Struct(selector)))], w, 0);
    FieldStored([Str(a.topologyKey), Ptr(Some(Struct(selector)))], w, 1);
    DerivesChild(Ptr(Some(Struct(selector))), Child(w, 1), 0);
    w := Child(Child(w, 1), 0);
    FieldStored(selector, w, 1);
    DerivesChild(selector[1], Child(w, 1), 0);
    w := Child(Child(w, 1), 0);
    FieldStored(expression, w, 0);
    FieldStored(expression, w, 1);
    FieldStored(expression, w, 2);
  }

  lemma NvidiaStored(d: Deployment, spec: Value)
    requires Derives(EncodeDeployment(d), spec) && d.nvidia
    ensures AsksForNvidia(spec)
  {
    TemplateStored(d, spec);
    var fields := PodSpec(EncodeDeployment(d)).fields;
    FieldStored(fields, PodSpec(spec), 6);
    FieldStored(fields, PodSpec(spec), 7);
    assert fields[7] == Ptr(Some(Str("nvidia")));
    TolerationStored(Child(PodSpec(spec), 6));
  }

  lemma TolerationStored(stored: Value)
    requires Derives(EncodeToleration(true), stored)
    ensures stored.Slice? && stored != Slice([])
    ensures Child(Child(stored, 0), 0) == Str("nvidia.com/gpu") && Child(Child(stored, 0), 1) == Str("Exists")
    ensures Child(Child(stored, 0), 2) == Str("NoSchedule")
  {
    var a, b := Child(EncodeToleration(true), 0), Child(stored, 0);
    DerivesChild(EncodeToleration(true), stored, 0);
    DerivesChild(a, b, 0);
    DerivesChild(a, b, 1);
    DerivesChild(a, b, 2);
  }

  lemma ContainerStored(c: Container, stored: Value)
    requires Derives(EncodeContainer(c), stored)
    ensures Says(Child(stored, 0), c.name) && Says(Child(stored, 1), c.image)
    ensures Says(Child(stored, 2), c.imagePullPolicy)
    ensures Derives(EncodeAll(c.command, EncodeString), Child(stored, 10))
    ensures Derives(EncodeAll(c.args, EncodeString), Child(stored, 11))
  {
    var fields := EncodeContainer(c).fields;
    FieldStored(fields, stored, 0);
    FieldStored(fields, stored, 1);
    FieldStored(fields, stored, 2);
    FieldStored(fields, stored, 10);
    FieldStored(fields, stored, 11);
  }

  lemma ContainerListsStored(c: Container, stored: Value)
    requires Derives(EncodeContainer(c), stored)
    ensures Derives(EncodeAll(c.ports, EncodeContainerPort), Child(stored, 4))
    ensures Derives(EncodeAll(c.env, EncodeEnv), Child(stored, 5))
    ensures Derives(EncodeAll(c.mounts, EncodeMount), Child(stored, 6))
  {
    var fields := EncodeContainer(c).fields;
    FieldStored(fields, stored, 4);
    FieldStored(fields, stored, 5);
    FieldStored(fields, stored, 6);
  }

  lemma OpaquesStored(c: Container, stored: Value)
    requires Derives(EncodeContainer(c), stored)
    ensures c.resources.Some? ==> Child(stored, 3) == Ptr(Some(Num(c.resources.value)))
    ensures c.livenessProbe.Some? ==> Child(stored, 7) == Ptr(Some(Num(c.livenessProbe.value)))
    ensures c.readinessProbe.Some? ==> Child(stored, 8) == Ptr(Some(Num(c.readinessProbe.value)))
    ensures c.startupProbe.Some? ==> Child(stored, 9) == Ptr(Some(Num(c.startupProbe.value)))
  {
    var fields := EncodeContainer(c).fields;
    FieldStored(fields, stored, 3);
    FieldStored(fields, stored, 7);
    FieldStored(fields, stored, 8);
    FieldStored(fields, stored, 9);
  }

  predicate MountStored(m: VolumeMount, stored: Value) {
    && Says(Child(stored, 0), m.name) && Child(stored, 1) == Flag(m.readOnly)
    && Says(Child(stored, 2), m.mountPath) && Says(Child(stored, 3), m.subPath)
  }

  lemma MountsStored(mounts: seq<VolumeMount>, stored: Value, m: VolumeMount)
    requires Derives(EncodeAll(mounts, EncodeMount), stored) && m in mounts
    ensures stored.Slice? && exists i :: 0 <= i < |stored.elems| && MountStored(m, stored.elems[i])
  {
    var i :| 0 <= i < |mounts| && mounts[i] == m;
    var fields, b := EncodeMount(m).fields, stored.elems[i];
    assert EncodeAll(mounts, EncodeMount).elems[i] == EncodeMount(m);
    FieldStored(fields, b, 0);
    FieldStored(fields, b, 1);
    FieldStored(fields, b, 2);
    FieldStored(fields, b, 3);
    assert MountStored(m, b);
  }

  predicate ContainerPortStored(p: ContainerPort, stored: Value) {
    Says(Child(stored, 0), p.name) && Child(stored, 1) == Num(p.containerPort) && Says(Child(stored, 2), p.protocol)
  }

  lemma ContainerPortsStored(ports: seq<ContainerPort>, stored: Value, p: ContainerPort)
    requires Derives(EncodeAll(ports, EncodeContainerPort), stored) && p in ports
    ensures stored.Slice? && exists i :: 0 <= i < |stored.elems| && ContainerPortStored(p, stored.elems[i])
  {
    var i :| 0 <= i < |ports| && ports[i] == p;
    var fields, b := EncodeContainerPort(p).fields, stored.elems[i];
    assert EncodeAll(ports, EncodeContainerPort).elems[i] == EncodeContainerPort(p);
    FieldStored(fields, b, 0);
    FieldStored(fields, b, 1);
    FieldStored(fields, b, 2);
    assert ContainerPortStored(p, b);
  }

  lemma TextsStored(texts: seq<string>, stored: Value)
    requires Derives(EncodeAll(texts, EncodeString), stored)
    ensures stored.Slice? && |texts| <= |stored.elems|
    ensures forall i :: 0 <= i < |texts| ==> Says(stored.elems[i], texts[i])
  {
    forall i | 0 <= i < |texts| ensures Says(stored.elems[i], texts[i]) {
      assert EncodeAll(texts, EncodeString).elems[i] == Str(texts[i]);
    }
  }

  lemma InitStored(c: InitContainer, stored: Value)
    requires Derives(EncodeInit(c), stored)
    ensures Says(Child(stored, 0), c.name) && Says(Child(stored, 1), c.image)
    ensures Derives(EncodeAll(c.command, EncodeString), Child(stored, 2))
    ensures Derives(EncodeAll(c.mounts, EncodeMount), Child(stored, 3))
  {
    var fields := EncodeInit(c).fields;
    FieldStored(fields, stored, 0);
    FieldStored(fields, stored, 1);
    FieldStored(fields, stored, 2);
    FieldStored(fields, stored, 3);
  }

  // ----- References out of the pod -----

  const HOST_PATH_REF := 0
  const CLAIM_REF := 2
  const CONFIG_MAP_REF := 3
  const SECRET_REF := 4

  /** The object a stored pod volume refers to by its source pointer. */
  function VolumeRef(volume: Value, source: nat): Value {
    Child(Child(Child(Child(volume, 1), source), 0), 0)
  }

  /** The one item of a ConfigMap or Secret source: its key and the file it becomes. */
  function ItemOf(volume: Value, source: nat): Value {
    Child(Child(Child(Child(Child(volume, 1), source), 0), 1), 0)
  }

  lemma SourceStored(v: PodVolume, stored: Value, source: nat)
    requires Derives(EncodePod(v), stored) && source < 5
    requires Child(Child(EncodePod(v), 1), source) != Ptr(None)
    ensures Says(Child(stored, 0), v.name)
    ensures Derives(Child(Child(Child(EncodePod(v), 1), source), 0), Child(Child(Child(stored, 1), source), 0))
  {
    var a, b := EncodePod(v), stored;
    DerivesChild(a, b, 0);
    DerivesChild(a, b, 1);
    DerivesChild(Child(a, 1), Child(b, 1), source);
    DerivesChild(Child(Child(a, 1), source), Child(Child(b, 1), source), 0);
  }

  lemma HostPathStored(name: string, path: string, stored: Value)
    requires Derives(EncodePod(PodVolume(name, HostPathSource(path))), stored)
    ensures Says(Child(stored, 0), name) && Says(VolumeRef(stored, HOST_PATH_REF), path)
    ensures Child(Child(Child(Child(stored, 1), HOST_PATH_REF), 0), 1) == Ptr(Some(Str("DirectoryOrCreate")))
  {
    var v := PodVolume(name, HostPathSource(path));
    SourceStored(v, stored, HOST_PATH_REF);
    var a := Child(Child(Child(EncodePod(v), 1), HOST_PATH_REF), 0);
    var b := Child(Child(Child(stored, 1), HOST_PATH_REF), 0);
    DerivesChild(a, b, 0);
    DerivesChild(a, b, 1);
  }

  lemma EmptyDirStored(name: string, stored: Value)
    requires Derives(EncodePod(PodVolume(name, EmptyDirSource)), stored)
    ensures Says(Child(stored, 0), name) && Child(Child(stored, 1), 1) != Ptr(None)
  {
    SourceStored(PodVolume(name, EmptyDirSource), stored, 1);
  }

  lemma ClaimVolumeStored(name: string, claim: string, stored: Value)
    requires Derives(EncodePod(PodVolume(name, ClaimSource(claim))), stored)
    ensures Says(Child(stored, 0), name) && Says(VolumeRef(stored, CLAIM_REF), claim)
    ensures Child(Child(Child(Child(stored, 1), CLAIM_REF), 0), 1) == Flag(false)
  {
    var v := PodVolume(name, ClaimSource(claim));
    SourceStored(v, stored, CLAIM_REF);
    var a, b := Child(Child(Child(EncodePod(v), 1), CLAIM_REF), 0), Child(Child(Child(stored, 1), CLAIM_REF), 0);
    DerivesChild(a, b, 0);
    DerivesChild(a, b, 1);
  }

  lemma ItemStored(a: Value, b: Value, name: string, key: string, path: string)
    requires a == Struct([Str(name), Slice([Struct([Str(key), Str(path)])])]) && Derives(a, b)
    ensures Says(Child(b, 0), name)
    ensures Says(Child(Child(Child(b, 1), 0), 0), key) && Says(Child(Child(Child(b, 1), 0), 1), path)
  {
    DerivesChild(a, b, 0);
    DerivesChild(a, b, 1);
    DerivesChild(Child(a, 1), Child(b, 1), 0);
    DerivesChild(Child(Child(a, 1), 0), Child(Child(b, 1), 0), 0);
    DerivesChild(Child(Child(a, 1), 0), Child(Child(b, 1), 0), 1);
  }

  lemma ConfigMapVolumeStored(name: string, cm: string, key: string, path: string, stored: Value)
    requires Derives(EncodePod(PodVolume(name, ConfigMapSource(cm, key, path))), stored)
    ensures Says(Child(stored, 0), name) && Says(VolumeRef(stored, CONFIG_MAP_REF), cm)
    ensures Says(Child(ItemOf(stored, CONFIG_MAP_REF), 0), key)
    ensures Says(Child(ItemOf(stored, CONFIG_MAP_REF), 1), path)
  {
    var v := PodVolume(name, ConfigMapSource(cm, key, path));
    SourceStored(v, stored, CONFIG_MAP_REF);
    ItemStored(Child(Child(Child(EncodePod(v), 1), CONFIG_MAP_REF), 0),
               Child(Child(Child(stored, 1), CONFIG_MAP_REF), 0), cm, key, path);
  }

  lemma SecretVolumeStored(name: string, secret: string, key: string, path: string, stored: Value)
    requires Derives(EncodePod(PodVolume(name, SecretSource(secret, key, path))), stored)
    ensures Says(Child(stored, 0), name) && Says(VolumeRef(stored, SECRET_REF), secret)
    ensures Says(Child(ItemOf(stored, SECRET_REF), 0), key) && Says(Child(ItemOf(stored, SECRET_REF), 1), path)
  {
    var v := PodVolume(name, SecretSource(secret, key, path));
    SourceStored(v, stored, SECRET_REF);
    ItemStored(Child(Child(Child(EncodePod(v), 1), SECRET_REF), 0),
               Child(Child(Child(stored, 1), SECRET_REF), 0), secret, key, path);
  }

  /** The secret key selector of a stored variable: the secret's name and the key. */
  function SecretKeyRef(env: Value): Value {
    Child(Child(Child(Child(env, 2), 0), 1), 0)
  }

  lemma SecretEnvStored(name: string, secret: string, key: string, stored: Value)
    requires Derives(EncodeEnv(SecretEnv(name, secret, key)), stored)
    ensures Says(Child(stored, 0), name)
    ensures Says(Child(SecretKeyRef(stored), 0), secret) && Says(Child(SecretKeyRef(stored), 1), key)
  {
    var a, b := EncodeEnv(SecretEnv(name, secret, key)), stored;
    DerivesChild(a, b, 0);
    DerivesChild(a, b, 2);
    DerivesChild(Child(a, 2), Child(b, 2), 0);
    a, b := Child(Child(a, 2), 0), Child(Child(b, 2), 0);
    DerivesChild(a, b, 1);
    DerivesChild(Child(a, 1), Child(b, 1), 0);
    a, b := Child(Child(a, 1), 0), Child(Child(b, 1), 0);
    DerivesChild(a, b, 0);
    DerivesChild(a, b, 1);
  }

  lemma PlainEnvStored(name: string, value: string, stored: Value)
    requires Derives(EncodeEnv(PlainEnv(name, value)), stored)
    ensures Says(Child(stored, 0), name) && Says(Child(stored, 1), value)
  {
    DerivesChild(EncodeEnv(PlainEnv(name, value)), stored, 0);
    DerivesChild(EncodeEnv(PlainEnv(name, value)), stored, 1);
  }

  /** The ConfigMap key selector of a stored variable. */
  function ConfigMapKeyRef(env: Value): Value {
    Child(Child(Child(Child(env, 2), 0), 0), 0)
  }

  lemma ConfigMapEnvStored(name: string, cm: string, key: string, stored: Value)
    requires Derives(EncodeEnv(ConfigMapEnv(name, cm, key)), stored)
    ensures Says(Child(stored, 0), name)
    ensures Says(Child(ConfigMapKeyRef(stored), 0), cm) && Says(Child(ConfigMapKeyRef(stored), 1), key)
  {
    var a, b := EncodeEnv(ConfigMapEnv(name, cm, key)), stored;
    DerivesChild(a, b, 0);
    DerivesChild(a, b, 2);
    DerivesChild(Child(a, 2), Child(b, 2), 0);
    a, b := Child(Child(a, 2), 0), Child(Child(b, 2), 0);
    DerivesChild(a, b, 0);
    DerivesChild(Child(a, 0), Child(b, 0), 0);
    a, b := Child(Child(a, 0), 0), Child(Child(b, 0), 0);
    DerivesChild(a, b, 0);
    DerivesChild(a, b, 1);
  }

  // ----- Service -----

  predicate PortStored(p: ServicePort, stored: Value) {
    && Says(Child(stored, 0), p.name) && Says(Child(stored, 1), p.protocol)
    && Child(stored, 2) == Num(p.port) && Child(stored, 3) == Num(p.targetPort)
  }

  lemma ServiceStored(
    ports: seq<ServicePort>, serviceType: string, selector: map<string, string>, data: GeneratedServiceSpecData,
    spec: Value)
    requires Derives(ServiceSpec(ports, serviceType, selector, data), spec)
    ensures Derives(EncodePorts(ports), Child(spec, 0)) && Says(Child(spec, 1), serviceType)
    ensures Derives(StringMap(selector), Child(spec, 2))
  {
    var a := ServiceSpec(ports, serviceType, selector, data);
    DerivesChild(a, spec, 0);
    DerivesChild(a, spec, 1);
    DerivesChild(a, spec, 2);
  }

  lemma PortsStored(ports: seq<ServicePort>, stored: Value, p: ServicePort)
    requires Derives(EncodePorts(ports), stored) && p in ports
    ensures stored.Slice? && exists i :: 0 <= i < |stored.elems| && PortStored(p, stored.elems[i])
  {
    var i :| 0 <= i < |ports| && ports[i] == p;
    var a, b := EncodePorts(ports).elems[i], stored.elems[i];
    assert a == EncodePort(p) && Derives(a, b);
    DerivesChild(a, b, 0);
    DerivesChild(a, b, 1);
    DerivesChild(a, b, 2);
    DerivesChild(a, b, 3);
    assert PortStored(p, b);
  }

  // ----- Ingress -----

  function FirstRule(spec: Value): Value {
    Child(Child(spec, 0), 0)
  }

  /** The first path of the first rule. */
  function FirstPath(spec: Value): Value {
    Child(Child(Child(Child(FirstRule(spec), 1), 0), 0), 0)
  }

  /** The service its traffic goes to. */
  function Backend(spec: Value): Value {
    Child(Child(Child(FirstPath(spec), 2), 0), 0)
  }

  function BackendName(spec: Value): Value {
    Child(Backend(spec), 0)
  }

  function BackendPort(spec: Value): Value {
    Child(Child(Backend(spec), 1), 1)
  }

  lemma PathStored(i: Ingress, stored: Value)
    requires Derives(EncodeIngress(i), stored)
    ensures Derives(FirstPath(EncodeIngress(i)), FirstPath(stored))
    ensures Says(Child(FirstRule(stored), 0), i.host)
  {
    var a, b := EncodeIngress(i), stored;
    DerivesChild(a, b, 0);
    DerivesChild(Child(a, 0), Child(b, 0), 0);
    a, b := FirstRule(a), FirstRule(b);
    DerivesChild(a, b, 0);
    DerivesChild(a, b, 1);
    a, b := Child(a, 1), Child(b, 1);
    DerivesChild(a, b, 0);
    a, b := Child(a, 0), Child(b, 0);
    DerivesChild(a, b, 0);
    a, b := Child(a, 0), Child(b, 0);
    DerivesChild(a, b, 0);
  }

  lemma BackendStored(i: Ingress, stored: Value)
    requires Derives(EncodeIngress(i), stored)
    ensures Says(BackendName(stored), i.serviceName) && BackendPort(stored) == Num(i.servicePort)
    ensures Child(FirstPath(stored), 0) == Str("/") && Child(FirstPath(stored), 1) == Ptr(Some(Str("Prefix")))
  {
    PathStored(i, stored);
    var service := Struct([Str(i.serviceName), Struct([Str(""), Num(i.servicePort)])]);
    var fields := [Str("/"), Ptr(Some(Str("Prefix"))), Struct([Ptr(Some(service)), Ptr(None)])];
    assert FirstPath(EncodeIngress(i)) == Struct(fields);
    FieldStored(fields, FirstPath(stored), 0);
    FieldStored(fields, FirstPath(stored), 1);
    FieldStored(fields, FirstPath(stored), 2);
    FieldStored([Ptr(Some(service)), Ptr(None)], Child(FirstPath(stored), 2), 0);
    ServiceBackendStored(i, Backend(stored));
  }

  lemma ServiceBackendStored(i: Ingress, stored: Value)
    requires Derives(Struct([Str(i.serviceName), Struct([Str(""), Num(i.servicePort)])]), stored)
    ensures Says(Child(stored, 0), i.serviceName) && Child(Child(stored, 1), 1) == Num(i.servicePort)
  {
    var port := [Str(""), Num(i.servicePort)];
    FieldStored([Str(i.serviceName), Struct(port)], stored, 0);
    FieldStored([Str(i.serviceName), Struct(port)], stored, 1);
    FieldStored(port, Child(stored, 1), 1);
  }

  lemma TlsStored(i: Ingress, stored: Value)
    requires Derives(EncodeIngress(i), stored)
    ensures var tls := Child(Child(stored, 1), 0);
      Says(Child(Child(tls, 0), 0), i.tlsHost) && Says(Child(tls, 1), i.tlsSecret)
  {
    var a, b := EncodeIngress(i), stored;
    DerivesChild(a, b, 1);
    a, b := Child(a, 1), Child(b, 1);
    DerivesChild(a, b, 0);
    a, b := Child(a, 0), Child(b, 0);
    DerivesChild(a, b, 0);
    DerivesChild(a, b, 1);
    DerivesChild(Child(a, 0), Child(b, 0), 0);
  }

  // ----- ExternalSecret -----

  function TargetName(spec: Value): Value {
    Child(Child(spec, 3), 0)
  }

  /** The template data of the target. */
  function TemplatesOf(spec: Value): Value {
    Child(Child(Child(Child(spec, 3), 1), 0), 1)
  }

  /** Where a stored entry of the data section is fetched from: not decoded, converted by default, no metadata. */
  predicate DataStored(d: SecretData, stored: Value) {
    var remote := Child(stored, 1);
    && Says(Child(stored, 0), d.secretKey) && Says(Child(remote, 0), d.remoteKey)
    && Child(remote, 1) == Str("None") && Child(remote, 2) == Str("Default") && Child(remote, 3) == Str("None")
  }

  /** The settings every ExternalSecret has: refreshed every 900 seconds, templates replace, deleted with its owner. */
  predicate FixedSettings(spec: Value) {
    && Child(Child(spec, 0), 1) == Str("SecretStore")
    && Child(spec, 1) == Ptr(Some(Num(900)))
    && Child(Child(Child(Child(spec, 3), 1), 0), 0) == Str("v2")
    && Child(Child(Child(Child(spec, 3), 1), 0), 2) == Str("Replace")
    && Child(Child(spec, 3), 2) == Str("Owner") && Child(Child(spec, 3), 3) == Str("Delete")
  }

  lemma SecretStored(e: ExternalSecret, spec: Value)
    requires Derives(EncodeExternalSecret(e), spec)
    ensures Says(Child(Child(spec, 0), 0), e.store) && Says(TargetName(spec), e.target)
    ensures Derives(StringMap(e.templates), TemplatesOf(spec)) && FixedSettings(spec)
  {
    var a := EncodeExternalSecret(e);
    DerivesChild(a, spec, 0);
    DerivesChild(Child(a, 0), Child(spec, 0), 0);
    DerivesChild(Child(a, 0), Child(spec, 0), 1);
    DerivesChild(a, spec, 1);
    DerivesChild(Child(a, 1), Child(spec, 1), 0);
    DerivesChild(a, spec, 3);
    TargetStored(e, Child(spec, 3));
  }

  lemma TargetStored(e: ExternalSecret, stored: Value)
    requires Derives(Child(EncodeExternalSecret(e), 3), stored)
    ensures Says(Child(stored, 0), e.target) && Child(stored, 2) == Str("Owner") && Child(stored, 3) == Str("Delete")
    ensures Derives(StringMap(e.templates), Child(Child(Child(stored, 1), 0), 1))
    ensures Child(Child(Child(stored, 1), 0), 0) == Str("v2") && Child(Child(Child(stored, 1), 0), 2) == Str("Replace")
  {
    var a, b := Child(EncodeExternalSecret(e), 3), stored;
    DerivesChild(a, b, 0);
    DerivesChild(a, b, 1);
    DerivesChild(a, b, 2);
    DerivesChild(a, b, 3);
    DerivesChild(Child(a, 1), Child(b, 1), 0);
    a, b := Child(Child(a, 1), 0), Child(Child(b, 1), 0);
    DerivesChild(a, b, 0);
    DerivesChild(a, b, 1);
    DerivesChild(a, b, 2);
  }

  lemma SecretDataStored(e: ExternalSecret, spec: Value, d: SecretData)
    requires Derives(EncodeExternalSecret(e), spec) && d in e.data
    ensures Child(spec, 2).Slice?
    ensures exists i :: 0 <= i < |Child(spec, 2).elems| && DataStored(d, Child(spec, 2).elems[i])
  {
    var a := EncodeExternalSecret(e);
    DerivesChild(a, spec, 2);
    var i :| 0 <= i < |e.data| && e.data[i] == d;
    assert Child(a, 2).elems[i] == EncodeSecretData(d);
    EntryStored(d, Child(spec, 2).elems[i]);
  }

  lemma EntryStored(d: SecretData, stored: Value)
    requires Derives(EncodeSecretData(d), stored)
    ensures DataStored(d, stored)
  {
    var remote := [Str(d.remoteKey), Str("None"), Str("Default"), Str("None")];
    FieldStored([Str(d.secretKey), Struct(remote)], stored, 0);
    FieldStored([Str(d.secretKey), Struct(remote)], stored, 1);
    FieldStored(remote, Child(stored, 1), 0);
    FieldStored(remote, Child(stored, 1), 1);
    FieldStored(remote, Child(stored, 1), 2);
    FieldStored(remote, Child(stored, 1), 3);
  }

  // ----- Claim -----

  lemma ClaimStored(v: Volume, spec: Value)
    requires v.size.Some? && Derives(EncodeClaim(v), spec)
    ensures Child(spec, 0).Slice? && Child(spec, 0) != Slice([]) && Child(Child(spec, 0), 0) == Str("ReadWriteOnce")
    ensures v.storageClass.Some? ==> Child(spec, 1).Ptr? && Says(Child(Child(spec, 1), 0), v.storageClass.value)
    ensures var requests := Child(Child(spec, 2), 0);
      requests.Map? && "storage" in requests.entries && Says(requests.entries["storage"], v.size.value)
  {
    var a := EncodeClaim(v);
    DerivesChild(a, spec, 0);
    DerivesChild(Child(a, 0), Child(spec, 0), 0);
    DerivesChild(a, spec, 1);
    if v.storageClass.Some? {
      DerivesChild(Child(a, 1), Child(spec, 1), 0);
    }
    DerivesChild(a, spec, 2);
    DerivesChild(Child(a, 2), Child(spec, 2), 0);
    assert Child(Child(a, 2), 0).entries["storage"] == Str(v.size.value);
  }
}
