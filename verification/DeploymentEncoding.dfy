/** The Deployment spec as a value tree, for comparison with the stored one. */
module DeploymentEncoding {
  import opened Options
  import opened Bundle
  import opened ConfigMounts
  import opened DeepDerivative
  import opened DeploymentCompiler

  function EncodeAll<T>(items: seq<T>, encode: T -> Value): Value {
    Slice(seq(|items|, i requires 0 <= i < |items| => encode(items[i])))
  }

  function EncodeString(s: string): Value {
    Str(s)
  }

  function EncodeOpaque(o: Option<Opaque>): Value {
    Ptr(if o.Some? then Some(Num(o.value)) else None)
  }

  /** Of the source pointers of a volume exactly one is set; they stand at separate places. */
  function EncodePod(v: PodVolume): Value {
    var item := (key: string, path: string) => Slice([Struct([Str(key), Str(path)])]);
    var at := (i: nat, source: Value) => seq(5, j => if i == j then Ptr(Some(source)) else Ptr(None));
    Struct([Str(v.name), Struct(
      match v.source
      case HostPathSource(path) => at(0, Struct([Str(path), Ptr(Some(Str("DirectoryOrCreate")))]))
      case EmptyDirSource => at(1, Struct([Str("")]))
      case ClaimSource(claim) => at(2, Struct([Str(claim), Flag(false)]))
      case ConfigMapSource(name, key, path) => at(3, Struct([Str(name), item(key, path)]))
      case SecretSource(name, key, path) => at(4, Struct([Str(name), item(key, path)])))])
  }

  function EncodeMount(m: VolumeMount): Value {
    Struct([Str(m.name), Flag(m.readOnly), Str(m.mountPath), Str(m.subPath)])
  }

  function EncodeContainerPort(p: ContainerPort): Value {
    Struct([Str(p.name), Num(p.containerPort), Str(p.protocol)])
  }

  function EncodeEnv(e: EnvVar): Value {
    match e
    case PlainEnv(name, value) => Struct([Str(name), Str(value), Ptr(None)])
    case SecretEnv(name, secret, key) =>
      Struct([Str(name), Str(""), Ptr(Some(Struct([Ptr(None), Ptr(Some(Struct([Str(secret), Str(key)])))])))])
    case ConfigMapEnv(name, cm, key) =>
      Struct([Str(name), Str(""), Ptr(Some(Struct([Ptr(Some(Struct([Str(cm), Str(key)]))), Ptr(None)])))])
  }

  function EncodeInit(c: InitContainer): Value {
    Struct([Str(c.name), Str(c.image), EncodeAll(c.command, EncodeString), EncodeAll(c.mounts, EncodeMount)])
  }

  function EncodeContainer(c: Container): Value {
    Struct([
      Str(c.name), Str(c.image), Str(c.imagePullPolicy), EncodeOpaque(c.resources),
      EncodeAll(c.ports, EncodeContainerPort), EncodeAll(c.env, EncodeEnv), EncodeAll(c.mounts, EncodeMount),
      EncodeOpaque(c.livenessProbe), EncodeOpaque(c.readinessProbe), EncodeOpaque(c.startupProbe),
      EncodeAll(c.command, EncodeString), EncodeAll(c.args, EncodeString)])
  }

  function EncodeToleration(nvidia: bool): Value {
    if nvidia then Slice([Struct([Str("nvidia.com/gpu"), Str("Exists"), Str("NoSchedule")])]) else Slice([])
  }

  function EncodeAntiAffinity(a: AntiAffinity): Value {
    var expression := Struct([Str(a.key), Str(a.operator), EncodeAll(a.values, EncodeString)]);
    Ptr(Some(Struct([Ptr(Some(Struct([Slice([
      Struct([Str(a.topologyKey), Ptr(Some(Struct([Map(map[]), Slice([expression])])))])])])))])))
  }

  /** Field order: replicas, revision history, strategy, selector, pod template. */
  function EncodeDeployment(d: Deployment): Value {
    Struct([
      Ptr(if d.replicas.Some? then Some(Num(d.replicas.value)) else None),
      Ptr(Some(Num(3))),
      Str("Recreate"),
      Ptr(Some(Struct([StringMap(d.matchLabels)]))),
      Struct([StringMap(d.matchLabels), Struct([
        EncodeAll(d.volumes, EncodePod), Slice([Str("regcred")]), EncodeAll(d.initContainers, EncodeInit),
        EncodeAntiAffinity(d.antiAffinity), Slice([EncodeContainer(d.container)]),
        StringMap(d.nodeSelector), EncodeToleration(d.nvidia),
        Ptr(if d.nvidia then Some(Str("nvidia")) else None)])])
    ])
  }

  const SELECTOR_FIELD := 3

  const ZERO_DEPLOYMENT := Struct([
    Ptr(None), Ptr(None), Str(""), Ptr(None),
    Struct([Map(map[]),
      Struct([Slice([]), Slice([]), Slice([]), Ptr(None), Slice([]), Map(map[]), Slice([]), Ptr(None)])])])

  /** A Deployment that is not there never looks up to date. */
  lemma NoDeploymentNeverMatches(d: Deployment)
    ensures !Derives(EncodeDeployment(d), ZERO_DEPLOYMENT)
  {
    assert !Derives(EncodeDeployment(d).fields[SELECTOR_FIELD], ZERO_DEPLOYMENT.fields[SELECTOR_FIELD]);
  }
}
