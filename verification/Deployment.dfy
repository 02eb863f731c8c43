/** CreateExpectedDeployment: the Deployment a bundle compiles to. */
module DeploymentCompiler {
  import opened Options
  import opened KeyLoops
  import opened Bundle
  import opened GoSlices
  import opened ConfigMounts

  datatype CompileError = VolumeHasNoPath(key: string) | EnvHasNoSource(key: string) | NoSecretStore

  datatype VolumeSource =
    | HostPathSource(path: string)
    | EmptyDirSource
    | ClaimSource(claimName: string)
    | ConfigMapSource(configMap: string, key: string, path: string)
    | SecretSource(secretName: string, key: string, path: string)

  datatype PodVolume = PodVolume(name: string, source: VolumeSource)

  datatype ContainerPort = ContainerPort(name: string, containerPort: int, protocol: string)

  datatype EnvVar =
    | PlainEnv(name: string, value: string)
    | SecretEnv(name: string, secretName: string, key: string)
    | ConfigMapEnv(name: string, configMap: string, key: string)

  datatype InitContainer = InitContainer(name: string, image: string, command: seq<string>, mounts: seq<VolumeMount>)

  datatype Container = Container(
    name: string,
    image: string,
    imagePullPolicy: string,
    resources: Option<Opaque>,
    ports: seq<ContainerPort>,
    env: seq<EnvVar>,
    mounts: seq<VolumeMount>,
    livenessProbe: Option<Opaque>,
    readinessProbe: Option<Opaque>,
    startupProbe: Option<Opaque>,
    command: seq<string>,
    args: seq<string>)

  /** No two pods whose label key has one of the values on one topology domain. */
  datatype AntiAffinity = AntiAffinity(topologyKey: string, key: string, operator: string, values: seq<string>)

  datatype Deployment = Deployment(
    labels: map<string, string>,
    replicas: Option<int>,
    matchLabels: map<string, string>,
    volumes: seq<PodVolume>,
    initContainers: seq<InitContainer>,
    container: Container,
    antiAffinity: AntiAffinity,
    nodeSelector: map<string, string>,
    nvidia: bool)

  /** int32(x) for a 64-bit x: truncation to the low 32 bits, two's complement. */
  function ToInt32(x: int): (r: int)
    ensures -0x8000_0000 <= r < 0x8000_0000 && (r - x) % 0x1_0000_0000 == 0
    ensures -0x8000_0000 <= x < 0x8000_0000 ==> r == x
  {
    (x + 0x8000_0000) % 0x1_0000_0000 - 0x8000_0000
  }

  /** The pointers CreateExpectedDeployment follows without a nil test. */
  predicate Dereferenceable(ab: AppBundle) {
    && (forall k :: k in Entries(ab.spec.routes) ==> Entries(ab.spec.routes)[k].port.Some?)
    && ab.spec.image.Some? && ab.spec.image.value.repository.Some? && ab.spec.image.value.tag.Some?
  }

  // ----- Items, one per key -----

  function PortOf(key: string, route: Route): ContainerPort {
    ContainerPort(key, ToInt32(if route.port.Some? then route.port.value else 0), "TCP")
  }

  function VolumeName(key: string, v: Volume): string {
    if v.existingClaim.Some? then v.existingClaim.value else key
  }

  function MountOf(key: string, v: Volume): VolumeMount {
    VolumeMount(VolumeName(key, v), if v.path.Some? then v.path.value else "", "", false)
  }

  predicate UsesEmptyDir(v: Volume) {
    v.emptyDir == Some(true)
  }

  function ClaimName(abName: string, key: string, v: Volume): string {
    if v.existingClaim.Some? then v.existingClaim.value else Dashed(abName, key)
  }

  function VolumeOf(abName: string, key: string, v: Volume): PodVolume {
    PodVolume(VolumeName(key, v),
      if v.hostPath.Some? then HostPathSource(v.hostPath.value)
      else if UsesEmptyDir(v) then EmptyDirSource
      else ClaimSource(ClaimName(abName, key, v)))
  }

  predicate CopiesOver(c: Config) {
    c.copyOver == Some(true)
  }

  function ConfigVolumeName(key: string, c: Config): string {
    if c.existing == None && c.secrets != map[] then "sec-" + key else "cm-" + key
  }

  function ConfigVolumeOf(abName: string, key: string, c: Config): PodVolume {
    PodVolume(ConfigVolumeName(key, c),
      if c.existing.Some? then ConfigMapSource(c.existing.value, key, c.fileName)
      else if c.secrets == map[] then ConfigMapSource(abName, key, c.fileName)
      else SecretSource(abName, "cfg" + key, c.fileName))
  }

  function MountPath(c: Config): string {
    c.dirPath + "/" + c.fileName
  }

  function TempMountPath(c: Config): string {
    "/atrok" + c.dirPath + "/" + c.fileName
  }

  function StepOf(key: string, c: Config): Step {
    Step(key,
      VolumeMount(ConfigVolumeName(key, c), if CopiesOver(c) then TempMountPath(c) else MountPath(c), c.fileName, true),
      CopiesOver(c))
  }

  function CopyContainer(init: Init, c: Config): InitContainer {
    InitContainer("copy-over-" + init.key, "busybox:stable",
      ["sh", "-c", "cp " + TempMountPath(c) + " " + MountPath(c) + " && chmod 777 " + MountPath(c)],
      init.mounts)
  }

  function PlainEnvOf(key: string, value: string): EnvVar {
    PlainEnv(key, value)
  }

  predicate HasNoSource(e: SourcedEnv) {
    e.secret == "" && e.configMap == "" && e.externalSecret == ""
  }

  /** Secret first, then ConfigMap, then ExternalSecret. */
  function SourcedEnvOf(abName: string, key: string, e: SourcedEnv): EnvVar {
    if e.secret != "" then SecretEnv(key, e.secret, e.key)
    else if e.configMap != "" then ConfigMapEnv(key, e.configMap, e.key)
    else SecretEnv(key, abName, "env" + key)
  }

  // ----- The expected Deployment -----

  ghost function Steps(ab: AppBundle): seq<Step> {
    MapSorted(Entries(ab.spec.configs), StepOf)
  }

  ghost function BaseMounts(ab: AppBundle): seq<VolumeMount> {
    MapSorted(Entries(ab.spec.volumes), MountOf)
  }

  ghost function PodVolumes(ab: AppBundle): seq<PodVolume> {
    MapSorted(Entries(ab.spec.volumes), (k, v) => VolumeOf(ab.name, k, v)) +
    MapSorted(Entries(ab.spec.configs), (k, c) => ConfigVolumeOf(ab.name, k, c))
  }

  ghost function InitContainers(ab: AppBundle, grow: nat -> nat): (r: seq<InitContainer>) {
    ContainersOf(Inits(BaseMounts(ab), Steps(ab), grow), Entries(ab.spec.configs))
  }

  function ContainersOf(inits: seq<Init>, configs: map<string, Config>): seq<InitContainer> {
    seq(|inits|, i requires 0 <= i < |inits| => CopyContainer(inits[i], ConfigAt(configs, inits[i].key)))
  }

  function ConfigAt(configs: map<string, Config>, key: string): Config {
    if key in configs then configs[key] else Config("", "", None, map[], "", None)
  }

  ghost function Envs(ab: AppBundle): seq<EnvVar> {
    MapSorted(Entries(ab.spec.envs), PlainEnvOf) +
    MapSorted(Entries(ab.spec.sourcedEnvs), (k, e) => SourcedEnvOf(ab.name, k, e))
  }

  predicate UsesNvidia(ab: AppBundle) {
    ab.spec.useNvidia == Some(true)
  }

  const NVIDIA_ENV := PlainEnv("NVIDIA_VISIBLE_DEVICES", "all")

  function WithNvidia(env: seq<EnvVar>): seq<EnvVar> {
    if exists i :: 0 <= i < |env| && env[i].name == NVIDIA_ENV.name then env else env + [NVIDIA_ENV]
  }

  function MatchLabels(ab: AppBundle): map<string, string> {
    map[APP_BUNDLE_SELECTOR := ab.name]
  }

  function AntiAffinityOf(ab: AppBundle): AntiAffinity {
    AntiAffinity("kubernetes.io/hostname", APP_BUNDLE_SELECTOR, "In", [ab.name])
  }

  /** The selector of d takes in the pods of e, which carry the labels that e matches. */
  predicate Selects(d: Deployment, e: Deployment) {
    forall k :: k in d.matchLabels ==> k in e.matchLabels && e.matchLabels[k] == d.matchLabels[k]
  }

  /** The anti-affinity term of d keeps its pods off the hosts of e's. */
  predicate Repels(d: Deployment, e: Deployment) {
    d.antiAffinity.key in e.matchLabels && e.matchLabels[d.antiAffinity.key] in d.antiAffinity.values
  }

  /** Pods repel exactly those that their selector takes in: the ones of their own bundle, one to a host. */
  lemma PodsRepelEachOther(a: AppBundle, b: AppBundle, grow: nat -> nat)
    requires Dereferenceable(a) && ExpectedDeployment(a, grow).Ok?
    requires Dereferenceable(b) && ExpectedDeployment(b, grow).Ok?
    ensures var d, e := ExpectedDeployment(a, grow).value, ExpectedDeployment(b, grow).value;
      (Selects(d, e) <==> a.name == b.name) && (Repels(d, e) <==> a.name == b.name)
  {
    var d, e := ExpectedDeployment(a, grow).value, ExpectedDeployment(b, grow).value;
    assert APP_BUNDLE_SELECTOR in d.matchLabels && d.matchLabels[APP_BUNDLE_SELECTOR] == a.name;
    assert [a.name][0] in [a.name];
  }

  ghost function ExpectedContainer(ab: AppBundle): Container
    requires Dereferenceable(ab)
  {
    var image := ab.spec.image.value;
    var steps := Steps(ab);
    Container(
      ab.name, image.repository.value + ":" + image.tag.value,
      if image.pullPolicy.Some? then image.pullPolicy.value else "Always",
      ab.spec.resources, MapSorted(Entries(ab.spec.routes), PortOf),
      if UsesNvidia(ab) then WithNvidia(Envs(ab)) else Envs(ab),
      MainMounts(BaseMounts(ab), steps, |steps|),
      ab.spec.livenessProbe, ab.spec.readinessProbe, ab.spec.startupProbe, ab.spec.command, ab.spec.args)
  }

  ghost function ExpectedDeployment(ab: AppBundle, grow: nat -> nat): Result<Deployment, CompileError>
    requires Dereferenceable(ab)
  {
    var pathless := FirstSorted(Entries(ab.spec.volumes), (v: Volume) => v.path == None);
    var sourceless := FirstSorted(Entries(ab.spec.sourcedEnvs), HasNoSource);
    if pathless.Some? then Failure(VolumeHasNoPath(pathless.value))
    else if sourceless.Some? then Failure(EnvHasNoSource(sourceless.value))
    else Ok(Deployment(
      DefaultLabels(ab), ab.spec.replicas, MatchLabels(ab), PodVolumes(ab), InitContainers(ab, grow),
      ExpectedContainer(ab), AntiAffinityOf(ab), Entries(ab.spec.nodeSelector), UsesNvidia(ab)))
  }

  /** A Deployment can be compiled exactly when every volume has a path and every sourced variable a source. */
  lemma DeploymentCompilesIff(ab: AppBundle, grow: nat -> nat)
    requires Dereferenceable(ab)
    ensures ExpectedDeployment(ab, grow).Ok?
       <==> (forall k :: k in Entries(ab.spec.volumes) ==> Entries(ab.spec.volumes)[k].path.Some?)
            && forall k :: k in Entries(ab.spec.sourcedEnvs) ==> !HasNoSource(Entries(ab.spec.sourcedEnvs)[k])
  {
    var pathless := FirstSorted(Entries(ab.spec.volumes), (v: Volume) => v.path == None);
    assert pathless == None <==> forall k :: k in Entries(ab.spec.volumes) ==> Entries(ab.spec.volumes)[k].path.Some?;
  }

  /** The compiler, with its loops and its shared slices. */
  method CreateExpectedDeployment(ab: AppBundle, grow: nat -> nat) returns (r: Result<Deployment, CompileError>)
    requires Dereferenceable(ab) && Grows(grow)
    ensures r == ExpectedDeployment(ab, grow)
  {
    var labels := SetDefaultAppBundleLabels(ab, map[]);
    assert map[] + DefaultLabels(ab) == DefaultLabels(ab);

    var ports := AppendPerKey(Entries(ab.spec.routes), PortOf);

    var pathless := FindBadKey(Entries(ab.spec.volumes), (v: Volume) => v.path == None);
    if pathless.Some? {
      return Failure(VolumeHasNoPath(pathless.value));
    }
    var volumeMounts := AppendPerKey(Entries(ab.spec.volumes), MountOf);
    var volumes := AppendPerKey(Entries(ab.spec.volumes), (k, v) => VolumeOf(ab.name, k, v));

    var configs := Entries(ab.spec.configs);
    var configVolumes := AppendPerKey(configs, (k, c) => ConfigVolumeOf(ab.name, k, c));
    var steps := AppendPerKey(configs, StepOf);
    var mounts, inits := MountConfigs(volumeMounts, steps, grow);
    var initContainers := ContainersOf(inits, configs);

    var env := AppendPerKey(Entries(ab.spec.envs), PlainEnvOf);
    var sourceless := FindBadKey(Entries(ab.spec.sourcedEnvs), HasNoSource);
    if sourceless.Some? {
      return Failure(EnvHasNoSource(sourceless.value));
    }
    var sourced := AppendPerKey(Entries(ab.spec.sourcedEnvs), (k, e) => SourcedEnvOf(ab.name, k, e));
    env := env + sourced;
    if UsesNvidia(ab) {
      env := AddNvidiaEnv(env);
    }

    var image := ab.spec.image.value;
    var imagePullPolicy := "Always";
    if image.pullPolicy.Some? {
      imagePullPolicy := image.pullPolicy.value;
    }
    var container := Container(
      ab.name, image.repository.value + ":" + image.tag.value, imagePullPolicy, ab.spec.resources, ports, env, mounts,
      ab.spec.livenessProbe, ab.spec.readinessProbe, ab.spec.startupProbe, ab.spec.command, ab.spec.args);
    var affinity := AntiAffinity("kubernetes.io/hostname", APP_BUNDLE_SELECTOR, "In", [ab.name]);
    r := Ok(Deployment(
      labels, ab.spec.replicas, MatchLabels(ab), volumes + configVolumes, initContainers,
      container, affinity, Entries(ab.spec.nodeSelector), UsesNvidia(ab)));
  }

  /** The scan for the variable, then the append when it is missing. */
  method AddNvidiaEnv(env: seq<EnvVar>) returns (envs: seq<EnvVar>)
    ensures envs == WithNvidia(env)
  {
    var foundNvidiaEnv := false;
    for i := 0 to |env|
      invariant foundNvidiaEnv <==> exists j :: 0 <= j < i && env[j].name == NVIDIA_ENV.name
    {
      if env[i].name == NVIDIA_ENV.name {
        foundNvidiaEnv := true;
      }
    }
    envs := env;
    if !foundNvidiaEnv {
      envs := envs + [NVIDIA_ENV];
    }
  }
}
