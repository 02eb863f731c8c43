/** The five compiled objects refer to each other by string keys; these are the laws that make the references hold. */
module CrossObject {
  import opened Options
  import opened KeyOrder
  import opened KeyLoops
  import opened Bundle
  import opened BaseInheritance
  import opened GoSlices
  import opened ConfigMounts
  import opened DeploymentCompiler
  import opened ConfigMapCompiler
  import opened ExternalSecretCompiler
  import opened ServiceCompiler
  import opened IngressCompiler
  import opened ClaimCompiler

  // ----- Mount integrity -----

  ghost predicate NamesVolume(ab: AppBundle, m: VolumeMount) {
    exists v :: v in PodVolumes(ab) && v.name == m.name
  }

  lemma BaseMountNamesVolume(ab: AppBundle, m: VolumeMount)
    requires m in BaseMounts(ab)
    ensures NamesVolume(ab, m)
  {
    var volumes := Entries(ab.spec.volumes);
    MapSortedAt(volumes, MountOf, m);
    var k :| k in volumes && m == MountOf(k, volumes[k]);
    var item := (k, v) => VolumeOf(ab.name, k, v);
    MapSortedAt(volumes, item, VolumeOf(ab.name, k, volumes[k]));
    assert VolumeOf(ab.name, k, volumes[k]) in PodVolumes(ab);
  }

  lemma StepMountNamesVolume(ab: AppBundle, s: Step)
    requires s in Steps(ab)
    ensures NamesVolume(ab, s.mount)
  {
    var configs := Entries(ab.spec.configs);
    MapSortedAt(configs, StepOf, s);
    var k :| k in configs && s == StepOf(k, configs[k]);
    var item := (k, c) => ConfigVolumeOf(ab.name, k, c);
    MapSortedAt(configs, item, ConfigVolumeOf(ab.name, k, configs[k]));
    assert ConfigVolumeOf(ab.name, k, configs[k]) in PodVolumes(ab);
  }

  /** Every mount of the main container names a volume of the pod spec. */
  lemma MainMountsNameVolumes(ab: AppBundle, m: VolumeMount)
    requires Dereferenceable(ab) && m in ExpectedContainer(ab).mounts
    ensures NamesVolume(ab, m)
  {
    var steps := Steps(ab);
    MountsComeFromSteps(BaseMounts(ab), steps, |steps|, m);
    if m in BaseMounts(ab) {
      BaseMountNamesVolume(ab, m);
    } else {
      var j :| 0 <= j < |steps| && m == steps[j].mount;
      StepMountNamesVolume(ab, steps[j]);
    }
  }

  /** So does every mount of every init container, even after its last slot has been overwritten. */
  lemma InitMountsNameVolumes(ab: AppBundle, grow: nat -> nat, c: InitContainer, m: VolumeMount)
    requires c in InitContainers(ab, grow) && m in c.mounts
    ensures NamesVolume(ab, m)
  {
    var steps := Steps(ab);
    var inits := Inits(BaseMounts(ab), steps, grow);
    var t :| 0 <= t < |inits| && c == CopyContainer(inits[t], ConfigAt(Entries(ab.spec.configs), inits[t].key));
    var i := CopyOverSteps(steps, |steps|)[t];
    InitMountsComeFromSteps(BaseMounts(ab), steps, i, grow, m);
    if m in BaseMounts(ab) {
      BaseMountNamesVolume(ab, m);
    } else {
      var j :| 0 <= j < |steps| && m == steps[j].mount;
      StepMountNamesVolume(ab, steps[j]);
    }
  }

  /** Config mounts differ by volume name, so the slot theorem of the config loop applies to every bundle. */
  lemma StepsAreDistinct(ab: AppBundle)
    ensures DistinctMounts(Steps(ab))
  {
    var configs := Entries(ab.spec.configs);
    var keys := SortedKeys(configs.Keys);
    forall i, j | 0 <= i < j < |keys| ensures Steps(ab)[i].mount != Steps(ab)[j].mount {
      assert keys[i] in configs.Keys && keys[j] in configs.Keys;
      VolumeNameTellsKey(keys[i], configs[keys[i]]);
      VolumeNameTellsKey(keys[j], configs[keys[j]]);
      assert Steps(ab)[i] == StepOf(keys[i], configs[keys[i]]) && Steps(ab)[j] == StepOf(keys[j], configs[keys[j]]);
    }
  }

  function KeyOfVolumeName(name: string): string {
    if |name| >= 4 && name[0] == 's' then name[4..] else if |name| >= 3 then name[3..] else name
  }

  lemma VolumeNameTellsKey(key: string, c: Config)
    ensures KeyOfVolumeName(ConfigVolumeName(key, c)) == key
  {
  }

  /** The slot theorem for a bundle: which copy-over containers keep their own temporary mount. */
  lemma CopyOverKeepsMountIff(ab: AppBundle, grow: nat -> nat, i: nat)
    requires i < |Steps(ab)| && Steps(ab)[i].copyOver
    ensures var steps := Steps(ab);
      var mounts := InitMounts(BaseMounts(ab), steps, i, |steps|, grow);
      && mounts != [] && mounts[..|mounts| - 1] == MainMounts(BaseMounts(ab), steps, i)
      && (mounts[|mounts| - 1] == steps[i].mount <==>
            AtCapacity(BaseMounts(ab), steps, i, grow) || i == |steps| - 1)
  {
    StepsAreDistinct(ab);
    KeepsOwnMountIff(BaseMounts(ab), Steps(ab), i, grow);
  }

  function Doubling(capacity: nat): nat {
    if capacity == 0 then 1 else 2 * capacity
  }

  function PathOnly(path: string): Volume {
    Volume(None, Some(true), Some(path), None, None, None, None)
  }

  const THREE_VOLUMES := map["u" := PathOnly("/u"), "v" := PathOnly("/v"), "w" := PathOnly("/w")]

  const COPY_AND_DIRECT := map[
    "a" := Config("a", "", None, map[], "/d", Some(true)),
    "b" := Config("b", "", None, map[], "/d", None)]

  const OVERWRITING := AppBundle("AppBundle", "web", "apps", None, None,
    EMPTY_SPEC.(volumes := Some(THREE_VOLUMES), configs := Some(COPY_AND_DIRECT)))

  lemma SortedLiterals()
    ensures SortedKeys(THREE_VOLUMES.Keys) == ["u", "v", "w"]
    ensures SortedKeys(COPY_AND_DIRECT.Keys) == ["a", "b"]
  {
    assert IsSortedEnumeration(["u", "v", "w"], THREE_VOLUMES.Keys) by {
      assert THREE_VOLUMES.Keys == {"u", "v", "w"};
      assert Before("u", "v") && Before("v", "w") && Before("u", "w");
    }
    SortedEnumerationUnique(SortedKeys(THREE_VOLUMES.Keys), ["u", "v", "w"], THREE_VOLUMES.Keys);
    assert IsSortedEnumeration(["a", "b"], COPY_AND_DIRECT.Keys) by {
      assert COPY_AND_DIRECT.Keys == {"a", "b"};
      assert Before("a", "b");
    }
    SortedEnumerationUnique(SortedKeys(COPY_AND_DIRECT.Keys), ["a", "b"], COPY_AND_DIRECT.Keys);
  }

  /**
   A bundle that loses a mount.  With doubling growth its three volumes leave one
   spare slot, and the init container that should copy config a mounts config b.
   */
  lemma OverwrittenMount()
    ensures var inits := InitContainers(OVERWRITING, Doubling);
      && |inits| == 1 && inits[0].name == "copy-over-a"
      && |inits[0].mounts| == 4 && inits[0].mounts[3].name == "cm-b"
  {
    SortedLiterals();
    var base, steps := BaseMounts(OVERWRITING), Steps(OVERWRITING);
    MapSortedItem(COPY_AND_DIRECT, StepOf, 0);
    MapSortedItem(COPY_AND_DIRECT, StepOf, 1);
    assert |base| == 3 && |steps| == 2;
    assert steps[0] == StepOf("a", COPY_AND_DIRECT["a"]) && steps[1] == StepOf("b", COPY_AND_DIRECT["b"]);
    OneCopy(base, steps);
  }

  lemma OneCopy(base: seq<VolumeMount>, steps: seq<Step>)
    requires |base| == 3 && |steps| == 2 && steps[0].copyOver && !steps[1].copyOver
    ensures Inits(base, steps, Doubling) == [Init(steps[0].key, base + [steps[1].mount])]
  {
    assert Capacity(1, Doubling) == 1 && Capacity(2, Doubling) == 2 && Capacity(3, Doubling) == 4;
    assert MainMounts(base, steps, 0) == base;
    assert CopyOverSteps(steps, 1) == CopyOverSteps(steps, 0) + [0] == [0];
    assert CopyOverSteps(steps, 2) == [0];
    assert Writer(steps, 0, 2) == 1;
  }

  // ----- Names of pod volumes -----

  ghost predicate VolumeNamesDistinct(ab: AppBundle) {
    forall i, j :: 0 <= i < j < |PodVolumes(ab)| ==> PodVolumes(ab)[i].name != PodVolumes(ab)[j].name
  }

  /** No two volumes, and no volume and config, give one pod volume name. */
  predicate VolumeNamesApart(volumes: map<string, Volume>, configs: map<string, Config>) {
    && (forall j, k :: j in volumes && k in volumes && j != k ==>
      VolumeName(j, volumes[j]) != VolumeName(k, volumes[k]))
    && (forall j, k :: j in volumes && k in configs ==> VolumeName(j, volumes[j]) != ConfigVolumeName(k, configs[k]))
  }

  lemma VolumeItem(ab: AppBundle, i: nat)
    requires i < |SortedKeys(Entries(ab.spec.volumes).Keys)|
    ensures var k := SortedKeys(Entries(ab.spec.volumes).Keys)[i];
      && k in Entries(ab.spec.volumes) && i < |PodVolumes(ab)|
      && PodVolumes(ab)[i] == VolumeOf(ab.name, k, Entries(ab.spec.volumes)[k])
  {
    MapSortedItem(Entries(ab.spec.volumes), (k, v) => VolumeOf(ab.name, k, v), i);
  }

  lemma ConfigItem(ab: AppBundle, i: nat)
    requires i < |SortedKeys(Entries(ab.spec.configs).Keys)|
    ensures var k := SortedKeys(Entries(ab.spec.configs).Keys)[i];
      var n := |SortedKeys(Entries(ab.spec.volumes).Keys)|;
      && k in Entries(ab.spec.configs) && n + i < |PodVolumes(ab)|
      && PodVolumes(ab)[n + i] == ConfigVolumeOf(ab.name, k, Entries(ab.spec.configs)[k])
  {
    MapSortedItem(Entries(ab.spec.configs), (k, c) => ConfigVolumeOf(ab.name, k, c), i);
  }

  /** Where in the pod spec the volumes of two keys stand. */
  lemma IndexOf(key: string, keys: set<string>) returns (i: nat)
    requires key in keys
    ensures i < |SortedKeys(keys)| && SortedKeys(keys)[i] == key
  {
    i :| i < |SortedKeys(keys)| && SortedKeys(keys)[i] == key;
  }

  /** Pod volume names are distinct exactly when the names that volumes and configs give are. */
  lemma VolumeNamesDistinctIff(ab: AppBundle)
    ensures VolumeNamesDistinct(ab) <==> VolumeNamesApart(Entries(ab.spec.volumes), Entries(ab.spec.configs))
  {
    if VolumeNamesDistinct(ab) {
      DistinctIsApart(ab);
    }
    if VolumeNamesApart(Entries(ab.spec.volumes), Entries(ab.spec.configs)) {
      ApartIsDistinct(ab);
    }
  }

  lemma DistinctIsApart(ab: AppBundle)
    requires VolumeNamesDistinct(ab)
    ensures VolumeNamesApart(Entries(ab.spec.volumes), Entries(ab.spec.configs))
  {
    var volumes, configs := Entries(ab.spec.volumes), Entries(ab.spec.configs);
    forall j, k | j in volumes && k in volumes && j != k
      ensures VolumeName(j, volumes[j]) != VolumeName(k, volumes[k]) {
      var i := IndexOf(j, volumes.Keys);
      var i' := IndexOf(k, volumes.Keys);
      VolumeItem(ab, i);
      VolumeItem(ab, i');
    }
    forall j, k | j in volumes && k in configs ensures VolumeName(j, volumes[j]) != ConfigVolumeName(k, configs[k]) {
      var i := IndexOf(j, volumes.Keys);
      var i' := IndexOf(k, configs.Keys);
      VolumeItem(ab, i);
      ConfigItem(ab, i');
    }
  }

  lemma ApartIsDistinct(ab: AppBundle)
    requires VolumeNamesApart(Entries(ab.spec.volumes), Entries(ab.spec.configs))
    ensures VolumeNamesDistinct(ab)
  {
    forall i, j | 0 <= i < j < |PodVolumes(ab)| ensures PodVolumes(ab)[i].name != PodVolumes(ab)[j].name {
      TwoItemsApart(ab, i, j);
    }
  }

  lemma TwoItemsApart(ab: AppBundle, i: nat, j: nat)
    requires VolumeNamesApart(Entries(ab.spec.volumes), Entries(ab.spec.configs))
    requires i < j < |PodVolumes(ab)|
    ensures PodVolumes(ab)[i].name != PodVolumes(ab)[j].name
  {
    var n := |SortedKeys(Entries(ab.spec.volumes).Keys)|;
    if j < n {
      VolumeItem(ab, i);
      VolumeItem(ab, j);
    } else if i < n {
      VolumeItem(ab, i);
      ConfigItem(ab, j - n);
    } else {
      TwoConfigsApart(ab, i - n, j - n);
    }
  }

  lemma TwoConfigsApart(ab: AppBundle, i: nat, j: nat)
    requires i < j < |SortedKeys(Entries(ab.spec.configs).Keys)|
    ensures var n := |SortedKeys(Entries(ab.spec.volumes).Keys)|;
      n + j < |PodVolumes(ab)| && PodVolumes(ab)[n + i].name != PodVolumes(ab)[n + j].name
  {
    var configs := Entries(ab.spec.configs);
    var k, l := SortedKeys(configs.Keys)[i], SortedKeys(configs.Keys)[j];
    ConfigItem(ab, i);
    ConfigItem(ab, j);
    VolumeNameTellsKey(k, configs[k]);
    VolumeNameTellsKey(l, configs[l]);
  }

  /** With distinct names a config's mount is served by the config's own source. */
  lemma MountedSource(ab: AppBundle, key: string, v: PodVolume)
    requires VolumeNamesDistinct(ab) && key in Entries(ab.spec.configs) && v in PodVolumes(ab)
    requires v.name == ConfigVolumeName(key, Entries(ab.spec.configs)[key])
    ensures v == ConfigVolumeOf(ab.name, key, Entries(ab.spec.configs)[key])
  {
    var i := IndexOf(key, Entries(ab.spec.configs).Keys);
    ConfigItem(ab, i);
  }

  // ----- ConfigMap keys -----

  /** A pod volume that mounts one key of the ConfigMap named after the bundle. */
  ghost predicate MountsOwnKey(ab: AppBundle, key: string) {
    exists v :: v in PodVolumes(ab) && v.source.ConfigMapSource? && v.source.configMap == ab.name && v.source.key == key
  }

  lemma OwnKeyVolume(ab: AppBundle, key: string)
    ensures MountsOwnKey(ab, key) <==>
      && key in Entries(ab.spec.configs)
      && var c := Entries(ab.spec.configs)[key]; Generated(c) || c.existing == Some(ab.name)
  {
    var volumes, configs := Entries(ab.spec.volumes), Entries(ab.spec.configs);
    var vitem, citem := (k, v) => VolumeOf(ab.name, k, v), (k, c) => ConfigVolumeOf(ab.name, k, c);
    if MountsOwnKey(ab, key) {
      var v :| v in PodVolumes(ab) && v.source.ConfigMapSource? && v.source.configMap == ab.name && v.source.key == key;
      MapSortedAt(volumes, vitem, v);
      MapSortedAt(configs, citem, v);
    }
    if key in configs && (Generated(configs[key]) || configs[key].existing == Some(ab.name)) {
      var v := ConfigVolumeOf(ab.name, key, configs[key]);
      MapSortedAt(configs, citem, v);
      assert v in PodVolumes(ab);
    }
  }

  function OwnKeys(ab: AppBundle): set<string> {
    if ExpectedConfigMap(ab).Some? then ExpectedConfigMap(ab).value.Keys else {}
  }

  /** The generated keys the Deployment mounts are exactly the keys of the expected ConfigMap, which
      is nil iff there are none. */
  lemma GeneratedKeysAgree(ab: AppBundle)
    ensures forall key :: key in OwnKeys(ab) <==>
      MountsOwnKey(ab, key) && key in Entries(ab.spec.configs) && Generated(Entries(ab.spec.configs)[key])
    ensures ExpectedConfigMap(ab) == None <==>
      !exists key :: key in Entries(ab.spec.configs) && Generated(Entries(ab.spec.configs)[key])
  {
    var configs := Entries(ab.spec.configs);
    forall key ensures key in OwnKeys(ab) <==> MountsOwnKey(ab, key) && key in configs && Generated(configs[key]) {
      OwnKeyVolume(ab, key);
      assert key in ConfigMapData(configs) <==> key in configs && Generated(configs[key]);
    }
    if exists key :: key in configs && Generated(configs[key]) {
      var key :| key in configs && Generated(configs[key]);
      assert key in ConfigMapData(configs);
    }
    if ExpectedConfigMap(ab).Some? {
      var key :| key in ConfigMapData(configs);
    }
  }

  /**
   Without the word "generated" the agreement can fail: a config may name the
   bundle's own ConfigMap as an existing one, and its key is then mounted but
   never written.  That is the only way.
   */
  lemma EveryMountedKeyWrittenIff(ab: AppBundle)
    ensures (forall key :: MountsOwnKey(ab, key) ==> key in OwnKeys(ab))
       <==> (forall k :: k in Entries(ab.spec.configs) ==> Entries(ab.spec.configs)[k].existing != Some(ab.name))
  {
    var configs := Entries(ab.spec.configs);
    forall key ensures MountsOwnKey(ab, key) <==>
      key in configs && (Generated(configs[key]) || configs[key].existing == Some(ab.name))
    {
      OwnKeyVolume(ab, key);
    }
    GeneratedKeysAgree(ab);
    if k :| k in configs && configs[k].existing == Some(ab.name) {
      assert MountsOwnKey(ab, k) && k !in OwnKeys(ab);
    }
  }

  // ----- Secret keys -----

  /** A variable that is served from the bundle's own secret. */
  predicate FromOwnSecret(ab: AppBundle, name: string) {
    && name in Entries(ab.spec.sourcedEnvs)
    && var s := Entries(ab.spec.sourcedEnvs)[name]; s.externalSecret != "" && s.secret == "" && s.configMap == ""
  }

  ghost predicate UsesConfigKey(ab: AppBundle, key: string) {
    exists v :: v in PodVolumes(ab) && v.source.SecretSource? && v.source.secretName == ab.name && v.source.key == key
  }

  /** Every secret key the Deployment generates is a template key of the ExternalSecret, whatever
      order it was compiled in. */
  lemma SecretKeysAreTemplated(ab: AppBundle, order: seq<string>)
    requires Enumerates(order, Entries(ab.spec.configs).Keys) && ab.spec.secretStoreRef.Some?
    ensures forall name :: FromOwnSecret(ab, name) ==> exists v :: v in Envs(ab) && v.name == name && !v.PlainEnv?
    ensures forall v :: v in Envs(ab) && !v.PlainEnv? && FromOwnSecret(ab, v.name) ==>
      && v.SecretEnv? && SecretFor(ab, order).Ok? && SecretFor(ab, order).value.Some?
      && TemplatesKey(SecretFor(ab, order).value.value, v.secretName, v.key, "{{ ." + v.name + " }}")
    ensures forall key :: UsesConfigKey(ab, key) ==>
      && SecretFor(ab, order).Ok? && SecretFor(ab, order).value.Some?
      && key in SecretFor(ab, order).value.value.templates
  {
    forall name | FromOwnSecret(ab, name) ensures exists v :: v in Envs(ab) && v.name == name && !v.PlainEnv? {
      SourcedEntry(ab, name);
    }
    forall v | v in Envs(ab) && !v.PlainEnv? && FromOwnSecret(ab, v.name)
      ensures v.SecretEnv? && SecretFor(ab, order).Ok? && SecretFor(ab, order).value.Some?
      ensures TemplatesKey(SecretFor(ab, order).value.value, v.secretName, v.key, "{{ ." + v.name + " }}")
    {
      SourcedEntry(ab, v.name);
      assert v.name in SecretsToGet(ab, order);
      EnvKeyTemplated(ab, v.name);
    }
    forall key | UsesConfigKey(ab, key)
      ensures SecretFor(ab, order).Ok? && SecretFor(ab, order).value.Some?
      ensures key in SecretFor(ab, order).value.value.templates
    {
      var c := ConfigBehindKey(ab, key);
      var secret :| secret in Entries(ab.spec.configs)[c].secrets;
      ConfigBeatsEnv(ab, order, c, secret);
      SuffixedMember("cfg", TemplatedConfigs(ab), c);
    }
  }

  /** The secret that e writes has the given name, and the key a template with the given text. */
  predicate TemplatesKey(e: ExternalSecret, secretName: string, key: string, text: string) {
    secretName == e.target && key in e.templates && e.templates[key] == text
  }

  /** The one entry of a sourced variable. */
  lemma SourcedEntry(ab: AppBundle, name: string)
    requires name in Entries(ab.spec.sourcedEnvs)
    ensures var own := SourcedEnvOf(ab.name, name, Entries(ab.spec.sourcedEnvs)[name]);
      own in Envs(ab) && forall v :: v in Envs(ab) && !v.PlainEnv? && v.name == name ==> v == own
  {
    var plain, sourced := Entries(ab.spec.envs), Entries(ab.spec.sourcedEnvs);
    var item := (k, e) => SourcedEnvOf(ab.name, k, e);
    MapSortedAt(sourced, item, SourcedEnvOf(ab.name, name, sourced[name]));
    forall v | v in Envs(ab) && !v.PlainEnv? && v.name == name ensures v == SourcedEnvOf(ab.name, name, sourced[name]) {
      MapSortedAt(plain, PlainEnvOf, v);
      MapSortedAt(sourced, item, v);
    }
  }

  lemma EnvKeyTemplated(ab: AppBundle, name: string)
    requires FromOwnSecret(ab, name)
    ensures "env" + name in Templates(ab) && Templates(ab)["env" + name] == "{{ ." + name + " }}"
  {
    SuffixedMember("env", TemplatedEnvs(ab), name);
    assert ("env" + name)[..3] == "env" && ("env" + name)[3..] == name;
    PrefixesApart(ab, "env" + name);
  }

  lemma ConfigBehindKey(ab: AppBundle, key: string) returns (c: string)
    requires UsesConfigKey(ab, key)
    ensures c in Entries(ab.spec.configs) && Entries(ab.spec.configs)[c].secrets != map[] && key == "cfg" + c
    ensures exists s :: s in Entries(ab.spec.configs)[c].secrets
  {
    var volumes, configs := Entries(ab.spec.volumes), Entries(ab.spec.configs);
    var vitem, citem := (k, v) => VolumeOf(ab.name, k, v), (k, c) => ConfigVolumeOf(ab.name, k, c);
    var v :| v in PodVolumes(ab) && v.source.SecretSource? && v.source.secretName == ab.name && v.source.key == key;
    MapSortedAt(volumes, vitem, v);
    MapSortedAt(configs, citem, v);
    c :| c in configs && v == ConfigVolumeOf(ab.name, c, configs[c]);
    assert configs[c].secrets.Keys != {};
  }

  /** Every environment template refers to a variable that the data section fetches. */
  lemma EnvTemplatesHaveData(ab: AppBundle, order: seq<string>, name: string)
    requires Enumerates(order, Entries(ab.spec.configs).Keys)
    requires SecretFor(ab, order).Ok? && SecretFor(ab, order).value.Some?
    requires "env" + name in SecretFor(ab, order).value.value.templates
    ensures var e := SecretFor(ab, order).value.value;
      exists d :: d in e.data && d.secretKey == name && e.templates["env" + name] == "{{ ." + d.secretKey + " }}"
  {
    PrefixesApart(ab, "env" + name);
    assert ("env" + name)[..3] == "env" && ("env" + name)[3..] == name;
    var secrets := SecretsToGet(ab, order);
    assert name in secrets;
    MapSortedAt(secrets, SecretDataOf, SecretData(name, secrets[name]));
  }

  // ----- The shared bundle -----

  /**
   The default is invisible: no compiler gives a different answer after the
   service reconciler has written it, so the five siblings that read the same
   bundle while it runs cannot tell, and neither can its own next pass.
   */
  lemma ServiceTypeInvisible(ab: AppBundle, data: GeneratedServiceSpecData, grow: nat -> nat)
    ensures ExpectedServiceSpec(WithServiceType(ab), data) == ExpectedServiceSpec(ab, data)
    ensures Dereferenceable(WithServiceType(ab)) == Dereferenceable(ab)
    ensures Dereferenceable(ab) ==> ExpectedDeployment(WithServiceType(ab), grow) == ExpectedDeployment(ab, grow)
    ensures DefaultLabels(WithServiceType(ab)) == DefaultLabels(ab)
  {
    var b := WithServiceType(ab);
    if Dereferenceable(ab) {
      assert PodVolumes(b) == PodVolumes(ab);
      assert InitContainers(b, grow) == InitContainers(ab, grow);
      assert ExpectedContainer(b) == ExpectedContainer(ab);
    }
  }

  lemma ServiceTypeInvisibleElsewhere(ab: AppBundle)
    ensures ExpectedConfigMap(WithServiceType(ab)) == ExpectedConfigMap(ab)
    ensures forall order :: (forall k :: k in order ==> k in Entries(ab.spec.configs)) ==>
      SecretFor(WithServiceType(ab), order) == SecretFor(ab, order)
    ensures forall name, route :: WantsIngress(route) && IngressDereferenceable(route) ==>
      ExpectedIngress(WithServiceType(ab), name, route) == ExpectedIngress(ab, name, route)
    ensures forall v :: ClaimLabels(WithServiceType(ab), v) == ClaimLabels(ab, v)
  {
    var b := WithServiceType(ab);
    forall order | forall k :: k in order ==> k in Entries(ab.spec.configs)
      ensures SecretFor(b, order) == SecretFor(ab, order)
    {
      assert SecretsToGet(b, order) == SecretsToGet(ab, order);
      PartsAreTemplates(ab);
      PartsAreTemplates(b);
    }
  }
}
