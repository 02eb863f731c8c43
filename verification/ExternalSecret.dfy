/**
 CreateExpectedExternalSecret.

 The secrets to fetch are gathered by ranging over Go maps, so the order in
 which configs are visited is arbitrary.  The bindings are last-write-wins: two
 configs that bind one secret key to different remotes make the result depend on
 that order, and nothing else does.
 */
module ExternalSecretCompiler {
  import opened Options
  import opened KeyOrder
  import opened KeyLoops
  import opened Bundle
  import opened DeepDerivative
  import opened DeploymentCompiler

  datatype SecretData = SecretData(secretKey: string, remoteKey: string)

  datatype ExternalSecret = ExternalSecret(
    store: string,
    data: seq<SecretData>,
    target: string,
    templates: map<string, string>)

  // ----- Gathering the bindings -----

  function EnvBindings(envs: map<string, SourcedEnv>): map<string, string> {
    map k | k in envs && envs[k].externalSecret != "" :: envs[k].externalSecret
  }

  /** Configs visited in the given order, each overwriting the bindings before it. */
  function Bind(configs: map<string, Config>, order: seq<string>): map<string, string>
    requires forall k :: k in order ==> k in configs
  {
    if order == [] then map[]
    else Bind(configs, order[..|order| - 1]) + configs[order[|order| - 1]].secrets
  }

  function SecretsToGet(ab: AppBundle, order: seq<string>): map<string, string>
    requires forall k :: k in order ==> k in Entries(ab.spec.configs)
  {
    EnvBindings(Entries(ab.spec.sourcedEnvs)) + Bind(Entries(ab.spec.configs), order)
  }

  // ----- Templates -----

  function Suffixed(prefix: string, keys: set<string>): set<string> {
    set k | k in keys :: prefix + k
  }

  function TemplatedEnvs(ab: AppBundle): set<string> {
    EnvBindings(Entries(ab.spec.sourcedEnvs)).Keys
  }

  function TemplatedConfigs(ab: AppBundle): set<string> {
    WithSecrets(Entries(ab.spec.configs))
  }

  function WithSecrets(configs: map<string, Config>): set<string> {
    set k | k in configs && configs[k].secrets != map[]
  }

  function TemplateKeys(ab: AppBundle): set<string> {
    Suffixed("env", TemplatedEnvs(ab)) + Suffixed("cfg", TemplatedConfigs(ab))
  }

  function EnvTemplate(key: string): string {
    "{{ ." + key + " }}"
  }

  function TemplateText(ab: AppBundle, t: string): string
    requires t in TemplateKeys(ab)
  {
    PrefixesApart(ab, t);
    if t[..3] == "env" then EnvTemplate(t[3..]) else Entries(ab.spec.configs)[t[3..]].content
  }

  function Templates(ab: AppBundle): map<string, string> {
    map t | t in TemplateKeys(ab) :: TemplateText(ab, t)
  }

  /** The two prefixes never collide: a template key determines which kind it is and for which name. */
  lemma PrefixesApart(ab: AppBundle, t: string)
    requires t in TemplateKeys(ab)
    ensures |t| >= 3
    ensures t[..3] == "env" <==> t in Suffixed("env", TemplatedEnvs(ab))
    ensures t[..3] == "env" ==> t[3..] in TemplatedEnvs(ab)
    ensures t[..3] != "env" ==> t[..3] == "cfg" && t[3..] in TemplatedConfigs(ab)
  {
    if t in Suffixed("env", TemplatedEnvs(ab)) {
      var k :| k in TemplatedEnvs(ab) && t == "env" + k;
      assert t[3..] == k;
    } else {
      var k :| k in TemplatedConfigs(ab) && t == "cfg" + k;
      assert t[3..] == k && t[0] == 'c';
    }
  }

  lemma SuffixedMember(prefix: string, keys: set<string>, k: string)
    ensures prefix + k in Suffixed(prefix, keys) <==> k in keys
  {
    if prefix + k in Suffixed(prefix, keys) {
      var j :| j in keys && prefix + k == prefix + j;
      assert (prefix + k)[|prefix|..] == k && (prefix + j)[|prefix|..] == j;
    }
  }

  // ----- The expected ExternalSecret -----

  ghost function SecretFor(ab: AppBundle, order: seq<string>): Result<Option<ExternalSecret>, CompileError>
    requires forall k :: k in order ==> k in Entries(ab.spec.configs)
  {
    var secrets := SecretsToGet(ab, order);
    if secrets == map[] then Ok(None)
    else if ab.spec.secretStoreRef == None then Failure(NoSecretStore)
    else Ok(Some(ExternalSecret(
      ab.spec.secretStoreRef.value, MapSorted(secrets, SecretDataOf), ab.name, Templates(ab))))
  }

  function SecretDataOf(key: string, remote: string): SecretData {
    SecretData(key, remote)
  }

  /** No two configs bind one secret key to different remotes. */
  predicate NoConflict(configs: map<string, Config>) {
    forall a, b, k :: a in configs && b in configs && k in configs[a].secrets && k in configs[b].secrets
      ==> configs[a].secrets[k] == configs[b].secrets[k]
  }

  /** The compiler.  order is the one in which the runtime happens to range over the configs. */
  method CreateExpectedExternalSecret(ab: AppBundle, order: seq<string>)
    returns (r: Result<Option<ExternalSecret>, CompileError>)
    requires Enumerates(order, Entries(ab.spec.configs).Keys)
    ensures r == SecretFor(ab, order)
  {
    var secretsToGet := GatherAll(Entries(ab.spec.sourcedEnvs), Entries(ab.spec.configs), order);
    if secretsToGet == map[] {
      return Ok(None);
    }
    if ab.spec.secretStoreRef == None {
      return Failure(NoSecretStore);
    }
    var data := AppendPerKey(secretsToGet, SecretDataOf);
    var templates := FillEnvTemplates(Entries(ab.spec.sourcedEnvs));
    templates := FillConfigTemplates(Entries(ab.spec.configs), templates);
    PartsAreTemplates(ab);
    return Ok(Some(ExternalSecret(ab.spec.secretStoreRef.value, data, ab.name, templates)));
  }

  /** The two gathering loops over maps. */
  method GatherAll(envs: map<string, SourcedEnv>, configs: map<string, Config>, order: seq<string>)
    returns (secretsToGet: map<string, string>)
    requires Enumerates(order, configs.Keys)
    ensures secretsToGet == EnvBindings(envs) + Bind(configs, order)
  {
    secretsToGet := GatherEnvs(envs);
    ghost var envBindings := secretsToGet;
    assert forall i :: 0 <= i < |order| ==> order[i] in order;
    for i := 0 to |order|
      invariant secretsToGet == envBindings + Bind(configs, order[..i])
    {
      assert order[i] in configs.Keys && order[..i + 1] == order[..i] + [order[i]];
      BindOneMore(configs, order[..i], order[i], envBindings);
      secretsToGet := GatherSecrets(configs[order[i]].secrets, secretsToGet);
    }
    assert order[..|order|] == order;
  }

  lemma BindOneMore(configs: map<string, Config>, order: seq<string>, key: string, initial: map<string, string>)
    requires key in configs && forall k :: k in order ==> k in configs
    ensures initial + Bind(configs, order + [key]) == (initial + Bind(configs, order)) + configs[key].secrets
  {
    assert (order + [key])[..|order|] == order;
  }

  method GatherEnvs(envs: map<string, SourcedEnv>) returns (secretsToGet: map<string, string>)
    ensures secretsToGet == EnvBindings(envs)
  {
    secretsToGet := map[];
    var rest := envs.Keys;
    while rest != {}
      invariant rest <= envs.Keys
      invariant secretsToGet == EnvBindings(envs - rest)
      decreases |rest|
    {
      var key :| key in rest;
      rest := rest - {key};
      if envs[key].externalSecret != "" {
        secretsToGet := secretsToGet[key := envs[key].externalSecret];
      }
    }
    assert envs - {} == envs;
  }

  method GatherSecrets(secrets: map<string, string>, initial: map<string, string>)
    returns (secretsToGet: map<string, string>)
    ensures secretsToGet == initial + secrets
  {
    secretsToGet := initial;
    var rest := secrets.Keys;
    NothingCopied(secrets, initial);
    while rest != {}
      invariant rest <= secrets.Keys
      invariant secretsToGet == CopiedBut(secrets, rest, initial)
      decreases |rest|
    {
      var key :| key in rest;
      OneMoreCopied(secrets, rest, key, initial);
      rest := rest - {key};
      secretsToGet := secretsToGet[key := secrets[key]];
    }
    AllCopied(secrets, initial);
  }

  /** The bindings when all of secrets but rest has been copied. */
  function CopiedBut(
    secrets: map<string, string>, rest: set<string>, initial: map<string, string>): map<string, string> {
    initial + (secrets - rest)
  }

  lemma NothingCopied(secrets: map<string, string>, initial: map<string, string>)
    ensures CopiedBut(secrets, secrets.Keys, initial) == initial
  {
  }

  lemma AllCopied(secrets: map<string, string>, initial: map<string, string>)
    ensures CopiedBut(secrets, {}, initial) == initial + secrets
  {
    assert secrets - {} == secrets;
  }

  lemma OneMoreCopied(secrets: map<string, string>, rest: set<string>, key: string, initial: map<string, string>)
    requires key in rest && rest <= secrets.Keys
    ensures CopiedBut(secrets, rest - {key}, initial) == CopiedBut(secrets, rest, initial)[key := secrets[key]]
  {
    assert secrets - (rest - {key}) == (secrets - rest)[key := secrets[key]];
  }

  method FillEnvTemplates(envs: map<string, SourcedEnv>) returns (templates: map<string, string>)
    ensures templates == EnvPart(EnvBindings(envs).Keys)
  {
    templates := map[];
    var keys := GetSortedKeys(envs);
    ghost var done: set<string> := {};
    for i := 0 to |keys|
      invariant done == Elements(keys[..i]) * EnvBindings(envs).Keys
      invariant templates == EnvPart(done)
    {
      NextKey(keys, envs.Keys, i);
      if envs[keys[i]].externalSecret != "" {
        EnvPartStep(done, keys[i]);
        templates := templates["env" + keys[i] := EnvTemplate(keys[i])];
        done := done + {keys[i]};
      }
    }
    AllKeys(keys, envs.Keys);
    assert done == EnvBindings(envs).Keys;
  }

  method FillConfigTemplates(configs: map<string, Config>, initial: map<string, string>)
    returns (templates: map<string, string>)
    ensures templates == initial + ConfigPart(configs, WithSecrets(configs))
  {
    templates := initial;
    NothingTemplated(configs, initial);
    var rest := configs.Keys;
    while rest != {}
      invariant rest <= configs.Keys
      invariant templates == initial + ConfigPart(configs, WithSecrets(configs) - rest)
      decreases |rest|
    {
      var key :| key in rest;
      OneMoreTemplated(configs, rest, key, initial);
      rest := rest - {key};
      if configs[key].secrets != map[] {
        templates := templates["cfg" + key := configs[key].content];
      }
    }
    assert WithSecrets(configs) - {} == WithSecrets(configs);
  }

  lemma NothingTemplated(configs: map<string, Config>, initial: map<string, string>)
    ensures initial + ConfigPart(configs, WithSecrets(configs) - configs.Keys) == initial
  {
    assert WithSecrets(configs) - configs.Keys == {};
  }

  lemma OneMoreTemplated(configs: map<string, Config>, rest: set<string>, key: string, initial: map<string, string>)
    requires key in rest && rest <= configs.Keys
    ensures var before, after := WithSecrets(configs) - rest, WithSecrets(configs) - (rest - {key});
      initial + ConfigPart(configs, after) ==
      if configs[key].secrets != map[]
      then (initial + ConfigPart(configs, before))["cfg" + key := configs[key].content]
      else initial + ConfigPart(configs, before)
  {
    var before, after := WithSecrets(configs) - rest, WithSecrets(configs) - (rest - {key});
    if configs[key].secrets != map[] {
      assert after == before + {key};
      ConfigPartStep(configs, before, key, initial);
    } else {
      assert after == before;
    }
  }

  ghost function EnvPart(keys: set<string>): map<string, string> {
    map t | t in Suffixed("env", keys) :: EnvTemplate(if |t| >= 3 then t[3..] else t)
  }

  ghost function ConfigPart(configs: map<string, Config>, keys: set<string>): map<string, string> {
    map t | t in Suffixed("cfg", keys) :: ConfigText(configs, t)
  }

  function ConfigText(configs: map<string, Config>, t: string): string {
    if |t| >= 3 && t[3..] in configs then configs[t[3..]].content else ""
  }

  lemma EnvPartStep(done: set<string>, key: string)
    ensures EnvPart(done + {key}) == EnvPart(done)["env" + key := EnvTemplate(key)]
  {
    assert ("env" + key)[3..] == key;
    assert Suffixed("env", done + {key}) == Suffixed("env", done) + {"env" + key};
  }

  lemma ConfigPartStep(configs: map<string, Config>, done: set<string>, key: string, initial: map<string, string>)
    requires key in configs
    ensures initial + ConfigPart(configs, done + {key})
         == (initial + ConfigPart(configs, done))["cfg" + key := configs[key].content]
  {
    assert ("cfg" + key)[3..] == key;
    assert Suffixed("cfg", done + {key}) == Suffixed("cfg", done) + {"cfg" + key};
    assert ConfigPart(configs, done + {key}) == ConfigPart(configs, done)["cfg" + key := configs[key].content];
  }

  lemma PartsAreTemplates(ab: AppBundle)
    ensures EnvPart(TemplatedEnvs(ab)) + ConfigPart(Entries(ab.spec.configs), TemplatedConfigs(ab)) == Templates(ab)
  {
    var parts := EnvPart(TemplatedEnvs(ab)) + ConfigPart(Entries(ab.spec.configs), TemplatedConfigs(ab));
    assert parts.Keys == TemplateKeys(ab) == Templates(ab).Keys;
    forall t | t in TemplateKeys(ab) ensures parts[t] == Templates(ab)[t] {
      PartIsTemplate(ab, t);
    }
  }

  lemma PartIsTemplate(ab: AppBundle, t: string)
    requires t in TemplateKeys(ab)
    ensures var parts := EnvPart(TemplatedEnvs(ab)) + ConfigPart(Entries(ab.spec.configs), TemplatedConfigs(ab));
      t in parts && parts[t] == Templates(ab)[t]
  {
    PrefixesApart(ab, t);
    if t in Suffixed("cfg", TemplatedConfigs(ab)) {
      CfgStartsWithC(TemplatedConfigs(ab), t);
    }
  }

  lemma CfgStartsWithC(keys: set<string>, t: string)
    requires t in Suffixed("cfg", keys)
    ensures |t| >= 3 && t[0] == 'c' && t[3..] in keys
  {
    var k :| k in keys && t == "cfg" + k;
    assert t[3..] == k;
  }

  // ----- Order independence -----

  /** A config binding always beats a SourcedEnv binding of the same key. */
  lemma {:induction false} ConfigBeatsEnv(ab: AppBundle, order: seq<string>, a: string, k: string)
    requires Enumerates(order, Entries(ab.spec.configs).Keys)
    requires a in Entries(ab.spec.configs) && k in Entries(ab.spec.configs)[a].secrets
    ensures k in SecretsToGet(ab, order)
    ensures exists b ::
      && b in Entries(ab.spec.configs) && k in Entries(ab.spec.configs)[b].secrets
      && SecretsToGet(ab, order)[k] == Entries(ab.spec.configs)[b].secrets[k]
  {
    BindMeaning(Entries(ab.spec.configs), order, k);
  }

  /** A key is bound exactly when some config of the order binds it. */
  lemma {:induction false} BindMeaning(configs: map<string, Config>, order: seq<string>, k: string)
    requires forall c :: c in order ==> c in configs
    ensures k in Bind(configs, order) <==> exists c :: c in order && k in configs[c].secrets
    ensures k in Bind(configs, order) ==>
      exists c :: c in order && k in configs[c].secrets && Bind(configs, order)[k] == configs[c].secrets[k]
  {
    if order != [] {
      var init, last := order[..|order| - 1], order[|order| - 1];
      BindMeaning(configs, init, k);
      assert order == init + [last];
    }
  }

  /** Of the configs that bind a key the last in range order decides. */
  lemma {:induction false} LastConfigDecides(configs: map<string, Config>, order: seq<string>, k: string)
    returns (i: nat)
    requires forall c :: c in order ==> c in configs
    requires k in Bind(configs, order)
    ensures i < |order| && k in configs[order[i]].secrets && Bind(configs, order)[k] == configs[order[i]].secrets[k]
    ensures forall j :: i < j < |order| ==> k !in configs[order[j]].secrets
    decreases |order|
  {
    var init, last := order[..|order| - 1], order[|order| - 1];
    if k in configs[last].secrets {
      i := |order| - 1;
    } else {
      i := LastConfigDecides(configs, init, k);
    }
  }

  /** It can be compiled exactly when there is a store or nothing to fetch, whatever the range order. */
  lemma SecretCompilesIff(ab: AppBundle, order: seq<string>)
    requires Enumerates(order, Entries(ab.spec.configs).Keys)
    ensures SecretFor(ab, order).Ok?
       <==> ab.spec.secretStoreRef.Some?
            || ((forall k :: k in Entries(ab.spec.sourcedEnvs) ==> Entries(ab.spec.sourcedEnvs)[k].externalSecret == "")
                && forall k :: k in Entries(ab.spec.configs) ==> Entries(ab.spec.configs)[k].secrets == map[])
  {
    var configs, envs := Entries(ab.spec.configs), Entries(ab.spec.sourcedEnvs);
    if c :| c in configs && configs[c].secrets != map[] {
      var k :| k in configs[c].secrets;
      BindMeaning(configs, order, k);
      assert k in SecretsToGet(ab, order);
    } else if k :| k in envs && envs[k].externalSecret != "" {
      assert k in SecretsToGet(ab, order);
    } else {
      forall k ensures k !in SecretsToGet(ab, order) {
        BindMeaning(configs, order, k);
      }
    }
  }

  lemma BindWithoutConflict(configs: map<string, Config>, order1: seq<string>, order2: seq<string>)
    requires NoConflict(configs)
    requires Enumerates(order1, configs.Keys) && Enumerates(order2, configs.Keys)
    ensures Bind(configs, order1) == Bind(configs, order2)
  {
    var b1, b2 := Bind(configs, order1), Bind(configs, order2);
    forall k ensures k in b1 <==> k in b2
      ensures k in b1 ==> b1[k] == b2[k]
    {
      BindMeaning(configs, order1, k);
      BindMeaning(configs, order2, k);
    }
    assert b1.Keys == b2.Keys;
  }

  /** There is an enumeration that ends with a given key. */
  lemma EndingWith(keys: set<string>, last: string) returns (order: seq<string>)
    requires last in keys
    ensures Enumerates(order, keys) && order != [] && order[|order| - 1] == last
  {
    order := ListOf(keys - {last});
    order := order + [last];
  }

  /**
   With a store set, the result is the same for all iteration orders exactly when
   no two configs bind the same secret key to different remotes.
   */
  lemma OrderIndependentIffNoConflict(ab: AppBundle)
    requires ab.spec.secretStoreRef.Some?
    ensures NoConflict(Entries(ab.spec.configs)) <==>
      forall order1, order2 ::
        Enumerates(order1, Entries(ab.spec.configs).Keys) && Enumerates(order2, Entries(ab.spec.configs).Keys)
        ==> SecretFor(ab, order1) == SecretFor(ab, order2)
  {
    var configs := Entries(ab.spec.configs);
    if NoConflict(configs) {
      forall order1, order2 | Enumerates(order1, configs.Keys) && Enumerates(order2, configs.Keys)
        ensures SecretFor(ab, order1) == SecretFor(ab, order2)
      {
        BindWithoutConflict(configs, order1, order2);
      }
    } else {
      var a, b, k :| a in configs && b in configs && k in configs[a].secrets && k in configs[b].secrets
        && configs[a].secrets[k] != configs[b].secrets[k];
      var order1, order2 := ConflictShows(ab, a, b, k);
    }
  }

  lemma ConflictShows(ab: AppBundle, a: string, b: string, k: string)
    returns (order1: seq<string>, order2: seq<string>)
    requires ab.spec.secretStoreRef.Some?
    requires var configs := Entries(ab.spec.configs);
      a in configs && b in configs && k in configs[a].secrets && k in configs[b].secrets
      && configs[a].secrets[k] != configs[b].secrets[k]
    ensures Enumerates(order1, Entries(ab.spec.configs).Keys) && Enumerates(order2, Entries(ab.spec.configs).Keys)
    ensures SecretFor(ab, order1) != SecretFor(ab, order2)
  {
    var configs := Entries(ab.spec.configs);
    order1 := EndingWith(configs.Keys, a);
    order2 := EndingWith(configs.Keys, b);
    LastBinds(ab, order1, k);
    LastBinds(ab, order2, k);
    DataDeterminesBindings(SecretsToGet(ab, order1), SecretsToGet(ab, order2), k);
  }

  lemma LastBinds(ab: AppBundle, order: seq<string>, k: string)
    requires order != [] && Enumerates(order, Entries(ab.spec.configs).Keys)
    requires k in Entries(ab.spec.configs)[order[|order| - 1]].secrets
    ensures k in SecretsToGet(ab, order)
    ensures SecretsToGet(ab, order)[k] == Entries(ab.spec.configs)[order[|order| - 1]].secrets[k]
  {
  }

  lemma DataDeterminesBindings(s1: map<string, string>, s2: map<string, string>, k: string)
    requires k in s1 && k in s2 && s1[k] != s2[k]
    ensures s1 != map[] && s2 != map[]
    ensures MapSorted(s1, SecretDataOf) != MapSorted(s2, SecretDataOf)
  {
    assert s1.Keys != {} && s2.Keys != {};
    MapSortedAt(s1, SecretDataOf, SecretData(k, s1[k]));
    MapSortedAt(s2, SecretDataOf, SecretData(k, s1[k]));
  }

  // ----- Encoding -----

  function EncodeSecretData(d: SecretData): Value {
    Struct([Str(d.secretKey), Struct([Str(d.remoteKey), Str("None"), Str("Default"), Str("None")])])
  }

  function EncodeExternalSecret(e: ExternalSecret): Value {
    Struct([
      Struct([Str(e.store), Str("SecretStore")]),
      Ptr(Some(Num(900))),
      Slice(seq(|e.data|, i requires 0 <= i < |e.data| => EncodeSecretData(e.data[i]))),
      Struct([Str(e.target), Ptr(Some(Struct([Str("v2"), StringMap(e.templates), Str("Replace")]))), Str("Owner"),
        Str("Delete")])
    ])
  }

  const ZERO_EXTERNAL_SECRET := Struct([
    Struct([Str(""), Str("")]), Ptr(None), Slice([]), Struct([Str(""), Ptr(None), Str(""), Str("")])])
}
