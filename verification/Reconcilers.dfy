/**
 The reconcilers as the controller writes them: sequential methods that call the
 API client and update nothing else.

 The client records which program of module Programs it is being taken through.
 Every call must be the next call of that program, and a method that starts with
 the client at a reconciler's program returns with it at the end of that program
 with the same error.  What is proved about the programs, alone or interleaved,
 is thereby proved about these methods.
 */
module Reconcilers {
  import opened Options
  import opened KeyOrder
  import opened Bundle
  import opened GoSlices
  import opened BaseInheritance
  import opened DeepDerivative
  import opened DeploymentCompiler
  import opened DeploymentEncoding
  import opened ConfigMapCompiler
  import opened ExternalSecretCompiler
  import opened ServiceCompiler
  import opened IngressCompiler
  import opened ClaimCompiler
  import opened Api
  import opened Programs

  class Client {
    var cluster: Cluster
    ghost var begun: Prog
    ghost var before: Cluster
    ghost var trace: seq<Event>
    ghost var at: Prog

    /** The calls made so far are a run of the program begun, and at is what remains of it. */
    ghost predicate Valid()
      reads this
    {
      Reaches(begun, before, Faulty, trace, at, cluster)
    }

    constructor (c: Cluster, ghost p: Prog)
      ensures Valid() && begun == at == p && before == cluster == c && trace == []
    {
      cluster, begun, before, trace, at := c, p, c, [], p;
    }

    /** One atomic call.  It may fail, with or without having taken effect. */
    method Do(req: Request) returns (resp: Response)
      requires Valid() && at.Call? && at.req == req
      modifies this
      ensures Valid() && begun == old(begun) && before == old(before)
      ensures at == old(at).k(resp)
      ensures Serves(old(cluster), req, resp, cluster, Faulty)
    {
      var after := cluster;
      resp, after := Answer(cluster, req);
      var e: ApiError :| true;
      if * {
        resp, after := Err(e), cluster;
      } else if * {
        resp := if resp == Done then Err(e) else resp;
      }
      ReachesSnoc(begun, before, Faulty, trace, at, cluster, resp, after);
      trace := trace + [Event(resp, after)];
      at := at.k(resp);
      cluster := after;
    }
  }

  /** A server that stores exactly what it is sent. */
  method Answer(c: Cluster, req: Request) returns (resp: Response, after: Cluster)
    ensures Answers(c, req, resp, after)
  {
    after := c;
    match req {
      case Get(key) =>
        resp := if key in c then Found(c[key]) else Err(NotFound);
      case Create(key, obj) =>
        DerivesReflexive(obj.spec);
        if key in c {
          resp := Err(Failed);
        } else {
          resp, after := Done, c[key := obj];
        }
      case Update(key, obj) =>
        DerivesReflexive(obj.spec);
        if key !in c {
          resp := Err(NotFound);
        } else if Rejects(key.kind, c[key], obj) {
          resp := Err(SelectorImmutable);
        } else {
          resp, after := Done, c[key := obj];
        }
      case Delete(key) =>
        if key in c {
          resp, after := Done, c - {key};
        } else {
          resp := Err(NotFound);
        }
      case List(kind, namespace, bundle) =>
        var keys: seq<Key> := [];
        var rest := Matching(c, kind, namespace, bundle);
        while rest != {}
          invariant rest <= Matching(c, kind, namespace, bundle)
          invariant Enumerates(keys, Matching(c, kind, namespace, bundle) - rest)
          decreases |rest|
        {
          var key :| key in rest;
          keys, rest := keys + [key], rest - {key};
        }
        assert Matching(c, kind, namespace, bundle) - {} == Matching(c, kind, namespace, bundle);
        resp := Listed(keys);
    }
  }

  method UpsertResource(
    r: Client, key: Key, newObj: Obj, er: Option<ApiError>, neverDelete: bool, ghost k: Option<ApiError> -> Prog)
    returns (err: Option<ApiError>)
    requires r.Valid() && r.at == Upsert(key, newObj, er, neverDelete, k)
    modifies r
    ensures r.Valid() && r.begun == old(r.begun) && r.before == old(r.before)
    ensures r.at == k(err)
  {
    if er.Some? && er.value != NotFound {
      return er;
    }
    if er == Some(NotFound) {
      var created := r.Do(Create(key, newObj));
      return ErrorOf(created);
    }
    var updated := r.Do(Update(key, newObj));
    if updated.Err? && ShouldRecreateResource(updated.error) && !neverDelete {
      var deleted := r.Do(Delete(key));
      if deleted.Err? {
        return ErrorOf(deleted);
      }
      var created := r.Do(Create(key, newObj));
      if created.Err? {
        return Some(created.error);
      }
      return Some(updated.error);
    }
    return ErrorOf(updated);
  }

  method ReconcileDeployment(r: Client, ab: AppBundle, grow: nat -> nat) returns (err: Option<ApiError>)
    requires Dereferenceable(ab) && Grows(grow)
    requires r.Valid() && r.at == DeploymentProg(ab, grow)
    modifies r
    ensures r.Valid() && r.begun == old(r.begun) && r.before == old(r.before)
    ensures r.at == Ret(err)
  {
    var key := OwnKey(ab, DeploymentKind);
    var got := r.Do(Get(key));
    var expected := CreateExpectedDeployment(ab, grow);
    if expected.Failure? {
      return Some(Failed);
    }
    var obj := DeploymentObj(expected.value);
    var current := CurrentOr(got, ZERO_DEPLOYMENT);
    if !Derives(obj.spec, current.spec) {
      err := UpsertResource(r, key, obj, ErrorOf(got), false, Finish);
      return;
    }
    var labelsMatch := StringMapsMatch(obj.labels, current.labels);
    if !labelsMatch {
      err := UpsertResource(r, key, obj, ErrorOf(got), false, Finish);
      return;
    }
    return None;
  }

  /** The service reconciler also writes the ServiceType default into the shared bundle. */
  method ReconcileService(r: Client, ab: ResolvableBundle) returns (err: Option<ApiError>)
    requires forall k :: k in Entries(ab.bundle.spec.routes) ==> Entries(ab.bundle.spec.routes)[k].port.Some?
    requires r.Valid() && r.at == ServiceProg(ab.bundle)
    modifies r, ab
    ensures r.Valid() && r.begun == old(r.begun) && r.before == old(r.before)
    ensures r.at == Ret(err)
    ensures ab.bundle == if old(ab.bundle).spec.routes == None then old(ab.bundle) else WithServiceType(old(ab.bundle))
  {
    var key := OwnKey(ab.bundle, ServiceKind);
    var got := r.Do(Get(key));
    if ab.bundle.spec.routes == None {
      if got == Err(NotFound) {
        return None;
      }
      var deleted := r.Do(Delete(key));
      return ErrorOf(deleted);
    }
    var current := CurrentOr(got, ZERO_SERVICE);
    var labels, spec := CreateExpectedService(ab, GetGeneratedServiceSpecData(current.spec));
    if !Derives(spec, current.spec) {
      err := UpsertResource(r, key, Obj(labels, spec), ErrorOf(got), false, Finish);
      return;
    }
    var labelsMatch := StringMapsMatch(labels, current.labels);
    if !labelsMatch {
      err := UpsertResource(r, key, Obj(labels, spec), ErrorOf(got), false, Finish);
      return;
    }
    return None;
  }

  method ReconcileIngress(r: Client, ab: AppBundle) returns (err: Option<ApiError>)
    requires RoutesReady(ab)
    requires r.Valid() && r.at == IngressProg(ab)
    modifies r
    ensures r.Valid() && r.begun == old(r.begun) && r.before == old(r.before)
    ensures r.at == Ret(err)
  {
    var keys, names := CollectIngressKeys(ab);
    var listed := r.Do(List(IngressKind, Some(ab.namespace), ab.name));
    if listed.Err? {
      return Some(listed.error);
    }
    var items := ListedKeys(listed);
    if ab.spec.routes == None && items == [] {
      return None;
    }
    assert items[0..] == items;
    for i := 0 to |items|
      invariant r.Valid() && r.begun == old(r.begun) && r.before == old(r.before)
      invariant r.at == DeleteIngresses(ab, items[i..])
    {
      assert items[i..][1..] == items[i + 1..];
      var expected := Contains(names, items[i].name);
      if !expected {
        var deleted := r.Do(Delete(items[i]));
        if deleted.Err? {
          return Some(deleted.error);
        }
      }
    }
    if |names| == 0 {
      return None;
    }
    assert keys[0..] == keys;
    for i := 0 to |keys|
      invariant r.Valid() && r.begun == old(r.begun) && r.before == old(r.before)
      invariant forall k :: k in keys[i..] ==> WantedKey(ab, k)
      invariant r.at == UpsertIngresses(ab, keys[i..])
    {
      assert keys[i..][1..] == keys[i + 1..];
      err := ReconcileOneIngress(r, ab, keys[i], keys[i..]);
      if err.Some? {
        return;
      }
    }
    return None;
  }

  /** The body of the upsert loop. */
  method ReconcileOneIngress(r: Client, ab: AppBundle, key: string, ghost keys: seq<string>)
    returns (err: Option<ApiError>)
    requires RoutesReady(ab) && keys != [] && keys[0] == key && forall k :: k in keys ==> WantedKey(ab, k)
    requires r.Valid() && r.at == UpsertIngresses(ab, keys)
    modifies r
    ensures r.Valid() && r.begun == old(r.begun) && r.before == old(r.before)
    ensures r.at == if err.Some? then Ret(err) else UpsertIngresses(ab, keys[1..])
  {
    var expected := IngressObj(ab, key);
    var got := r.Do(Get(IngressKey(ab, key)));
    if !Derives(expected.spec, CurrentOr(got, ZERO_INGRESS).spec) {
      err := UpsertResource(r, IngressKey(ab, key), expected, ErrorOf(got), false, AfterIngress(ab, keys));
      return;
    }
    return None;
  }

  method ReconcileConfigMap(r: Client, ab: AppBundle) returns (err: Option<ApiError>)
    requires r.Valid() && r.at == ConfigMapProg(ab)
    modifies r
    ensures r.Valid() && r.begun == old(r.begun) && r.before == old(r.before)
    ensures r.at == Ret(err)
  {
    var key := OwnKey(ab, ConfigMapKind);
    var got := r.Do(Get(key));
    var expected := CreateExpectedConfigMap(ab);
    if expected == None {
      if got.Err? && got.error != NotFound {
        return Some(got.error);
      }
      if got == Err(NotFound) {
        return None;
      }
      var deleted := r.Do(Delete(key));
      return ErrorOf(deleted);
    }
    var obj := ConfigMapObj(expected.value);
    if !Derives(obj.spec, CurrentOr(got, ZERO_CONFIG_MAP).spec) {
      err := UpsertResource(r, key, obj, ErrorOf(got), false, AfterConfigMap(ab));
      if err.Some? {
        return;
      }
      var pods := r.Do(List(PodKind, None, ab.name));
      if pods.Err? {
        return Some(pods.error);
      }
      if |ListedKeys(pods)| == 0 {
        return None;
      } else if |ListedKeys(pods)| > 1 {
        return Some(Failed);
      }
      var restarted := r.Do(Delete(ListedKeys(pods)[0]));
      return ErrorOf(restarted);
    }
    return None;
  }

  /** order is the one in which the runtime ranges over the configs when the expected object is compiled. */
  method ReconcileExternalSecret(r: Client, ab: AppBundle, order: seq<string>) returns (err: Option<ApiError>)
    requires Enumerates(order, Entries(ab.spec.configs).Keys)
    requires r.Valid() && r.at == SecretProg(ab, SecretFor(ab, order))
    modifies r
    ensures r.Valid() && r.begun == old(r.begun) && r.before == old(r.before)
    ensures r.at == Ret(err)
  {
    var key := OwnKey(ab, ExternalSecretKind);
    var got := r.Do(Get(key));
    var expected := CreateExpectedExternalSecret(ab, order);
    if expected.Failure? {
      return Some(Failed);
    }
    if got == Err(NotFound) && expected.value == None {
      return None;
    }
    if expected.value == None {
      if got.Err? {
        return Some(got.error);
      }
      var unneeded := r.Do(Delete(key));
      return ErrorOf(unneeded);
    }
    var obj := SecretObj(expected.value.value);
    if !Derives(obj.spec, CurrentOr(got, ZERO_EXTERNAL_SECRET).spec) {
      var deleted := r.Do(Delete(key));
      if deleted.Err? && deleted.error != NotFound {
        return Some(deleted.error);
      }
      err := UpsertResource(r, key, obj, ErrorOf(got), false, Finish);
      return;
    }
    return None;
  }

  method ReconcileVolumes(r: Client, ab: AppBundle) returns (err: Option<ApiError>)
    requires VolumesReady(ab) && ab.spec.backup == None
    requires r.Valid() && r.at == VolumesProg(ab)
    modifies r
    ensures r.Valid() && r.begun == old(r.begun) && r.before == old(r.before)
    ensures r.at == Ret(err)
  {
    var volumes := Entries(ab.spec.volumes);
    var keys := GetSortedKeys(volumes);
    assert keys[0..] == keys;
    for i := 0 to |keys|
      invariant r.Valid() && r.begun == old(r.begun) && r.before == old(r.before)
      invariant forall k :: k in keys[i..] ==> k in volumes.Keys
      invariant r.at == VolumeLoop(ab, keys[i..])
    {
      ghost var left := keys[i..];
      assert left[0] == keys[i] && left[1..] == keys[i + 1..];
      var v := volumes[keys[i]];
      if v.existingClaim != None {
        err := ReconcileExistingPVC(r, ab, v, left);
        if err.Some? {
          return;
        }
        continue;
      }
      if v.hostPath != None {
        continue;
      }
      if v.emptyDir == Some(true) {
        continue;
      }
      err := ReconcilePVC(r, ab, v, keys[i], left);
      if err.Some? {
        return;
      }
    }
    return None;
  }

  method ReconcileExistingPVC(r: Client, ab: AppBundle, v: Volume, ghost keys: seq<string>)
    returns (err: Option<ApiError>)
    requires VolumesReady(ab) && keys != [] && forall k :: k in keys ==> k in Entries(ab.spec.volumes)
    requires v == Entries(ab.spec.volumes)[keys[0]] && KindOf(v) == Existing
    requires r.Valid() && r.at == VolumeLoop(ab, keys)
    modifies r
    ensures r.Valid() && r.begun == old(r.begun) && r.before == old(r.before)
    ensures r.at == if err.Some? then Ret(err) else VolumeLoop(ab, keys[1..])
  {
    var key := ExistingKey(ab, v);
    var got := r.Do(Get(key));
    var current := CurrentOr(got, ZERO_CLAIM);
    var expectedLabels := GetPVCLabels(ab, v);
    expectedLabels := expectedLabels + current.labels;
    var labelsMatch := StringMapsMatch(current.labels, expectedLabels);
    if !labelsMatch {
      err := UpsertResource(r, key, Obj(expectedLabels, current.spec), ErrorOf(got), true, AfterClaim(ab, keys));
      return;
    }
    return None;
  }

  method ReconcilePVC(r: Client, ab: AppBundle, v: Volume, name: string, ghost keys: seq<string>)
    returns (err: Option<ApiError>)
    requires VolumesReady(ab) && keys != [] && forall k :: k in keys ==> k in Entries(ab.spec.volumes)
    requires name == keys[0] && v == Entries(ab.spec.volumes)[name] && KindOf(v) == Claimed
    requires r.Valid() && r.at == VolumeLoop(ab, keys)
    modifies r
    ensures r.Valid() && r.begun == old(r.begun) && r.before == old(r.before)
    ensures r.at == if err.Some? then Ret(err) else VolumeLoop(ab, keys[1..])
  {
    var key := ClaimKey(ab, name);
    var got := r.Do(Get(key));
    var current := CurrentOr(got, ZERO_CLAIM);
    var labels := GetPVCLabels(ab, v);
    var expected := Obj(labels, EncodeClaim(v));
    if !Derives(expected.spec, current.spec) {
      err := UpsertResource(r, key, expected, ErrorOf(got), true, AfterClaim(ab, keys));
      return;
    }
    var labelsMatch := StringMapsMatch(labels, current.labels);
    if !labelsMatch {
      err := UpsertResource(r, key, Obj(labels, current.spec), ErrorOf(got), true, AfterClaim(ab, keys));
      return;
    }
    return None;
  }
}
